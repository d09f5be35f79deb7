/**
 * The materials page: the low-stock status and alert list, the form's
 * validation and conversions, and the name search. A manual stock edit is
 * the store's `UpdateEstoque`, unclamped.
 */
module Materials {
  import opened Wrappers
  import opened Types
  import opened Text
  import opened Lists

  /** Low stock: at or below a positive minimum; a zero minimum never alerts. */
  predicate IsLow(m: Item) {
    m.estoque <= m.estoqueMinimo && m.estoqueMinimo > 0.0
  }

  datatype StatusEstoque = Baixo | Normal

  /** `getStatusEstoque`. */
  function GetStatusEstoque(m: Item): (r: StatusEstoque)
    ensures r == Baixo <==> IsLow(m)
    ensures m.estoqueMinimo <= 0.0 ==> r == Normal
  {
    if m.estoque <= m.estoqueMinimo && m.estoqueMinimo > 0.0 then Baixo else Normal
  }

  /** `itensComAlerta`: the low-stock materials, in store order. */
  function Alerts(ms: seq<Item>): (r: seq<Item>)
    ensures forall j :: 0 <= j < |r| ==> r[j] in ms && GetStatusEstoque(r[j]) == Baixo
    ensures forall j :: 0 <= j < |ms| && GetStatusEstoque(ms[j]) == Baixo ==> ms[j] in r
  {
    Filter(ms, IsLow)
  }

  /** Raising a material's stock above its minimum takes it off the alert list. */
  lemma RestockedNotAlerted(ms: seq<Item>, k: nat, estoque: real)
    requires k < |ms| && estoque > ms[k].estoqueMinimo
    ensures ms[k].(estoque := estoque) !in Alerts(ms[k := ms[k].(estoque := estoque)])
  {
  }

  /**
   * `parseInt` of plain decimal text (digits, an optional sign and point,
   * no exponent), given by its value: the integer part, truncated toward
   * zero.
   */
  function ParseInt(x: real): (r: int)
    ensures x >= 0.0 ==> r as real <= x < r as real + 1.0
    ensures x < 0.0 ==> r as real - 1.0 < x <= r as real
  {
    if x >= 0.0 then x.Floor else -((-x).Floor)
  }

  /** A whole number parses to itself. */
  lemma ParseIntWhole(e: int)
    ensures ParseInt(e as real) == e
  {
    if e < 0 {
      assert -(e as real) == (-e) as real;
      assert ((-e) as real).Floor == -e;
    } else {
      assert (e as real).Floor == e;
    }
  }

  /** The materials form: numbers as the value of plain decimal text, `None` when the text is blank. */
  datatype MaterialForm = MaterialForm(
    nome: string,
    estoque: Option<real>,
    estoqueMinimo: Option<real>,
    unidade: string,
    custo: Option<real>)

  /**
   * `handleSubmit`: name, stock and minimum are required; stock and minimum
   * are stored as `parseInt` of the text; a blank cost is stored as
   * undefined. An edit keeps the id (when it has one) and the creation date.
   */
  function BuildMaterial(f: MaterialForm, editing: Option<Item>, freshId: string, now: int): (r: Result<Item, Error>)
    ensures r.Err? <==> f.nome == "" || f.estoque.None? || f.estoqueMinimo.None?
    ensures r.Ok? ==>
      r.value.nome == f.nome && r.value.unidade == f.unidade && r.value.custo == f.custo &&
      r.value.estoque == ParseInt(f.estoque.value) as real &&
      r.value.estoqueMinimo == ParseInt(f.estoqueMinimo.value) as real &&
      r.value.updatedAt == now
    ensures r.Ok? && editing.Some? ==>
      r.value.createdAt == editing.value.createdAt &&
      r.value.id == (if editing.value.id != "" then editing.value.id else freshId)
    ensures r.Ok? && editing.None? ==> r.value.id == freshId && r.value.createdAt == now
  {
    if f.nome == "" || f.estoque.None? || f.estoqueMinimo.None? then
      Err(Validation("Nome, estoque atual e estoque mínimo são obrigatórios"))
    else
      var id := if editing.Some? && editing.value.id != "" then editing.value.id else freshId;
      var createdAt := if editing.Some? then editing.value.createdAt else now;
      Ok(Item(id, f.nome, ParseInt(f.estoque.value) as real, ParseInt(f.estoqueMinimo.value) as real,
              f.unidade, f.custo, createdAt, now))
  }

  /** Whole numbers typed into the form are stored as typed. */
  lemma WholeNumbersKept(f: MaterialForm, editing: Option<Item>, freshId: string, now: int, e: int, min: int)
    requires f.nome != "" && f.estoque == Some(e as real) && f.estoqueMinimo == Some(min as real)
    ensures BuildMaterial(f, editing, freshId, now).Ok?
    ensures BuildMaterial(f, editing, freshId, now).value.estoque == e as real
    ensures BuildMaterial(f, editing, freshId, now).value.estoqueMinimo == min as real
  {
    ParseIntWhole(e);
    ParseIntWhole(min);
  }

  /** `filteredItens`: the materials whose name contains the search term, ignoring case. */
  function FilterItens(ms: seq<Item>, term: string): (r: seq<Item>)
    ensures forall j :: 0 <= j < |r| ==> r[j] in ms && MatchesTerm(r[j].nome, term)
    ensures forall j :: 0 <= j < |ms| && MatchesTerm(ms[j].nome, term) ==> ms[j] in r
  {
    Filter(ms, (m: Item) => MatchesTerm(m.nome, term))
  }

  /** An empty search lists every material, in store order. */
  lemma EmptySearchListsAllItens(ms: seq<Item>)
    ensures FilterItens(ms, "") == ms
  {
    forall j | 0 <= j < |ms| ensures MatchesTerm(ms[j].nome, "") {
      EmptyTermMatches(ms[j].nome);
    }
    FilterKeepsAll(ms, (m: Item) => MatchesTerm(m.nome, ""));
  }
}
