/**
 * The product page: the form's validation, editing the bill of materials
 * (append, update one entry, remove one entry), the suggested price of
 * 1.5 times the material cost, and the search.
 */
module Products {
  import opened Wrappers
  import opened Types
  import opened Storage
  import opened Text
  import opened Lists

  /** The product form; `valor` is `None` when its text is blank. */
  datatype ProductForm = ProductForm(
    nome: string,
    descricao: string,
    valor: Option<real>,
    categoria: string,
    itensComposicao: seq<ItemComposicao>)

  /**
   * `handleSubmit`: a product needs a name and a price. An edit keeps the
   * id (when it has one) and the creation date; `updatedAt` is now.
   */
  function BuildProduct(f: ProductForm, editing: Option<Produto>, freshId: string, now: int): (r: Result<Produto, Error>)
    ensures r.Err? <==> f.nome == "" || f.valor.None?
    ensures r.Ok? ==>
      r.value.nome == f.nome && r.value.valor == f.valor.value &&
      r.value.itensComposicao == f.itensComposicao && r.value.updatedAt == now
    ensures r.Ok? && editing.Some? ==>
      r.value.createdAt == editing.value.createdAt &&
      r.value.id == (if editing.value.id != "" then editing.value.id else freshId)
    ensures r.Ok? && editing.None? ==> r.value.id == freshId && r.value.createdAt == now
  {
    if f.nome == "" || f.valor.None? then Err(Validation("Nome e valor são obrigatórios"))
    else
      var id := if editing.Some? && editing.value.id != "" then editing.value.id else freshId;
      var createdAt := if editing.Some? then editing.value.createdAt else now;
      Ok(Produto(id, f.nome, Some(f.descricao), f.valor.value, Some(f.categoria), f.itensComposicao, createdAt, now))
  }

  /** `addItemComposicao`: a blank entry, one unit of no material yet. */
  function AddEntry(comp: seq<ItemComposicao>): (r: seq<ItemComposicao>)
    ensures |r| == |comp| + 1
    ensures r[..|comp|] == comp
    ensures r[|comp|] == ItemComposicao("", 1.0)
  {
    comp + [ItemComposicao("", 1.0)]
  }

  /** `removeItemComposicao(i)`: drop position `i`; an index past the end drops nothing. */
  function RemoveEntry(comp: seq<ItemComposicao>, i: nat): (r: seq<ItemComposicao>)
    ensures i < |comp| ==> |r| == |comp| - 1
    ensures i < |comp| ==> forall j :: 0 <= j < i ==> r[j] == comp[j]
    ensures i < |comp| ==> forall j :: i <= j < |r| ==> r[j] == comp[j + 1]
    ensures i >= |comp| ==> r == comp
  {
    if i < |comp| then comp[..i] + comp[i + 1..] else comp
  }

  /** Removing the entry just added gives the list back. */
  lemma RemoveAddedEntry(comp: seq<ItemComposicao>)
    ensures RemoveEntry(AddEntry(comp), |comp|) == comp
  {
  }

  /** `(custo || 0) * quantidade`: what one entry costs per unit when its material is `m`. */
  function MaterialCost(m: Item, c: ItemComposicao): real {
    m.custo.GetOr(0.0) * c.quantidade
  }

  /** The material cost of one entry, or nothing for a missing material. */
  function EntryCost(c: ItemComposicao, ms: seq<Item>): real {
    match Lookup(ms, ItemId, c.itemId)
    case None => 0.0
    case Some(m) => MaterialCost(m, c)
  }

  /** The `reduce` over the bill of materials, entry by entry. */
  function CompositionCost(comp: seq<ItemComposicao>, ms: seq<Item>): real {
    if comp == [] then 0.0
    else CompositionCost(comp[..|comp| - 1], ms) + EntryCost(comp[|comp| - 1], ms)
  }

  /** The cost of two lists of entries one after the other is the sum of their costs. */
  lemma {:induction false} CompositionCostAppend(a: seq<ItemComposicao>, b: seq<ItemComposicao>, ms: seq<Item>)
    decreases |b|
    ensures CompositionCost(a + b, ms) == CompositionCost(a, ms) + CompositionCost(b, ms)
  {
    if b == [] {
      assert a + b == a;
    } else {
      var init := b[..|b| - 1];
      CompositionCostAppend(a, init, ms);
      assert (a + b)[..|a + b| - 1] == a + init;
    }
  }

  /** Replacing one entry changes the cost by the difference of the two entries' costs. */
  lemma CompositionCostUpdate(comp: seq<ItemComposicao>, i: nat, e: ItemComposicao, ms: seq<Item>)
    requires i < |comp|
    ensures CompositionCost(comp[i := e], ms) == CompositionCost(comp, ms) - EntryCost(comp[i], ms) + EntryCost(e, ms)
  {
    var before := comp[..i];
    var after := comp[i + 1..];
    assert comp == before + [comp[i]] + after;
    assert comp[i := e] == before + [e] + after;
    CompositionCostAppend(before + [comp[i]], after, ms);
    CompositionCostAppend(before, [comp[i]], ms);
    CompositionCostAppend(before + [e], after, ms);
    CompositionCostAppend(before, [e], ms);
    assert [comp[i]][..0] == [] && [e][..0] == [];
  }

  /** The suggested price: a 50% margin over the material cost. */
  function SuggestedPrice(comp: seq<ItemComposicao>, ms: seq<Item>): real {
    CompositionCost(comp, ms) * 1.5
  }

  /** One edit of a bill-of-materials entry: the material picked, or the amount per unit typed. */
  datatype EntryEdit = SetItemId(itemId: string) | SetQuantidade(quantidade: real)

  function ApplyEntryEdit(c: ItemComposicao, e: EntryEdit): ItemComposicao {
    match e
    case SetItemId(id) => c.(itemId := id)
    case SetQuantidade(q) => c.(quantidade := q)
  }

  /**
   * `updateItemComposicao(i, …)`: entry `i` takes the edit, and the price
   * becomes the suggested price of the new list when that is positive.
   * The page calls it only for an entry it shows.
   */
  function UpdateEntry(f: ProductForm, ms: seq<Item>, i: nat, e: EntryEdit): (r: ProductForm)
    requires i < |f.itensComposicao|
    ensures |r.itensComposicao| == |f.itensComposicao|
    ensures r.itensComposicao[i] == ApplyEntryEdit(f.itensComposicao[i], e)
    ensures forall j :: 0 <= j < |f.itensComposicao| && j != i ==> r.itensComposicao[j] == f.itensComposicao[j]
    ensures r.valor == (if SuggestedPrice(r.itensComposicao, ms) > 0.0 then Some(SuggestedPrice(r.itensComposicao, ms)) else f.valor)
    ensures r.nome == f.nome && r.descricao == f.descricao && r.categoria == f.categoria
  {
    var comp := f.itensComposicao[i := ApplyEntryEdit(f.itensComposicao[i], e)];
    var sugerido := SuggestedPrice(comp, ms);
    f.(itensComposicao := comp, valor := if sugerido > 0.0 then Some(sugerido) else f.valor)
  }

  /** After an edit the suggested price moves by 1.5 times the change in the edited entry's cost. */
  lemma UpdateEntryPrice(f: ProductForm, ms: seq<Item>, i: nat, e: EntryEdit)
    requires i < |f.itensComposicao|
    ensures var comp := f.itensComposicao;
      SuggestedPrice(UpdateEntry(f, ms, i, e).itensComposicao, ms) ==
        SuggestedPrice(comp, ms) + 1.5 * (EntryCost(ApplyEntryEdit(comp[i], e), ms) - EntryCost(comp[i], ms))
  {
    var comp := f.itensComposicao;
    assert UpdateEntry(f, ms, i, e).itensComposicao == comp[i := ApplyEntryEdit(comp[i], e)];
    CompositionCostUpdate(comp, i, ApplyEntryEdit(comp[i], e), ms);
  }

  /** `filteredProdutos`: name or non-blank category contains the search term, ignoring case. */
  predicate ProdutoMatches(p: Produto, term: string) {
    MatchesTerm(p.nome, term) ||
    (p.categoria.Some? && p.categoria.value != "" && MatchesTerm(p.categoria.value, term))
  }

  function FilterProdutos(ps: seq<Produto>, term: string): (r: seq<Produto>)
    ensures forall j :: 0 <= j < |r| ==> r[j] in ps && ProdutoMatches(r[j], term)
    ensures forall j :: 0 <= j < |ps| && ProdutoMatches(ps[j], term) ==> ps[j] in r
  {
    Filter(ps, (p: Produto) => ProdutoMatches(p, term))
  }

  /** An empty search lists every product, in store order. */
  lemma EmptySearchListsAllProdutos(ps: seq<Produto>)
    ensures FilterProdutos(ps, "") == ps
  {
    forall j | 0 <= j < |ps| ensures ProdutoMatches(ps[j], "") {
      EmptyTermMatches(ps[j].nome);
    }
    FilterKeepsAll(ps, (p: Produto) => ProdutoMatches(p, ""));
  }
}
