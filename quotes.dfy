/**
 * The value-level operations of the quote page: building the item list of
 * a quote, validating and assembling the quote on save, the working fields
 * of the approval dialog, the quote an approval produces, status changes
 * and the status filter of the list.
 */
module Quotes {
  import opened Wrappers
  import opened Types
  import opened Storage
  import opened Inventory

  /** `getTotalOrcamento`: the sum of the line totals. */
  function Total(items: seq<OrcamentoItem>): real {
    if items == [] then 0.0 else Total(items[..|items| - 1]) + items[|items| - 1].valorTotal
  }

  /** The total of a concatenation is the sum of the totals. */
  lemma {:induction false} TotalAppend(a: seq<OrcamentoItem>, b: seq<OrcamentoItem>)
    ensures Total(a + b) == Total(a) + Total(b)
    decreases |b|
  {
    if b == [] {
      assert a + b == a;
    } else {
      assert (a + b)[..|a + b| - 1] == a + b[..|b| - 1];
      TotalAppend(a, b[..|b| - 1]);
    }
  }

  /** `getValorUnitario`: the price of the chosen product, 0 when it is not found. */
  function UnitPrice(ps: seq<Produto>, produtoId: string): real {
    match FindProduto(ps, produtoId)
    case None => 0.0
    case Some(p) => p.valor
  }

  /**
   * `addItem`: refused without a product; otherwise one line is appended,
   * priced with the product's current price (a snapshot) times the
   * quantity. `quantidade` is the integer the quantity field parses to.
   */
  function AddItem(items: seq<OrcamentoItem>, ps: seq<Produto>, produtoId: string, quantidade: int, newId: string)
    : (r: Result<seq<OrcamentoItem>, Error>)
    ensures r.Err? <==> produtoId == ""
    ensures r.Ok? ==> |r.value| == |items| + 1 && r.value[..|items|] == items
    ensures r.Ok? ==>
      var x := r.value[|items|];
      x.id == newId && x.produtoId == produtoId && x.quantidade == quantidade as real &&
      x.valorUnitario == UnitPrice(ps, produtoId) && x.valorTotal == x.valorUnitario * x.quantidade &&
      x.aprovado.None? && x.quantidadeAprovada.None?
    ensures r.Ok? ==> Total(r.value) == Total(items) + r.value[|items|].valorTotal
  {
    if produtoId == "" then Err(Validation("Produto é obrigatório"))
    else
      var valorUnitario := UnitPrice(ps, produtoId);
      var x := OrcamentoItem(newId, produtoId, quantidade as real, valorUnitario,
                             valorUnitario * (quantidade as real), None, None);
      assert (items + [x])[..|items|] == items;
      Ok(items + [x])
  }

  /** `removeItem`: drop the lines with that id. */
  function RemoveItem(items: seq<OrcamentoItem>, itemId: string): (r: seq<OrcamentoItem>)
    ensures forall k :: 0 <= k < |r| ==> r[k] in items && r[k].id != itemId
    ensures forall k :: 0 <= k < |items| && items[k].id != itemId ==> items[k] in r
  {
    RemoveAll(items, LineId, itemId)
  }

  /** Removing a line just added under a fresh id gives back the list as it was. */
  lemma AddThenRemove(items: seq<OrcamentoItem>, ps: seq<Produto>, produtoId: string, quantidade: int, newId: string)
    requires produtoId != ""
    requires forall k :: 0 <= k < |items| ==> items[k].id != newId
    ensures AddItem(items, ps, produtoId, quantidade, newId).Ok?
    ensures RemoveItem(AddItem(items, ps, produtoId, quantidade, newId).value, newId) == items
  {
    var r := AddItem(items, ps, produtoId, quantidade, newId).value;
    assert r == items + [r[|items|]];
    RemoveAllAppend(items, [r[|items|]], LineId, newId);
    RemoveAllAbsent(items, LineId, newId);
    assert RemoveAll([r[|items|]], LineId, newId) == [];
  }

  /** The quote form's own fields; a blank validity date is `None`. */
  datatype QuoteForm = QuoteForm(clienteId: string, observacoes: string, prazoValidade: Option<int>)

  /**
   * `handleSubmit`: refused when the client, the validity date or every
   * line is missing; otherwise the quote as saved. Editing keeps the
   * edited quote's id (unless it is empty), status and creation date; a
   * new quote gets the fresh id and starts as "orcamento". The
   * cancellation reason is not carried over.
   */
  function BuildQuote(form: QuoteForm, items: seq<OrcamentoItem>, editing: Option<Orcamento>, freshId: string, now: int)
    : (r: Result<Orcamento, Error>)
    ensures r.Err? <==> form.clienteId == "" || items == [] || form.prazoValidade.None?
    ensures r.Ok? ==>
      r.value.clienteId == form.clienteId && r.value.itens == items && r.value.valorTotal == Total(items) &&
      r.value.observacoes == Some(form.observacoes) && r.value.prazoValidade == form.prazoValidade.value &&
      r.value.motivoCancelamento.None? && r.value.updatedAt == now
    ensures r.Ok? && editing.Some? ==>
      r.value.status == editing.value.status && r.value.createdAt == editing.value.createdAt &&
      r.value.id == (if editing.value.id != "" then editing.value.id else freshId)
    ensures r.Ok? && editing.None? ==>
      r.value.status == EmOrcamento && r.value.id == freshId && r.value.createdAt == now
  {
    if form.clienteId == "" || items == [] || form.prazoValidade.None? then
      Err(Validation("Cliente, prazo de validade e pelo menos um item são obrigatórios"))
    else
      var id := if editing.Some? && editing.value.id != "" then editing.value.id else freshId;
      var status := if editing.Some? then editing.value.status else EmOrcamento;
      var createdAt := if editing.Some? then editing.value.createdAt else now;
      Ok(Orcamento(id, form.clienteId, items, Total(items), status, Some(form.observacoes), None,
                   form.prazoValidade.value, createdAt, now))
  }

  /**
   * `handleApproval`: refused for a quote without lines; otherwise the
   * dialog's working copy, every line unticked with approved quantity 0.
   */
  function StartApproval(q: Orcamento): (r: Result<seq<OrcamentoItem>, Error>)
    ensures r.Err? <==> q.itens == []
    ensures r.Ok? ==> |r.value| == |q.itens|
    ensures r.Ok? ==> forall k :: 0 <= k < |q.itens| ==>
      r.value[k] == q.itens[k].(aprovado := Some(false), quantidadeAprovada := Some(0.0))
    ensures r.Ok? ==> Approved(r.value) == []
  {
    if q.itens == [] then Err(Validation("Este orçamento não possui itens válidos para aprovação"))
    else
      var w := seq(|q.itens|, k requires 0 <= k < |q.itens| =>
                 q.itens[k].(aprovado := Some(false), quantidadeAprovada := Some(0.0)));
      NothingTicked(w);
      Ok(w)
  }

  /** A working copy in which no line passes the approval filter approves nothing. */
  lemma NothingTicked(items: seq<OrcamentoItem>)
    requires forall k :: 0 <= k < |items| ==> !IsApproved(items[k])
    ensures Approved(items) == []
  {
  }

  /** One change made in the approval dialog. `None` is a blank or unparsable quantity. */
  datatype ApprovalEdit = SetAprovado(checked: bool) | SetQuantidadeAprovada(quantidade: Option<real>)

  function ApplyEdit(x: OrcamentoItem, e: ApprovalEdit): OrcamentoItem {
    match e
    case SetAprovado(b) => x.(aprovado := Some(b))
    case SetQuantidadeAprovada(n) => x.(quantidadeAprovada := n)
  }

  /**
   * `handleApprovalItemChange`: every line with the id gets the new field
   * value; only the two working fields of those lines change.
   */
  function EditApproval(items: seq<OrcamentoItem>, itemId: string, e: ApprovalEdit): (r: seq<OrcamentoItem>)
    ensures |r| == |items|
    ensures forall k :: 0 <= k < |items| && items[k].id != itemId ==> r[k] == items[k]
    ensures forall k :: 0 <= k < |items| ==>
      r[k].(aprovado := items[k].aprovado, quantidadeAprovada := items[k].quantidadeAprovada) == items[k]
    ensures forall k :: 0 <= k < |items| && items[k].id == itemId ==>
      (e.SetAprovado? ==> r[k].aprovado == Some(e.checked)) &&
      (e.SetQuantidadeAprovada? ==> r[k].quantidadeAprovada == e.quantidade)
  {
    seq(|items|, k requires 0 <= k < |items| => if items[k].id == itemId then ApplyEdit(items[k], e) else items[k])
  }

  /** The approval filter: ticked, with a truthy approved quantity above 0. */
  predicate IsApproved(x: OrcamentoItem) {
    x.aprovado == Some(true) && x.quantidadeAprovada.Some? && x.quantidadeAprovada.value > 0.0
  }

  /** `approvalItems.filter(...)`: the approved lines, in their order. */
  function Approved(items: seq<OrcamentoItem>): (r: seq<OrcamentoItem>)
    ensures |r| <= |items|
    ensures forall k :: 0 <= k < |r| ==> IsApproved(r[k]) && r[k] in items
    ensures forall k :: 0 <= k < |items| && IsApproved(items[k]) ==> items[k] in r
  {
    if items == [] then []
    else
      var rest := Approved(items[..|items| - 1]);
      var x := items[|items| - 1];
      if IsApproved(x) then rest + [x] else rest
  }

  /** The approval filter distributes over concatenation: approved lines keep their relative order. */
  lemma {:induction false} ApprovedAppend(a: seq<OrcamentoItem>, b: seq<OrcamentoItem>)
    ensures Approved(a + b) == Approved(a) + Approved(b)
    decreases |b|
  {
    if b == [] {
      assert a + b == a;
    } else {
      assert (a + b)[..|a + b| - 1] == a + b[..|b| - 1];
      ApprovedAppend(a, b[..|b| - 1]);
    }
  }

  /** `quantidadeAprovada || 0`: the units an approved line consumes. */
  function Units(x: OrcamentoItem): real {
    match x.quantidadeAprovada
    case Some(v) => v
    case None => 0.0
  }

  /** `quantidadeAprovada || quantidade`: the quantity a line keeps after approval. */
  function SettledQuantity(x: OrcamentoItem): real {
    if x.quantidadeAprovada.Some? && x.quantidadeAprovada.value != 0.0 then x.quantidadeAprovada.value
    else x.quantidade
  }

  /** One approved line rewritten: approved quantity, total recomputed; the working fields stay. */
  function Settle(x: OrcamentoItem): OrcamentoItem {
    x.(quantidade := SettledQuantity(x), valorTotal := x.valorUnitario * SettledQuantity(x))
  }

  function SettleAll(items: seq<OrcamentoItem>): (r: seq<OrcamentoItem>)
    ensures |r| == |items|
    ensures forall k :: 0 <= k < |items| ==> r[k] == Settle(items[k])
  {
    if items == [] then [] else SettleAll(items[..|items| - 1]) + [Settle(items[|items| - 1])]
  }

  /** The `reduce` that computes the approved quote's total from the approved lines. */
  function ApprovedValue(items: seq<OrcamentoItem>): real {
    if items == [] then 0.0
    else ApprovedValue(items[..|items| - 1]) + items[|items| - 1].valorUnitario * SettledQuantity(items[|items| - 1])
  }

  /** The two reductions agree: the approved total is the sum of the rewritten line totals. */
  lemma {:induction false} ApprovedValueIsTotal(items: seq<OrcamentoItem>)
    ensures ApprovedValue(items) == Total(SettleAll(items))
  {
    if items != [] {
      var init := items[..|items| - 1];
      ApprovedValueIsTotal(init);
      assert SettleAll(items)[..|items| - 1] == SettleAll(init);
    }
  }

  /** The quote `confirmApproval` saves: in progress, only the approved lines, rewritten, and their total. */
  function ApprovedQuote(q: Orcamento, approval: seq<OrcamentoItem>, now: int): Orcamento {
    var aprovados := Approved(approval);
    q.(status := EmAndamento, itens := SettleAll(aprovados), valorTotal := ApprovedValue(aprovados), updatedAt := now)
  }

  /**
   * After approval the quote is in progress and keeps its identity,
   * client, notes, validity date, creation date and reason.
   */
  lemma ApprovedQuoteKeeps(q: Orcamento, approval: seq<OrcamentoItem>, now: int)
    ensures var r := ApprovedQuote(q, approval, now);
      r.status == EmAndamento && r.id == q.id && r.clienteId == q.clienteId &&
      r.observacoes == q.observacoes && r.motivoCancelamento == q.motivoCancelamento &&
      r.prazoValidade == q.prazoValidade && r.createdAt == q.createdAt && r.updatedAt == now
  {
  }

  /**
   * The approved quote holds exactly the approved lines, in their order,
   * each at its approved quantity (above 0) with total unit price times
   * that quantity.
   */
  lemma ApprovedQuoteLines(q: Orcamento, approval: seq<OrcamentoItem>, now: int)
    ensures |ApprovedQuote(q, approval, now).itens| == |Approved(approval)|
    ensures forall k :: 0 <= k < |Approved(approval)| ==>
      SettledFrom(ApprovedQuote(q, approval, now).itens[k], Approved(approval)[k])
  {
    SettleApproved(Approved(approval));
  }

  /**
   * `y` is approved line `a` as the approval rewrites it: `a` passed the
   * filter with an approved quantity above 0, and `y` is `a` at that
   * quantity with total unit price times it.
   */
  predicate SettledFrom(y: OrcamentoItem, a: OrcamentoItem) {
    IsApproved(a) && a.quantidadeAprovada.value > 0.0 &&
    y == a.(quantidade := a.quantidadeAprovada.value, valorTotal := a.valorUnitario * a.quantidadeAprovada.value)
  }

  /** Settling lines that all pass the approval filter sets each to its approved quantity. */
  lemma SettleApproved(aprovados: seq<OrcamentoItem>)
    requires forall k :: 0 <= k < |aprovados| ==> IsApproved(aprovados[k])
    ensures |SettleAll(aprovados)| == |aprovados|
    ensures forall k :: 0 <= k < |aprovados| ==> SettledFrom(SettleAll(aprovados)[k], aprovados[k])
  {
    forall k | 0 <= k < |aprovados|
      ensures SettledFrom(SettleAll(aprovados)[k], aprovados[k])
    {
      assert IsApproved(aprovados[k]);
    }
  }

  /** The approved quote's total is the sum of its new line totals. */
  lemma ApprovedQuoteTotal(q: Orcamento, approval: seq<OrcamentoItem>, now: int)
    ensures ApprovedQuote(q, approval, now).valorTotal == Total(ApprovedQuote(q, approval, now).itens)
  {
    ApprovedValueIsTotal(Approved(approval));
  }

  /** Consumption demands of the approved lines: product and `quantidadeAprovada || 0` units. */
  function ApprovalDemands(items: seq<OrcamentoItem>): (r: seq<Demand>)
    ensures |r| == |items|
    ensures forall k :: 0 <= k < |items| ==> r[k] == Demand(items[k].produtoId, Units(items[k]))
  {
    if items == [] then [] else ApprovalDemands(items[..|items| - 1]) + [Demand(items[|items| - 1].produtoId, Units(items[|items| - 1]))]
  }

  /** Give-back demands of a deleted in-progress quote: product and line quantity. */
  function ReversalDemands(items: seq<OrcamentoItem>): (r: seq<Demand>)
    ensures |r| == |items|
    ensures forall k :: 0 <= k < |items| ==> r[k] == Demand(items[k].produtoId, items[k].quantidade)
  {
    if items == [] then [] else ReversalDemands(items[..|items| - 1]) + [Demand(items[|items| - 1].produtoId, items[|items| - 1].quantidade)]
  }

  /**
   * Approve then delete: if no clamp fired while approving, deleting the
   * approved quote gives back exactly what was taken, so every material's
   * stock is restored.
   */
  lemma ApproveThenDeleteRestoresStock(ms: seq<Item>, ps: seq<Produto>, q: Orcamento, approval: seq<OrcamentoItem>, t1: int, t2: int)
    requires NoClamp(ms, Steps(ps, ApprovalDemands(Approved(approval))), t1)
    ensures
      var taken := ConsumeAll(ms, Steps(ps, ApprovalDemands(Approved(approval))), t1);
      var back := RestockAll(taken, Steps(ps, ReversalDemands(ApprovedQuote(q, approval, t1).itens)), t2);
      |back| == |ms| && forall j :: 0 <= j < |ms| ==> back[j].estoque == ms[j].estoque
  {
    var a := Approved(approval);
    assert ReversalDemands(SettleAll(a)) == ApprovalDemands(a);
    RestockUndoesConsume(ms, Steps(ps, ApprovalDemands(a)), t1, t2);
  }

  /**
   * `handleStatusChange`: sets the status, keeps the cancellation reason
   * only when the new status is "cancelado", stamps `updatedAt`, and
   * leaves every other field as it was.
   */
  function ChangeStatus(q: Orcamento, novo: StatusOrcamento, motivo: Option<string>, now: int): (r: Orcamento)
    ensures r.status == novo && r.updatedAt == now
    ensures r.motivoCancelamento == if novo == Cancelado then motivo else None
    ensures r.(status := q.status, motivoCancelamento := q.motivoCancelamento, updatedAt := q.updatedAt) == q
    ensures q.valorTotal == Total(q.itens) ==> r.valorTotal == Total(r.itens)
  {
    q.(status := novo, motivoCancelamento := if novo == Cancelado then motivo else None, updatedAt := now)
  }

  /** The status selector of the list: every status, or one. */
  datatype StatusFilter = All | Only(status: StatusOrcamento)

  predicate MatchesStatus(q: Orcamento, f: StatusFilter) {
    f.All? || q.status == f.status
  }

  /** The status part of `filteredOrcamentos`: exactly the quotes that match, in order. */
  function FilterByStatus(qs: seq<Orcamento>, f: StatusFilter): (r: seq<Orcamento>)
    ensures |r| <= |qs|
    ensures forall k :: 0 <= k < |r| ==> r[k] in qs && MatchesStatus(r[k], f)
    ensures forall k :: 0 <= k < |qs| && MatchesStatus(qs[k], f) ==> qs[k] in r
    ensures f.All? ==> r == qs
  {
    if qs == [] then []
    else
      var rest := FilterByStatus(qs[..|qs| - 1], f);
      var q := qs[|qs| - 1];
      assert f.All? ==> qs[..|qs| - 1] + [q] == qs;
      if MatchesStatus(q, f) then rest + [q] else rest
  }
}
