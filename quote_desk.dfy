/**
 * The quote page's handlers that write to the stores: save, confirm an
 * approval, delete (with stock reversal), and change a status. The page's
 * product list is the snapshot it loaded; quotes and materials are the
 * live stores, read and written one record at a time as the page does.
 */
module QuoteDesk {
  import opened Wrappers
  import opened Types
  import opened Storage
  import opened Inventory
  import opened Quotes

  /** Which status changes the page offers for a quote: only "pay" on an in-progress quote. */
  predicate StatusChangeOffered(found: Option<Orcamento>, novo: StatusOrcamento) {
    found.None? || (found.value.status == EmAndamento && novo == Pago)
  }

  class Desk {
    const quotes: RecordStore<Orcamento>
    const materials: RecordStore<Item>
    var produtos: seq<Produto>

    /** The two stores are keyed by id and stamp `updatedAt` when they replace a record. */
    ghost predicate Valid() {
      quotes.idOf == OrcamentoId && quotes.touch == TouchOrcamento &&
      materials.idOf == ItemId && materials.touch == TouchItem
    }

    constructor (quotes: RecordStore<Orcamento>, materials: RecordStore<Item>, produtos: seq<Produto>)
      requires quotes.idOf == OrcamentoId && quotes.touch == TouchOrcamento
      requires materials.idOf == ItemId && materials.touch == TouchItem
      ensures Valid()
      ensures this.quotes == quotes && this.materials == materials && this.produtos == produtos
    {
      this.quotes := quotes;
      this.materials := materials;
      this.produtos := produtos;
    }

    /**
     * `handleSubmit`: validate, build and save the quote; no write when
     * validation fails. The page offers editing only for quotes still in
     * "orcamento".
     */
    method Submit(form: QuoteForm, items: seq<OrcamentoItem>, editing: Option<Orcamento>, freshId: string, now: int)
      returns (r: Outcome<Error>)
      requires Valid()
      requires editing.Some? ==> editing.value.status == EmOrcamento
      modifies quotes
      ensures Valid()
      ensures BuildQuote(form, items, editing, freshId, now).Err? ==>
        r == Fail(BuildQuote(form, items, editing, freshId, now).error) && quotes.records == old(quotes.records)
      ensures BuildQuote(form, items, editing, freshId, now).Ok? ==>
        r == Pass &&
        quotes.records == Upsert(old(quotes.records), OrcamentoId, TouchOrcamento, BuildQuote(form, items, editing, freshId, now).value, now)
    {
      var built := BuildQuote(form, items, editing, freshId, now);
      if built.Err? {
        return Fail(built.error);
      }
      quotes.Save(built.value, now);
      r := Pass;
    }

    /** One approval step as the page writes it: read the material, store `max(0, stock - amount)`. */
    method ConsumeStep(st: Step, now: int)
      requires Valid()
      modifies materials
      ensures Valid()
      ensures materials.records == Consume(old(materials.records), st, now)
    {
      var m := materials.GetById(st.itemId);
      if m.Some? {
        ApplyConsume(st, m.value, now);
      }
    }

    /** The write of one approval step, once the material has been read. */
    method ApplyConsume(st: Step, m: Item, now: int)
      requires Valid()
      requires Lookup(materials.records, ItemId, st.itemId) == Some(m)
      modifies materials
      ensures materials.records == Consume(old(materials.records), st, now)
    {
      ConsumeFound(materials.records, st, now, m);
      UpdateEstoque(materials, m.id, Max0(m.estoque - st.amount), now);
    }

    /** One reversal step as the page writes it: read the material, store `stock + amount`. */
    method RestockStep(st: Step, now: int)
      requires Valid()
      modifies materials
      ensures Valid()
      ensures materials.records == Restock(old(materials.records), st, now)
    {
      var m := materials.GetById(st.itemId);
      if m.Some? {
        ApplyRestock(st, m.value, now);
      }
    }

    /** The write of one reversal step, once the material has been read. */
    method ApplyRestock(st: Step, m: Item, now: int)
      requires Valid()
      requires Lookup(materials.records, ItemId, st.itemId) == Some(m)
      modifies materials
      ensures materials.records == Restock(old(materials.records), st, now)
    {
      RestockFound(materials.records, st, now, m);
      UpdateEstoque(materials, m.id, m.estoque + st.amount, now);
    }

    /** The inner loop of `confirmApproval`: every entry of one product's bill of materials. */
    method ConsumeEntries(comp: seq<ItemComposicao>, units: real, now: int, ghost m0: seq<Item>, ghost before: seq<Step>)
      requires Valid()
      requires materials.records == ConsumeAll(m0, before, now)
      modifies materials
      ensures Valid()
      ensures materials.records == ConsumeAll(m0, before + EntrySteps(comp, units), now)
    {
      var j := 0;
      assert before + EntrySteps(comp[..0], units) == before;
      while j < |comp|
        invariant 0 <= j <= |comp|
        invariant Valid()
        invariant materials.records == ConsumeAll(m0, before + EntrySteps(comp[..j], units), now)
      {
        var st := Step(comp[j].itemId, comp[j].quantidade * units);
        EntryStepsSnoc(comp, j, units);
        assert before + EntrySteps(comp[..j + 1], units) == (before + EntrySteps(comp[..j], units)) + [st];
        ConsumeAllSnoc(m0, before + EntrySteps(comp[..j], units), st, now);
        ConsumeStep(st, now);
        j := j + 1;
      }
      assert comp[..|comp|] == comp;
    }

    /** The inner loop of `confirmDelete`: every entry of one product's bill of materials. */
    method RestockEntries(comp: seq<ItemComposicao>, units: real, now: int, ghost m0: seq<Item>, ghost before: seq<Step>)
      requires Valid()
      requires materials.records == RestockAll(m0, before, now)
      modifies materials
      ensures Valid()
      ensures materials.records == RestockAll(m0, before + EntrySteps(comp, units), now)
    {
      var j := 0;
      assert before + EntrySteps(comp[..0], units) == before;
      while j < |comp|
        invariant 0 <= j <= |comp|
        invariant Valid()
        invariant materials.records == RestockAll(m0, before + EntrySteps(comp[..j], units), now)
      {
        var st := Step(comp[j].itemId, comp[j].quantidade * units);
        EntryStepsSnoc(comp, j, units);
        assert before + EntrySteps(comp[..j + 1], units) == (before + EntrySteps(comp[..j], units)) + [st];
        RestockAllSnoc(m0, before + EntrySteps(comp[..j], units), st, now);
        RestockStep(st, now);
        j := j + 1;
      }
      assert comp[..|comp|] == comp;
    }

    /** Both loops of `confirmApproval`: each demand, then each entry of its product. */
    method ConsumeDemands(ds: seq<Demand>, now: int)
      requires Valid()
      modifies materials
      ensures Valid()
      ensures materials.records == ConsumeAll(old(materials.records), Steps(produtos, ds), now)
    {
      ghost var m0 := materials.records;
      var i := 0;
      while i < |ds|
        invariant 0 <= i <= |ds|
        invariant Valid()
        invariant materials.records == ConsumeAll(m0, Steps(produtos, ds[..i]), now)
      {
        var produto := FindProduto(produtos, ds[i].produtoId);
        if produto.Some? {
          StepsFound(produtos, ds, i, produto.value);
          ConsumeEntries(produto.value.itensComposicao, ds[i].units, now, m0, Steps(produtos, ds[..i]));
        } else {
          StepsSkip(produtos, ds, i);
        }
        i := i + 1;
      }
      assert ds[..|ds|] == ds;
    }

    /** Both loops of `confirmDelete`: each demand, then each entry of its product. */
    method RestockDemands(ds: seq<Demand>, now: int)
      requires Valid()
      modifies materials
      ensures Valid()
      ensures materials.records == RestockAll(old(materials.records), Steps(produtos, ds), now)
    {
      ghost var m0 := materials.records;
      var i := 0;
      while i < |ds|
        invariant 0 <= i <= |ds|
        invariant Valid()
        invariant materials.records == RestockAll(m0, Steps(produtos, ds[..i]), now)
      {
        var produto := FindProduto(produtos, ds[i].produtoId);
        if produto.Some? {
          StepsFound(produtos, ds, i, produto.value);
          RestockEntries(produto.value.itensComposicao, ds[i].units, now, m0, Steps(produtos, ds[..i]));
        } else {
          StepsSkip(produtos, ds, i);
        }
        i := i + 1;
      }
      assert ds[..|ds|] == ds;
    }

    /**
     * `confirmApproval`: refused, with nothing written, when no line of the
     * working copy is approved. Otherwise, for each approved line and each
     * entry of its product's bill of materials, the material found gets
     * `max(0, stock - perUnit * approved)`; then the quote is saved in
     * progress with only the approved lines. The page offers approval only
     * for quotes in "orcamento".
     */
    method ConfirmApproval(q: Orcamento, approval: seq<OrcamentoItem>, now: int) returns (r: Outcome<Error>)
      requires Valid()
      requires q.status == EmOrcamento
      modifies quotes, materials
      ensures Valid()
      ensures Approved(approval) == [] ==>
        r.Fail? && r.error.Validation? &&
        quotes.records == old(quotes.records) && materials.records == old(materials.records)
      ensures Approved(approval) != [] ==>
        r == Pass &&
        materials.records == ConsumeAll(old(materials.records), Steps(produtos, ApprovalDemands(Approved(approval))), now) &&
        quotes.records == Upsert(old(quotes.records), OrcamentoId, TouchOrcamento, ApprovedQuote(q, approval, now), now)
    {
      var aprovados := Approved(approval);
      if aprovados == [] {
        return Fail(Validation("Selecione pelo menos um item para aprovação"));
      }
      ConsumeDemands(ApprovalDemands(aprovados), now);
      quotes.Save(ApprovedQuote(q, approval, now), now);
      r := Pass;
    }

    /**
     * `handleDelete` + `confirmDelete`: a paid quote is refused and nothing
     * changes. An in-progress quote first gives its stock back: for each
     * line and each entry of its product's bill of materials, the material
     * found gets `stock + quantity * perUnit`, without a clamp. Then every
     * quote with the id is removed. Confirming with an empty id does
     * nothing.
     */
    method Delete(id: string, now: int) returns (r: Outcome<Error>)
      requires Valid()
      modifies quotes, materials
      ensures Valid()
      ensures var found := Lookup(old(quotes.records), OrcamentoId, id);
        found.Some? && found.value.status == Pago ==>
          r.Fail? && r.error.Policy? &&
          quotes.records == old(quotes.records) && materials.records == old(materials.records)
      ensures var found := Lookup(old(quotes.records), OrcamentoId, id);
        !(found.Some? && found.value.status == Pago) && id == "" ==>
          r == Pass && quotes.records == old(quotes.records) && materials.records == old(materials.records)
      ensures var found := Lookup(old(quotes.records), OrcamentoId, id);
        !(found.Some? && found.value.status == Pago) && id != "" ==>
          r == Pass &&
          quotes.records == RemoveAll(old(quotes.records), OrcamentoId, id) &&
          materials.records ==
            if found.Some? && found.value.status == EmAndamento
            then RestockAll(old(materials.records), Steps(produtos, ReversalDemands(found.value.itens)), now)
            else old(materials.records)
    {
      var found := quotes.GetById(id);
      if found.Some? && found.value.status == Pago {
        return Fail(Policy("Orçamentos pagos não podem ser excluídos."));
      }
      if id == "" {
        return Pass;
      }
      if found.Some? && found.value.status == EmAndamento {
        RestockDemands(ReversalDemands(found.value.itens), now);
      }
      quotes.Delete(id);
      r := Pass;
    }

    /**
     * `handleStatusChange`: when a quote with the id exists, save it with
     * the new status (and reason, for "cancelado"); otherwise do nothing.
     * The page calls it only to mark an in-progress quote paid.
     */
    method HandleStatusChange(id: string, novo: StatusOrcamento, motivo: Option<string>, now: int)
      requires Valid()
      requires StatusChangeOffered(Lookup(quotes.records, OrcamentoId, id), novo)
      modifies quotes
      ensures Valid()
      ensures var found := Lookup(old(quotes.records), OrcamentoId, id);
        quotes.records ==
          if found.None? then old(quotes.records)
          else Upsert(old(quotes.records), OrcamentoId, TouchOrcamento, ChangeStatus(found.value, novo, motivo, now), now)
    {
      var found := quotes.GetById(id);
      if found.Some? {
        quotes.Save(ChangeStatus(found.value, novo, motivo, now), now);
      }
    }
  }
}
