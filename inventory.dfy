/**
 * Stock adjustment driven by quotes. Approving a quote walks the approved
 * lines and, for each line, the bill of materials of its product, writing
 * `max(0, stock - perUnit * units)` into each material found; deleting an
 * in-progress quote walks its lines the same way and writes
 * `stock + units * perUnit`, without a clamp. Both walks are flattened here
 * into a sequence of steps applied one after the other, so that each step
 * reads the stock the previous one wrote.
 */
module Inventory {
  import opened Wrappers
  import opened Types
  import opened Storage

  /** One stock write: the material key and the amount to move. */
  datatype Step = Step(itemId: string, amount: real)

  /** A product and how many of its units to consume or give back. */
  datatype Demand = Demand(produtoId: string, units: real)

  /** `produtos.find(p => p.id === id)`. */
  function FindProduto(ps: seq<Produto>, id: string): Option<Produto> {
    Lookup(ps, ProdutoId, id)
  }

  /** `Math.max(0, x)`. */
  function Max0(x: real): real {
    if x < 0.0 then 0.0 else x
  }

  /** The steps of one bill of materials for `units` units of the product, in entry order. */
  function EntrySteps(comp: seq<ItemComposicao>, units: real): (r: seq<Step>)
    ensures |r| == |comp|
    ensures forall j :: 0 <= j < |comp| ==> r[j] == Step(comp[j].itemId, comp[j].quantidade * units)
  {
    if comp == [] then []
    else EntrySteps(comp[..|comp| - 1], units) + [Step(comp[|comp| - 1].itemId, comp[|comp| - 1].quantidade * units)]
  }

  /** The steps of one demand; a product that cannot be found contributes none. */
  function DemandSteps(ps: seq<Produto>, d: Demand): seq<Step> {
    match FindProduto(ps, d.produtoId)
    case None => []
    case Some(p) => EntrySteps(p.itensComposicao, d.units)
  }

  /** The steps of a list of demands, demand by demand. */
  function Steps(ps: seq<Produto>, ds: seq<Demand>): seq<Step> {
    if ds == [] then []
    else Steps(ps, ds[..|ds| - 1]) + DemandSteps(ps, ds[|ds| - 1])
  }

  /** One approval step: the first material with the key gets `max(0, stock - amount)`; a missing one is skipped. */
  function Consume(ms: seq<Item>, st: Step, now: int): seq<Item> {
    match Lookup(ms, ItemId, st.itemId)
    case None => ms
    case Some(m) => SetStock(ms, st.itemId, Max0(m.estoque - st.amount), now)
  }

  /** The step on a material that is found: its stock becomes the clamped difference. */
  lemma ConsumeFound(ms: seq<Item>, st: Step, now: int, m: Item)
    requires Lookup(ms, ItemId, st.itemId) == Some(m)
    ensures Consume(ms, st, now) == SetStock(ms, m.id, Max0(m.estoque - st.amount), now)
  {
    assert m.id == st.itemId;
  }

  /** One reversal step: the first material with the key gets `stock + amount`; a missing one is skipped. */
  function Restock(ms: seq<Item>, st: Step, now: int): seq<Item> {
    match Lookup(ms, ItemId, st.itemId)
    case None => ms
    case Some(m) => SetStock(ms, st.itemId, m.estoque + st.amount, now)
  }

  function ConsumeAll(ms: seq<Item>, steps: seq<Step>, now: int): seq<Item> {
    if steps == [] then ms
    else Consume(ConsumeAll(ms, steps[..|steps| - 1], now), steps[|steps| - 1], now)
  }

  /** The reversal step on a material that is found: its stock grows by the amount. */
  lemma RestockFound(ms: seq<Item>, st: Step, now: int, m: Item)
    requires Lookup(ms, ItemId, st.itemId) == Some(m)
    ensures Restock(ms, st, now) == SetStock(ms, m.id, m.estoque + st.amount, now)
  {
    assert m.id == st.itemId;
  }

  function RestockAll(ms: seq<Item>, steps: seq<Step>, now: int): seq<Item> {
    if steps == [] then ms
    else Restock(RestockAll(ms, steps[..|steps| - 1], now), steps[|steps| - 1], now)
  }

  /** Extending the steps by one applies one more approval step. */
  lemma ConsumeAllSnoc(ms: seq<Item>, steps: seq<Step>, st: Step, now: int)
    ensures ConsumeAll(ms, steps + [st], now) == Consume(ConsumeAll(ms, steps, now), st, now)
  {
    assert (steps + [st])[..|steps|] == steps;
  }

  /** Extending the steps by one applies one more reversal step. */
  lemma RestockAllSnoc(ms: seq<Item>, steps: seq<Step>, st: Step, now: int)
    ensures RestockAll(ms, steps + [st], now) == Restock(RestockAll(ms, steps, now), st, now)
  {
    assert (steps + [st])[..|steps|] == steps;
  }

  /** The steps of a bill-of-materials prefix one entry longer. */
  lemma EntryStepsSnoc(comp: seq<ItemComposicao>, j: nat, units: real)
    requires j < |comp|
    ensures EntrySteps(comp[..j + 1], units) == EntrySteps(comp[..j], units) + [Step(comp[j].itemId, comp[j].quantidade * units)]
  {
    var lhs := EntrySteps(comp[..j + 1], units);
    var rhs := EntrySteps(comp[..j], units) + [Step(comp[j].itemId, comp[j].quantidade * units)];
    assert |lhs| == |rhs|;
    forall k | 0 <= k < |lhs|
      ensures lhs[k] == rhs[k]
    {
      if k < j {
        assert comp[..j + 1][k] == comp[..j][k];
      }
    }
  }

  /** The steps of a demand prefix one demand longer. */
  lemma StepsSnoc(ps: seq<Produto>, ds: seq<Demand>, i: nat)
    requires i < |ds|
    ensures Steps(ps, ds[..i + 1]) == Steps(ps, ds[..i]) + DemandSteps(ps, ds[i])
  {
    assert ds[..i + 1][..i] == ds[..i];
  }

  /** A demand whose product is found adds that product's steps. */
  lemma StepsFound(ps: seq<Produto>, ds: seq<Demand>, i: nat, p: Produto)
    requires i < |ds| && FindProduto(ps, ds[i].produtoId) == Some(p)
    ensures Steps(ps, ds[..i + 1]) == Steps(ps, ds[..i]) + EntrySteps(p.itensComposicao, ds[i].units)
  {
    StepsSnoc(ps, ds, i);
  }

  /** A demand whose product cannot be found adds no step. */
  lemma StepsSkip(ps: seq<Produto>, ds: seq<Demand>, i: nat)
    requires i < |ds| && FindProduto(ps, ds[i].produtoId).None?
    ensures Steps(ps, ds[..i + 1]) == Steps(ps, ds[..i])
  {
    StepsSnoc(ps, ds, i);
    assert Steps(ps, ds[..i]) + [] == Steps(ps, ds[..i]);
  }

  /** True when no approval step hits the clamp: every step finds enough stock. */
  ghost predicate NoClamp(ms: seq<Item>, steps: seq<Step>, now: int) {
    steps == [] ||
    (NoClamp(ms, steps[..|steps| - 1], now) &&
     match Lookup(ConsumeAll(ms, steps[..|steps| - 1], now), ItemId, steps[|steps| - 1].itemId)
     case None => true
     case Some(m) => m.estoque - steps[|steps| - 1].amount >= 0.0)
  }

  /** Sum of the amounts of the steps aimed at material key `id`. */
  function AmountFor(steps: seq<Step>, id: string): real {
    if steps == [] then 0.0
    else AmountFor(steps[..|steps| - 1], id) + (if steps[|steps| - 1].itemId == id then steps[|steps| - 1].amount else 0.0)
  }

  /** Whether position `j` is the material that steps keyed `ms[j].id` reach (the first with that key). */
  predicate Reached(ms: seq<Item>, j: nat)
    requires j < |ms|
  {
    FindIndex(ms, ItemId, ms[j].id) == Some(j)
  }

  /** Same materials, in the same order, differing at most in stock and `updatedAt`. */
  predicate SameMaterials(a: seq<Item>, b: seq<Item>) {
    |a| == |b| &&
    forall j :: 0 <= j < |a| ==> b[j] == a[j].(estoque := b[j].estoque, updatedAt := b[j].updatedAt)
  }

  lemma SameMaterialsKeys(a: seq<Item>, b: seq<Item>, id: string)
    requires SameMaterials(a, b)
    ensures FindIndex(a, ItemId, id) == FindIndex(b, ItemId, id)
  {
    FindIndexSameKeys(a, b, ItemId, id);
  }

  /** What one stock write does, position by position. */
  lemma SetStockAt(ms: seq<Item>, id: string, v: real, now: int, j: nat)
    requires j < |ms|
    ensures SetStock(ms, id, v, now)[j] ==
      if FindIndex(ms, ItemId, id) == Some(j) then ms[j].(estoque := v, updatedAt := now) else ms[j]
  {
    SetStockEffect(ms, id, v, now);
  }

  /** One clamped step, position by position. */
  lemma ConsumeAt(ms: seq<Item>, st: Step, now: int, j: nat)
    requires j < |ms|
    ensures |Consume(ms, st, now)| == |ms|
    ensures Consume(ms, st, now)[j] ==
      if FindIndex(ms, ItemId, st.itemId) == Some(j)
      then ms[j].(estoque := Max0(ms[j].estoque - st.amount), updatedAt := now)
      else ms[j]
  {
    match FindIndex(ms, ItemId, st.itemId)
    case None =>
    case Some(k) =>
      SetStockAt(ms, st.itemId, Max0(ms[k].estoque - st.amount), now, j);
  }

  /** One unclamped step, position by position. */
  lemma RestockAt(ms: seq<Item>, st: Step, now: int, j: nat)
    requires j < |ms|
    ensures |Restock(ms, st, now)| == |ms|
    ensures Restock(ms, st, now)[j] ==
      if FindIndex(ms, ItemId, st.itemId) == Some(j)
      then ms[j].(estoque := ms[j].estoque + st.amount, updatedAt := now)
      else ms[j]
  {
    match FindIndex(ms, ItemId, st.itemId)
    case None =>
    case Some(k) =>
      SetStockAt(ms, st.itemId, ms[k].estoque + st.amount, now, j);
  }

  /** Approval only rewrites stock and `updatedAt`; the collection keeps its records and order. */
  lemma {:induction false} ConsumeAllShape(ms: seq<Item>, steps: seq<Step>, now: int)
    ensures SameMaterials(ms, ConsumeAll(ms, steps, now))
  {
    if steps != [] {
      var prev := ConsumeAll(ms, steps[..|steps| - 1], now);
      ConsumeAllShape(ms, steps[..|steps| - 1], now);
      forall j | 0 <= j < |ms|
        ensures ConsumeAll(ms, steps, now)[j] ==
          ms[j].(estoque := ConsumeAll(ms, steps, now)[j].estoque, updatedAt := ConsumeAll(ms, steps, now)[j].updatedAt)
      {
        ConsumeAt(prev, steps[|steps| - 1], now, j);
      }
    }
  }

  /** Reversal only rewrites stock and `updatedAt` as well. */
  lemma {:induction false} RestockAllShape(ms: seq<Item>, steps: seq<Step>, now: int)
    ensures SameMaterials(ms, RestockAll(ms, steps, now))
  {
    if steps != [] {
      var prev := RestockAll(ms, steps[..|steps| - 1], now);
      RestockAllShape(ms, steps[..|steps| - 1], now);
      forall j | 0 <= j < |ms|
        ensures RestockAll(ms, steps, now)[j] ==
          ms[j].(estoque := RestockAll(ms, steps, now)[j].estoque, updatedAt := RestockAll(ms, steps, now)[j].updatedAt)
      {
        RestockAt(prev, steps[|steps| - 1], now, j);
      }
    }
  }

  /**
   * The clamp: after approval every material either is exactly as before
   * or has non-negative stock; a material that no step names is untouched;
   * and the material a step reaches ends with non-negative stock.
   */
  lemma ConsumeAllClamped(ms: seq<Item>, steps: seq<Step>, now: int)
    ensures |ConsumeAll(ms, steps, now)| == |ms|
    ensures forall j :: 0 <= j < |ms| ==>
      ConsumeAll(ms, steps, now)[j] == ms[j] || ConsumeAll(ms, steps, now)[j].estoque >= 0.0
    ensures forall j :: 0 <= j < |ms| && (forall i :: 0 <= i < |steps| ==> steps[i].itemId != ms[j].id) ==>
      ConsumeAll(ms, steps, now)[j] == ms[j]
    ensures forall j, i :: 0 <= j < |ms| && Reached(ms, j) && 0 <= i < |steps| && steps[i].itemId == ms[j].id ==>
      ConsumeAll(ms, steps, now)[j].estoque >= 0.0
  {
    ConsumeAllShape(ms, steps, now);
    ConsumeAllKeepsOrClamps(ms, steps, now);
    ConsumeAllUnnamed(ms, steps, now);
    ConsumeAllReachedClamped(ms, steps, now);
  }

  /** Every material is either as before or has non-negative stock. */
  lemma {:induction false} ConsumeAllKeepsOrClamps(ms: seq<Item>, steps: seq<Step>, now: int)
    ensures |ConsumeAll(ms, steps, now)| == |ms|
    ensures forall j :: 0 <= j < |ms| ==>
      ConsumeAll(ms, steps, now)[j] == ms[j] || ConsumeAll(ms, steps, now)[j].estoque >= 0.0
  {
    if steps != [] {
      var prev := ConsumeAll(ms, steps[..|steps| - 1], now);
      ConsumeAllKeepsOrClamps(ms, steps[..|steps| - 1], now);
      forall j | 0 <= j < |ms|
        ensures ConsumeAll(ms, steps, now)[j] == ms[j] || ConsumeAll(ms, steps, now)[j].estoque >= 0.0
      {
        ConsumeAt(prev, steps[|steps| - 1], now, j);
      }
    }
  }

  /** A material that no step names is untouched. */
  lemma {:induction false} ConsumeAllUnnamed(ms: seq<Item>, steps: seq<Step>, now: int)
    ensures |ConsumeAll(ms, steps, now)| == |ms|
    ensures forall j :: 0 <= j < |ms| && (forall i :: 0 <= i < |steps| ==> steps[i].itemId != ms[j].id) ==>
      ConsumeAll(ms, steps, now)[j] == ms[j]
  {
    ConsumeAllShape(ms, steps, now);
    if steps != [] {
      var init := steps[..|steps| - 1];
      var last := steps[|steps| - 1];
      var prev := ConsumeAll(ms, init, now);
      ConsumeAllUnnamed(ms, init, now);
      forall j | 0 <= j < |ms| && (forall i :: 0 <= i < |steps| ==> steps[i].itemId != ms[j].id)
        ensures ConsumeAll(ms, steps, now)[j] == ms[j]
      {
        assert forall i :: 0 <= i < |init| ==> init[i] == steps[i];
        assert prev[j] == ms[j];
        ConsumeAt(prev, last, now, j);
      }
    }
  }

  /** The material a step reaches ends with non-negative stock. */
  lemma {:induction false} ConsumeAllReachedClamped(ms: seq<Item>, steps: seq<Step>, now: int)
    ensures |ConsumeAll(ms, steps, now)| == |ms|
    ensures forall j, i :: 0 <= j < |ms| && Reached(ms, j) && 0 <= i < |steps| && steps[i].itemId == ms[j].id ==>
      ConsumeAll(ms, steps, now)[j].estoque >= 0.0
  {
    ConsumeAllShape(ms, steps, now);
    if steps != [] {
      var init := steps[..|steps| - 1];
      var last := steps[|steps| - 1];
      var prev := ConsumeAll(ms, init, now);
      ConsumeAllReachedClamped(ms, init, now);
      ConsumeAllShape(ms, init, now);
      SameMaterialsKeys(ms, prev, last.itemId);
      forall j, i | 0 <= j < |ms| && Reached(ms, j) && 0 <= i < |steps| && steps[i].itemId == ms[j].id
        ensures ConsumeAll(ms, steps, now)[j].estoque >= 0.0
      {
        ConsumeAt(prev, last, now, j);
        if last.itemId == ms[j].id {
          assert FindIndex(prev, ItemId, last.itemId) == Some(j);
        } else {
          assert i < |init| && init[i] == steps[i];
        }
      }
    }
  }

  /** Reversal in closed form: the reached material gains every amount aimed at its key. */
  lemma {:induction false} RestockAllStock(ms: seq<Item>, steps: seq<Step>, now: int)
    ensures |RestockAll(ms, steps, now)| == |ms|
    ensures forall j :: 0 <= j < |ms| ==>
      RestockAll(ms, steps, now)[j].estoque == ms[j].estoque + (if Reached(ms, j) then AmountFor(steps, ms[j].id) else 0.0)
  {
    RestockAllShape(ms, steps, now);
    if steps != [] {
      var init := steps[..|steps| - 1];
      var last := steps[|steps| - 1];
      var prev := RestockAll(ms, init, now);
      RestockAllStock(ms, init, now);
      RestockAllShape(ms, init, now);
      SameMaterialsKeys(ms, prev, last.itemId);
      forall j | 0 <= j < |ms|
        ensures RestockAll(ms, steps, now)[j].estoque ==
          ms[j].estoque + (if Reached(ms, j) then AmountFor(steps, ms[j].id) else 0.0)
      {
        RestockAt(prev, last, now, j);
        if FindIndex(ms, ItemId, last.itemId) == Some(j) {
          assert last.itemId == ms[j].id;
        }
      }
    }
  }

  /** Approval in closed form, when no step hits the clamp: the reached material loses every amount aimed at it. */
  lemma {:induction false} ConsumeAllStock(ms: seq<Item>, steps: seq<Step>, now: int)
    requires NoClamp(ms, steps, now)
    ensures |ConsumeAll(ms, steps, now)| == |ms|
    ensures forall j :: 0 <= j < |ms| ==>
      ConsumeAll(ms, steps, now)[j].estoque == ms[j].estoque - (if Reached(ms, j) then AmountFor(steps, ms[j].id) else 0.0)
  {
    ConsumeAllShape(ms, steps, now);
    if steps != [] {
      var init := steps[..|steps| - 1];
      var last := steps[|steps| - 1];
      var prev := ConsumeAll(ms, init, now);
      ConsumeAllStock(ms, init, now);
      ConsumeAllShape(ms, init, now);
      SameMaterialsKeys(ms, prev, last.itemId);
      forall j | 0 <= j < |ms|
        ensures ConsumeAll(ms, steps, now)[j].estoque ==
          ms[j].estoque - (if Reached(ms, j) then AmountFor(steps, ms[j].id) else 0.0)
      {
        ConsumeAt(prev, last, now, j);
        if FindIndex(ms, ItemId, last.itemId) == Some(j) {
          assert last.itemId == ms[j].id;
          assert Lookup(prev, ItemId, last.itemId) == Some(prev[j]);
        }
      }
    }
  }

  /**
   * If approval never hit the clamp, giving the same steps back restores
   * every material's stock exactly (`updatedAt` aside).
   */
  lemma RestockUndoesConsume(ms: seq<Item>, steps: seq<Step>, t1: int, t2: int)
    requires NoClamp(ms, steps, t1)
    ensures |RestockAll(ConsumeAll(ms, steps, t1), steps, t2)| == |ms|
    ensures forall j :: 0 <= j < |ms| ==> RestockAll(ConsumeAll(ms, steps, t1), steps, t2)[j].estoque == ms[j].estoque
  {
    var after := ConsumeAll(ms, steps, t1);
    ConsumeAllStock(ms, steps, t1);
    ConsumeAllShape(ms, steps, t1);
    RestockAllStock(after, steps, t2);
    forall j | 0 <= j < |ms| ensures Reached(after, j) == Reached(ms, j) {
      SameMaterialsKeys(ms, after, ms[j].id);
    }
  }
}
