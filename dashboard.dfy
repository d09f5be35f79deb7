/**
 * The dashboard's figures (`calculateMetrics`): revenue by status, the
 * open-quote count, the five best-selling products, the low-stock list,
 * the sales of the last thirty days, and the material cost and profit of
 * what was sold. Timestamps are whole days.
 */
module Dashboard {
  import opened Wrappers
  import opened Types
  import opened Storage
  import opened Lists
  import opened Products
  import opened Materials
  import opened Quotes

  predicate IsPago(q: Orcamento) { q.status == Pago }
  predicate IsEmAndamento(q: Orcamento) { q.status == EmAndamento }
  predicate IsEmOrcamento(q: Orcamento) { q.status == EmOrcamento }

  /** A sale: a quote that is paid or in progress. */
  predicate IsSale(q: Orcamento) { q.status == Pago || q.status == EmAndamento }

  /** The `reduce` of `valorTotal` over a list of quotes. */
  function SumValor(qs: seq<Orcamento>): real {
    if qs == [] then 0.0 else SumValor(qs[..|qs| - 1]) + qs[|qs| - 1].valorTotal
  }

  lemma {:induction false} SumValorAppend(a: seq<Orcamento>, b: seq<Orcamento>)
    decreases |b|
    ensures SumValor(a + b) == SumValor(a) + SumValor(b)
  {
    if b == [] {
      assert a + b == a;
    } else {
      SumValorAppend(a, b[..|b| - 1]);
      assert (a + b)[..|a + b| - 1] == a + b[..|b| - 1];
    }
  }

  /** `totalFaturado`: the value of the paid quotes. */
  function TotalFaturado(qs: seq<Orcamento>): real {
    SumValor(Filter(qs, IsPago))
  }

  /** `aFaturar`: the value of the quotes in progress. */
  function AFaturar(qs: seq<Orcamento>): real {
    SumValor(Filter(qs, IsEmAndamento))
  }

  /** `orcamentosEmAberto`: how many quotes still await approval. */
  function EmAberto(qs: seq<Orcamento>): nat {
    |Filter(qs, IsEmOrcamento)|
  }

  /** The lines of every sale, quote after quote, each quote's lines in order. */
  function SoldLines(qs: seq<Orcamento>): seq<OrcamentoItem> {
    if qs == [] then []
    else
      var q := qs[|qs| - 1];
      SoldLines(qs[..|qs| - 1]) + (if IsSale(q) then q.itens else [])
  }

  lemma {:induction false} SoldLinesAppend(a: seq<Orcamento>, b: seq<Orcamento>)
    decreases |b|
    ensures SoldLines(a + b) == SoldLines(a) + SoldLines(b)
  {
    if b == [] {
      assert a + b == a;
    } else {
      SoldLinesAppend(a, b[..|b| - 1]);
      assert (a + b)[..|a + b| - 1] == a + b[..|b| - 1];
    }
  }

  // ---------------------------------------------------------------------
  // Best sellers: the per-product tally (`produtoVendas`, a Map kept in
  // first-insertion order), joined with the products and ranked.
  // ---------------------------------------------------------------------

  /** One entry of the tally: units sold and value sold of one product. */
  datatype Sale = Sale(produtoId: string, quantidade: real, valor: real)

  function SaleId(s: Sale): string { s.produtoId }
  function LineProduto(x: OrcamentoItem): string { x.produtoId }

  /** `produtoVendas.set`: add one line to its product's entry, or open an entry at the end. */
  function Record(t: seq<Sale>, x: OrcamentoItem): seq<Sale> {
    match FindIndex(t, SaleId, x.produtoId)
    case None => t + [Sale(x.produtoId, x.quantidade, x.valorTotal)]
    case Some(k) => t[k := Sale(x.produtoId, t[k].quantidade + x.quantidade, t[k].valor + x.valorTotal)]
  }

  /** Recording a list of lines, one after the other, into a tally. */
  function RecordAll(t: seq<Sale>, lines: seq<OrcamentoItem>): seq<Sale> {
    if lines == [] then t else Record(RecordAll(t, lines[..|lines| - 1]), lines[|lines| - 1])
  }

  lemma {:induction false} RecordAllAppend(t: seq<Sale>, a: seq<OrcamentoItem>, b: seq<OrcamentoItem>)
    decreases |b|
    ensures RecordAll(t, a + b) == RecordAll(RecordAll(t, a), b)
  {
    if b == [] {
      assert a + b == a;
    } else {
      RecordAllAppend(t, a, b[..|b| - 1]);
      assert (a + b)[..|a + b| - 1] == a + b[..|b| - 1];
    }
  }

  /** The tally of a list of lines, from an empty Map. */
  function TallyAll(lines: seq<OrcamentoItem>): seq<Sale> {
    RecordAll([], lines)
  }

  /** Units of product `p` over a list of lines. */
  function QtyOf(lines: seq<OrcamentoItem>, p: string): real {
    if lines == [] then 0.0
    else
      var x := lines[|lines| - 1];
      QtyOf(lines[..|lines| - 1], p) + (if x.produtoId == p then x.quantidade else 0.0)
  }

  /** Value of product `p` over a list of lines. */
  function ValOf(lines: seq<OrcamentoItem>, p: string): real {
    if lines == [] then 0.0
    else
      var x := lines[|lines| - 1];
      ValOf(lines[..|lines| - 1], p) + (if x.produtoId == p then x.valorTotal else 0.0)
  }

  /** Some line is for product `p`. */
  predicate Sold(lines: seq<OrcamentoItem>, p: string) {
    FindIndex(lines, LineProduto, p).Some?
  }

  /** No product has two entries. */
  predicate DistinctKeys(t: seq<Sale>) {
    forall i, j :: 0 <= i < j < |t| ==> t[i].produtoId != t[j].produtoId
  }

  /** Each entry holds its product's units and value over `lines`, and some line is for it. */
  predicate SumsHold(t: seq<Sale>, lines: seq<OrcamentoItem>) {
    forall k :: 0 <= k < |t| ==>
      t[k] == Sale(t[k].produtoId, QtyOf(lines, t[k].produtoId), ValOf(lines, t[k].produtoId)) &&
      Sold(lines, t[k].produtoId)
  }

  /** Every product some line is for has an entry. */
  ghost predicate Covers(t: seq<Sale>, lines: seq<OrcamentoItem>) {
    forall p :: Sold(lines, p) ==> FindIndex(t, SaleId, p).Some?
  }

  /** `t` is the tally of `lines`. */
  ghost predicate Tallies(t: seq<Sale>, lines: seq<OrcamentoItem>) {
    DistinctKeys(t) && SumsHold(t, lines) && Covers(t, lines)
  }

  /** What one more line does to the per-product sums and to "some line is for p". */
  lemma LineAdded(lines: seq<OrcamentoItem>, x: OrcamentoItem, p: string)
    ensures QtyOf(lines + [x], p) == QtyOf(lines, p) + (if x.produtoId == p then x.quantidade else 0.0)
    ensures ValOf(lines + [x], p) == ValOf(lines, p) + (if x.produtoId == p then x.valorTotal else 0.0)
    ensures Sold(lines + [x], p) <==> Sold(lines, p) || x.produtoId == p
  {
    var lines' := lines + [x];
    assert lines'[..|lines'| - 1] == lines;
    if Sold(lines, p) {
      var i := FindIndex(lines, LineProduto, p).value;
      assert lines'[i] == lines[i];
    } else if x.produtoId == p {
      assert lines'[|lines|] == x;
    } else {
      assert forall j :: 0 <= j < |lines'| ==> lines'[j].produtoId != p by {
        forall j | 0 <= j < |lines'| ensures lines'[j].produtoId != p {
          if j < |lines| { assert lines'[j] == lines[j]; }
        }
      }
    }
  }

  /** A product that no line is for has sold nothing. */
  lemma {:induction false} QtyNone(lines: seq<OrcamentoItem>, p: string)
    requires !Sold(lines, p)
    ensures QtyOf(lines, p) == 0.0 && ValOf(lines, p) == 0.0
  {
    if lines != [] {
      var init := lines[..|lines| - 1];
      assert init + [lines[|lines| - 1]] == lines;
      LineAdded(init, lines[|lines| - 1], p);
      QtyNone(init, p);
    }
  }

  lemma RecordKeepsDistinct(t: seq<Sale>, x: OrcamentoItem)
    requires DistinctKeys(t)
    ensures DistinctKeys(Record(t, x))
  {
    var t' := Record(t, x);
    if FindIndex(t, SaleId, x.produtoId).Some? {
      assert forall k :: 0 <= k < |t| ==> t'[k].produtoId == t[k].produtoId;
    } else {
      assert forall k :: 0 <= k < |t| ==> t'[k] == t[k];
    }
  }

  lemma RecordKeepsSums(t: seq<Sale>, lines: seq<OrcamentoItem>, x: OrcamentoItem)
    requires DistinctKeys(t) && SumsHold(t, lines)
    requires FindIndex(t, SaleId, x.produtoId).None? ==> !Sold(lines, x.produtoId)
    ensures SumsHold(Record(t, x), lines + [x])
  {
    var lines' := lines + [x];
    var t' := Record(t, x);
    forall k | 0 <= k < |t'|
      ensures t'[k] == Sale(t'[k].produtoId, QtyOf(lines', t'[k].produtoId), ValOf(lines', t'[k].produtoId))
      ensures Sold(lines', t'[k].produtoId)
    {
      LineAdded(lines, x, t'[k].produtoId);
      if k == |t| {
        QtyNone(lines, x.produtoId);
      }
    }
  }

  lemma RecordKeepsCovers(t: seq<Sale>, lines: seq<OrcamentoItem>, x: OrcamentoItem)
    requires Covers(t, lines)
    ensures Covers(Record(t, x), lines + [x])
  {
    var lines' := lines + [x];
    var t' := Record(t, x);
    forall p | Sold(lines', p) ensures FindIndex(t', SaleId, p).Some? {
      LineAdded(lines, x, p);
      if FindIndex(t, SaleId, x.produtoId).Some? {
        FindIndexSameKeys(t', t, SaleId, p);
      } else if Sold(lines, p) {
        var k := FindIndex(t, SaleId, p).value;
        assert t'[k] == t[k];
      } else {
        assert t'[|t|].produtoId == p;
      }
    }
  }

  lemma RecordTallies(t: seq<Sale>, lines: seq<OrcamentoItem>, x: OrcamentoItem)
    requires Tallies(t, lines)
    ensures Tallies(Record(t, x), lines + [x])
  {
    RecordKeepsDistinct(t, x);
    RecordKeepsSums(t, lines, x);
    RecordKeepsCovers(t, lines, x);
  }

  lemma {:induction false} TallyAllTallies(lines: seq<OrcamentoItem>)
    ensures Tallies(TallyAll(lines), lines)
  {
    if lines != [] {
      var init := lines[..|lines| - 1];
      TallyAllTallies(init);
      RecordTallies(TallyAll(init), init, lines[|lines| - 1]);
      assert init + [lines[|lines| - 1]] == lines;
    }
  }

  /**
   * What the Map holds after the loop: for a product that appears in some
   * line, its total units and total value; for any other, nothing. No
   * product has two entries.
   */
  lemma TallyLookup(lines: seq<OrcamentoItem>, p: string)
    ensures Lookup(TallyAll(lines), SaleId, p) ==
      if Sold(lines, p) then Some(Sale(p, QtyOf(lines, p), ValOf(lines, p))) else None
    ensures forall i, j :: 0 <= i < j < |TallyAll(lines)| ==> TallyAll(lines)[i].produtoId != TallyAll(lines)[j].produtoId
  {
    TallyAllTallies(lines);
    var t := TallyAll(lines);
  }

  /** Recording the lines of one quote into the Map, line by line. */
  method RecordLines(t0: seq<Sale>, items: seq<OrcamentoItem>) returns (t: seq<Sale>)
    ensures t == RecordAll(t0, items)
  {
    t := t0;
    var j := 0;
    while j < |items|
      invariant 0 <= j <= |items|
      invariant t == RecordAll(t0, items[..j])
    {
      assert items[..j + 1][..j] == items[..j];
      t := Record(t, items[j]);
      j := j + 1;
    }
    assert items[..j] == items;
  }

  /** The loop that fills `produtoVendas` from the sales. */
  method TallySales(qs: seq<Orcamento>) returns (t: seq<Sale>)
    ensures t == TallyAll(SoldLines(qs))
  {
    t := [];
    var i := 0;
    while i < |qs|
      invariant 0 <= i <= |qs|
      invariant t == TallyAll(SoldLines(qs[..i]))
    {
      assert qs[..i + 1][..i] == qs[..i];
      var lines := if IsSale(qs[i]) then qs[i].itens else [];
      RecordAllAppend([], SoldLines(qs[..i]), lines);
      t := RecordLines(t, lines);
      i := i + 1;
    }
    assert qs[..i] == qs;
  }

  /** One row of `produtosMaisVendidos`. */
  datatype BestSeller = BestSeller(produto: Produto, quantidadeVendida: real, totalFaturado: real)

  /** The Map's entries paired with their product; an entry whose product is gone is dropped. */
  function JoinProducts(t: seq<Sale>, ps: seq<Produto>): (r: seq<BestSeller>)
    ensures forall k :: 0 <= k < |r| ==>
      Lookup(ps, ProdutoId, r[k].produto.id) == Some(r[k].produto) &&
      Sale(r[k].produto.id, r[k].quantidadeVendida, r[k].totalFaturado) in t
    ensures forall j :: 0 <= j < |t| && Lookup(ps, ProdutoId, t[j].produtoId).Some? ==>
      BestSeller(Lookup(ps, ProdutoId, t[j].produtoId).value, t[j].quantidade, t[j].valor) in r
  {
    if t == [] then []
    else
      var init := t[..|t| - 1];
      var s := t[|t| - 1];
      var rest := JoinProducts(init, ps);
      assert forall j :: 0 <= j < |init| ==> init[j] == t[j];
      match Lookup(ps, ProdutoId, s.produtoId)
      case None => rest
      case Some(p) => rest + [BestSeller(p, s.quantidade, s.valor)]
  }

  /** The sort key of the ranking: more units first. */
  function ByUnitsSold(b: BestSeller): real { -b.quantidadeVendida }

  function Min(a: int, b: int): int { if a <= b then a else b }

  /** `produtosMaisVendidos`: the joined entries, most units first, at most five. */
  function BestSellers(qs: seq<Orcamento>, ps: seq<Produto>): seq<BestSeller> {
    TopFive(TallyAll(SoldLines(qs)), ps)
  }

  /** The tallied sales joined with their products, most units first, cut after five rows. */
  function TopFive(tally: seq<Sale>, ps: seq<Produto>): (r: seq<BestSeller>)
    ensures |r| <= 5
  {
    var ranked := SortBy(JoinProducts(tally, ps), ByUnitsSold);
    ranked[..Min(5, |ranked|)]
  }

  /**
   * Any list ranked by units and cut after `n` rows: `n` rows or all of
   * them, most units first, drawn from the list, and nothing left out
   * outsold any row kept.
   */
  lemma RankedPrefix(joined: seq<BestSeller>, n: nat)
    ensures var ranked := SortBy(joined, ByUnitsSold);
      var r := ranked[..Min(n, |ranked|)];
      |r| == Min(n, |joined|) &&
      (forall i, j :: 0 <= i < j < |r| ==> r[i].quantidadeVendida >= r[j].quantidadeVendida) &&
      multiset(r) <= multiset(joined) &&
      (forall x: BestSeller :: x in multiset(joined) - multiset(r) ==>
        forall i :: 0 <= i < |r| ==> x.quantidadeVendida <= r[i].quantidadeVendida)
  {
    var ranked := SortBy(joined, ByUnitsSold);
    var m := Min(n, |ranked|);
    PrefixMultiset(ranked, m);
    PrefixOrdered(ranked, m);
    LeftOutBelow(ranked, m);
  }

  /** A prefix takes its rows from the list, and what it leaves out is the rest of the list. */
  lemma PrefixMultiset<T>(s: seq<T>, m: nat)
    requires m <= |s|
    ensures multiset(s[..m]) <= multiset(s)
    ensures multiset(s) - multiset(s[..m]) == multiset(s[m..])
  {
    assert s == s[..m] + s[m..];
  }

  /** The first `m` rows of a ranked list are in non-increasing order of units. */
  lemma PrefixOrdered(ranked: seq<BestSeller>, m: nat)
    requires m <= |ranked| && SortedBy(ranked, ByUnitsSold)
    ensures forall i, j :: 0 <= i < j < m ==> ranked[..m][i].quantidadeVendida >= ranked[..m][j].quantidadeVendida
  {
    forall i, j | 0 <= i < j < m ensures ranked[i].quantidadeVendida >= ranked[j].quantidadeVendida {
      assert ByUnitsSold(ranked[i]) <= ByUnitsSold(ranked[j]);
    }
  }

  /** No row after position `m` of a ranked list sold more than a row before it. */
  lemma LeftOutBelow(ranked: seq<BestSeller>, m: nat)
    requires m <= |ranked| && SortedBy(ranked, ByUnitsSold)
    ensures forall x: BestSeller :: x in multiset(ranked[m..]) ==>
      forall i :: 0 <= i < m ==> x.quantidadeVendida <= ranked[..m][i].quantidadeVendida
  {
    forall x: BestSeller | x in multiset(ranked[m..])
      ensures forall i :: 0 <= i < m ==> x.quantidadeVendida <= ranked[..m][i].quantidadeVendida
    {
      var j :| 0 <= j < |ranked| - m && ranked[m..][j] == x;
      assert ranked[m + j] == x;
      forall i | 0 <= i < m ensures x.quantidadeVendida <= ranked[i].quantidadeVendida {
        assert ByUnitsSold(ranked[i]) <= ByUnitsSold(ranked[m + j]);
      }
    }
  }

  /**
   * The ranking: at most five rows (fewer only when fewer products sold),
   * most units first, and no product left out of it having sold more
   * units than any product in it.
   */
  lemma BestSellersRanked(qs: seq<Orcamento>, ps: seq<Produto>)
    ensures var joined := JoinProducts(TallyAll(SoldLines(qs)), ps);
      var r := BestSellers(qs, ps);
      |r| == Min(5, |joined|) &&
      (forall i, j :: 0 <= i < j < |r| ==> r[i].quantidadeVendida >= r[j].quantidadeVendida) &&
      multiset(r) <= multiset(joined) &&
      (forall x: BestSeller :: x in multiset(joined) - multiset(r) ==>
        forall i :: 0 <= i < |r| ==> x.quantidadeVendida <= r[i].quantidadeVendida)
  {
    RankedPrefix(JoinProducts(TallyAll(SoldLines(qs)), ps), 5);
  }

  /**
   * Each row is a product of the catalogue with its units and its value
   * summed over every line of every sale.
   */
  lemma BestSellerFigures(qs: seq<Orcamento>, ps: seq<Produto>, k: nat)
    requires k < |BestSellers(qs, ps)|
    ensures var b := BestSellers(qs, ps)[k];
      Lookup(ps, ProdutoId, b.produto.id) == Some(b.produto) &&
      b.quantidadeVendida == QtyOf(SoldLines(qs), b.produto.id) &&
      b.totalFaturado == ValOf(SoldLines(qs), b.produto.id)
  {
    var joined := JoinProducts(TallyAll(SoldLines(qs)), ps);
    var r := BestSellers(qs, ps);
    RankedPrefix(joined, 5);
    assert r[k] in multiset(r);
    assert r[k] in multiset(joined);
    JoinedFigures(SoldLines(qs), ps, r[k]);
  }

  /** A joined row carries its product's sums over the lines tallied. */
  lemma JoinedFigures(lines: seq<OrcamentoItem>, ps: seq<Produto>, b: BestSeller)
    requires b in JoinProducts(TallyAll(lines), ps)
    ensures Lookup(ps, ProdutoId, b.produto.id) == Some(b.produto)
    ensures b.quantidadeVendida == QtyOf(lines, b.produto.id) && b.totalFaturado == ValOf(lines, b.produto.id)
  {
    var t := TallyAll(lines);
    var joined := JoinProducts(t, ps);
    var j :| 0 <= j < |joined| && joined[j] == b;
    TallyAllTallies(lines);
    var m :| 0 <= m < |t| && t[m] == Sale(b.produto.id, b.quantidadeVendida, b.totalFaturado);
  }

  // ---------------------------------------------------------------------
  // Low stock and recent sales.
  // ---------------------------------------------------------------------

  /** One row of `itensEstoqueBaixo`. */
  datatype Alert = Alert(item: Item, percentualEstoque: real)

  /** Stock as a percentage of the minimum; 0 when there is no positive minimum. */
  function Percentual(m: Item): real {
    if m.estoqueMinimo > 0.0 then m.estoque / m.estoqueMinimo * 100.0 else 0.0
  }

  function ToAlerts(ms: seq<Item>): (r: seq<Alert>)
    ensures |r| == |ms| && forall k :: 0 <= k < |ms| ==> r[k] == Alert(ms[k], Percentual(ms[k]))
  {
    seq(|ms|, k requires 0 <= k < |ms| => Alert(ms[k], Percentual(ms[k])))
  }

  function ByPercentual(a: Alert): real { a.percentualEstoque }

  /** `itensEstoqueBaixo`: the low materials with their percentage, lowest first. */
  function LowStock(ms: seq<Item>): seq<Alert> {
    SortBy(ToAlerts(Alerts(ms)), ByPercentual)
  }

  /** The low-stock list is ordered lowest percentage first. */
  lemma LowStockOrdered(ms: seq<Item>)
    ensures var r := LowStock(ms);
      forall i, j :: 0 <= i < j < |r| ==> r[i].percentualEstoque <= r[j].percentualEstoque
  {
    var r := LowStock(ms);
    forall i, j | 0 <= i < j < |r| ensures r[i].percentualEstoque <= r[j].percentualEstoque {
      assert ByPercentual(r[i]) <= ByPercentual(r[j]);
    }
  }

  /** Every row is a stored material at or below its positive minimum, at no more than 100%. */
  lemma LowStockRows(ms: seq<Item>, k: nat)
    requires k < |LowStock(ms)|
    ensures var a := LowStock(ms)[k];
      a.item in ms && IsLow(a.item) &&
      a.percentualEstoque == Percentual(a.item) && a.percentualEstoque <= 100.0
  {
    var low := ToAlerts(Alerts(ms));
    var a := LowStock(ms)[k];
    assert a in multiset(low);
    var i :| 0 <= i < |low| && low[i] == a;
    LowAtMostHundred(Alerts(ms)[i]);
  }

  /** A material at or below its positive minimum holds at most 100% of it. */
  lemma LowAtMostHundred(m: Item)
    requires IsLow(m)
    ensures Percentual(m) <= 100.0
  {
    assert m.estoque / m.estoqueMinimo <= 1.0;
  }

  /** Every stored material at or below its positive minimum is listed, with its percentage. */
  lemma LowStockComplete(ms: seq<Item>, j: nat)
    requires j < |ms| && IsLow(ms[j])
    ensures Alert(ms[j], Percentual(ms[j])) in LowStock(ms)
  {
    var low := ToAlerts(Alerts(ms));
    assert GetStatusEstoque(ms[j]) == Baixo;
    var i :| 0 <= i < |Alerts(ms)| && Alerts(ms)[i] == ms[j];
    assert low[i] in multiset(LowStock(ms));
  }

  /** One row of `vendaRecente`: the day of the sale and its value. */
  datatype Venda = Venda(data: int, valor: real)

  /** A sale created within the thirty days before `today`. */
  function RecentTest(today: int): Orcamento -> bool {
    q => IsSale(q) && q.createdAt > today - 30
  }

  function ToVendas(qs: seq<Orcamento>): (r: seq<Venda>)
    ensures |r| == |qs| && forall k :: 0 <= k < |qs| ==> r[k] == Venda(qs[k].createdAt, qs[k].valorTotal)
  {
    seq(|qs|, k requires 0 <= k < |qs| => Venda(qs[k].createdAt, qs[k].valorTotal))
  }

  lemma ToVendasAppend(a: seq<Orcamento>, b: seq<Orcamento>)
    ensures ToVendas(a + b) == ToVendas(a) + ToVendas(b)
  {
  }

  function ByDayDesc(v: Venda): real { -(v.data as real) }

  /** `vendaRecente`: the recent sales, newest day first. */
  function VendaRecente(qs: seq<Orcamento>, today: int): seq<Venda> {
    SortBy(ToVendas(Filter(qs, RecentTest(today))), ByDayDesc)
  }

  /**
   * The recent-sales list holds one row per sale of the last thirty days,
   * with its day and value, newest first, and nothing older.
   */
  lemma RecentSalesListed(qs: seq<Orcamento>, today: int)
    ensures var r := VendaRecente(qs, today);
      (forall i, j :: 0 <= i < j < |r| ==> r[i].data >= r[j].data) &&
      (forall k :: 0 <= k < |r| ==> r[k].data > today - 30) &&
      (forall j :: 0 <= j < |qs| && IsSale(qs[j]) && qs[j].createdAt > today - 30 ==>
        Venda(qs[j].createdAt, qs[j].valorTotal) in r)
  {
    var recent := Filter(qs, RecentTest(today));
    var vs := ToVendas(recent);
    var r := VendaRecente(qs, today);
    forall i, j | 0 <= i < j < |r| ensures r[i].data >= r[j].data {
      assert ByDayDesc(r[i]) <= ByDayDesc(r[j]);
    }
    forall k | 0 <= k < |r| ensures r[k].data > today - 30 {
      assert r[k] in multiset(vs);
      var i :| 0 <= i < |vs| && vs[i] == r[k];
      assert RecentTest(today)(recent[i]);
    }
    forall j | 0 <= j < |qs| && IsSale(qs[j]) && qs[j].createdAt > today - 30
      ensures Venda(qs[j].createdAt, qs[j].valorTotal) in r
    {
      assert RecentTest(today)(qs[j]);
      var i :| 0 <= i < |recent| && recent[i] == qs[j];
      assert vs[i] in multiset(r);
    }
  }

  // ---------------------------------------------------------------------
  // Material cost of what was sold, and profit.
  // ---------------------------------------------------------------------

  /**
   * The material cost of one sold line: each bill-of-materials entry's
   * cost times the line's units; 0 for a missing product.
   */
  function LineCost(x: OrcamentoItem, ps: seq<Produto>, ms: seq<Item>): real {
    match Lookup(ps, ProdutoId, x.produtoId)
    case None => 0.0
    case Some(p) => ScaledCost(p.itensComposicao, ms, x.quantidade)
  }

  /** A sold line costs its product's material cost times its units, and nothing when the product is missing. */
  lemma LineCostIsProduct(x: OrcamentoItem, ps: seq<Produto>, ms: seq<Item>)
    ensures Lookup(ps, ProdutoId, x.produtoId).None? ==> LineCost(x, ps, ms) == 0.0
    ensures Lookup(ps, ProdutoId, x.produtoId).Some? ==>
      LineCost(x, ps, ms) == CompositionCost(Lookup(ps, ProdutoId, x.produtoId).value.itensComposicao, ms) * x.quantidade
  {
    if Lookup(ps, ProdutoId, x.produtoId).Some? {
      ScaledCostIsProduct(Lookup(ps, ProdutoId, x.produtoId).value.itensComposicao, ms, x.quantidade);
    }
  }

  function Gastos(lines: seq<OrcamentoItem>, ps: seq<Produto>, ms: seq<Item>): real {
    if lines == [] then 0.0
    else Gastos(lines[..|lines| - 1], ps, ms) + LineCost(lines[|lines| - 1], ps, ms)
  }

  lemma {:induction false} GastosAppend(a: seq<OrcamentoItem>, b: seq<OrcamentoItem>, ps: seq<Produto>, ms: seq<Item>)
    decreases |b|
    ensures Gastos(a + b, ps, ms) == Gastos(a, ps, ms) + Gastos(b, ps, ms)
  {
    if b == [] {
      assert a + b == a;
    } else {
      GastosAppend(a, b[..|b| - 1], ps, ms);
      assert (a + b)[..|a + b| - 1] == a + b[..|b| - 1];
    }
  }

  /** `totalGastos`: the material cost of every line of every sale. */
  function TotalGastos(qs: seq<Orcamento>, ps: seq<Produto>, ms: seq<Item>): real {
    Gastos(SoldLines(qs), ps, ms)
  }

  /** `f` summed over `s`, last element last. */
  function SumOf<T>(s: seq<T>, f: T -> real): real {
    if s == [] then 0.0 else SumOf(s[..|s| - 1], f) + f(s[|s| - 1])
  }

  /** `f` times `units` summed over `s`, one element at a time. */
  function ScaledSumOf<T>(s: seq<T>, f: T -> real, units: real): real {
    if s == [] then 0.0 else ScaledSumOf(s[..|s| - 1], f, units) + f(s[|s| - 1]) * units
  }

  /** Scaling each addend scales the sum. */
  lemma {:induction false} ScaledSumIsProduct<T>(s: seq<T>, f: T -> real, units: real)
    ensures ScaledSumOf(s, f, units) == SumOf(s, f) * units
  {
    if s != [] {
      var init := s[..|s| - 1];
      ScaledSumIsProduct(init, f, units);
      assert (SumOf(init, f) + f(s[|s| - 1])) * units == SumOf(init, f) * units + f(s[|s| - 1]) * units;
    }
  }

  /** An entry's cost against the materials `ms`. */
  function CostOf(ms: seq<Item>): ItemComposicao -> real {
    c => EntryCost(c, ms)
  }

  /** The product page's material cost is the entry costs summed. */
  lemma {:induction false} CompositionCostIsSum(comp: seq<ItemComposicao>, ms: seq<Item>)
    ensures CompositionCost(comp, ms) == SumOf(comp, CostOf(ms))
  {
    if comp != [] {
      CompositionCostIsSum(comp[..|comp| - 1], ms);
    }
  }

  /** The bill-of-materials cost for `units` units, summed entry by entry as the loop adds it. */
  function ScaledCost(comp: seq<ItemComposicao>, ms: seq<Item>, units: real): real {
    ScaledSumOf(comp, CostOf(ms), units)
  }

  /** Summing each entry's cost times the units is the material cost times the units. */
  lemma ScaledCostIsProduct(comp: seq<ItemComposicao>, ms: seq<Item>, units: real)
    ensures ScaledCost(comp, ms, units) == CompositionCost(comp, ms) * units
  {
    ScaledSumIsProduct(comp, CostOf(ms), units);
    CompositionCostIsSum(comp, ms);
  }

  /** One more line adds its product's material cost times its quantity, or nothing for a missing product. */
  lemma LineCostStep(items: seq<OrcamentoItem>, ps: seq<Produto>, ms: seq<Item>, j: nat)
    requires j < |items|
    ensures var p := Lookup(ps, ProdutoId, items[j].produtoId);
      Gastos(items[..j + 1], ps, ms) ==
        Gastos(items[..j], ps, ms) + (if p.Some? then ScaledCost(p.value.itensComposicao, ms, items[j].quantidade) else 0.0)
  {
    assert items[..j + 1][..j] == items[..j];
  }

  /** One more entry adds its cost, as the product page prices it, times the units. */
  lemma EntryCostStep(comp: seq<ItemComposicao>, ms: seq<Item>, j: nat, units: real)
    requires j < |comp|
    ensures ScaledCost(comp[..j + 1], ms, units) == ScaledCost(comp[..j], ms, units) + EntryCost(comp[j], ms) * units
  {
    assert comp[..j + 1][..j] == comp[..j];
  }

  /** The body of the innermost loop: the entry's material cost for `units` units, nothing when the material is missing. */
  method EntryCostFor(c: ItemComposicao, ms: seq<Item>, units: real) returns (cost: real)
    ensures cost == EntryCost(c, ms) * units
  {
    var m := Lookup(ms, ItemId, c.itemId);
    if m.Some? {
      cost := MaterialCost(m.value, c) * units;
    } else {
      cost := 0.0;
    }
  }

  /** The innermost loop: add each bill-of-materials entry's cost for `units` units. */
  method AddEntryCosts(total0: real, comp: seq<ItemComposicao>, ms: seq<Item>, units: real) returns (total: real)
    ensures total == total0 + ScaledCost(comp, ms, units)
  {
    total := total0;
    var j := 0;
    while j < |comp|
      invariant 0 <= j <= |comp|
      invariant total == total0 + ScaledCost(comp[..j], ms, units)
    {
      EntryCostStep(comp, ms, j, units);
      var cost := EntryCostFor(comp[j], ms, units);
      total := total + cost;
      j := j + 1;
    }
    assert comp[..j] == comp;
  }

  /** The middle loop: add the cost of each line of one quote. */
  method AddLineCosts(total0: real, items: seq<OrcamentoItem>, ps: seq<Produto>, ms: seq<Item>) returns (total: real)
    ensures total == total0 + Gastos(items, ps, ms)
  {
    total := total0;
    var j := 0;
    while j < |items|
      invariant 0 <= j <= |items|
      invariant total == total0 + Gastos(items[..j], ps, ms)
    {
      LineCostStep(items, ps, ms, j);
      var p := Lookup(ps, ProdutoId, items[j].produtoId);
      if p.Some? {
        total := AddEntryCosts(total, p.value.itensComposicao, ms, items[j].quantidade);
      }
      j := j + 1;
    }
    assert items[..j] == items;
  }

  /** The loop that accumulates `totalGastos` over the sales. */
  method SumGastos(qs: seq<Orcamento>, ps: seq<Produto>, ms: seq<Item>) returns (total: real)
    ensures total == TotalGastos(qs, ps, ms)
  {
    total := 0.0;
    var i := 0;
    while i < |qs|
      invariant 0 <= i <= |qs|
      invariant total == TotalGastos(qs[..i], ps, ms)
    {
      assert qs[..i + 1][..i] == qs[..i];
      if IsSale(qs[i]) {
        assert SoldLines(qs[..i + 1]) == SoldLines(qs[..i]) + qs[i].itens;
        GastosAppend(SoldLines(qs[..i]), qs[i].itens, ps, ms);
        total := AddLineCosts(total, qs[i].itens, ps, ms);
      } else {
        assert SoldLines(qs[..i + 1]) == SoldLines(qs[..i]) + [];
        assert SoldLines(qs[..i]) + [] == SoldLines(qs[..i]);
      }
      i := i + 1;
    }
    assert qs[..i] == qs;
  }

  // ---------------------------------------------------------------------
  // All figures together.
  // ---------------------------------------------------------------------

  datatype Metrics = Metrics(
    totalFaturado: real,
    aFaturar: real,
    orcamentosEmAberto: nat,
    produtosMaisVendidos: seq<BestSeller>,
    itensEstoqueBaixo: seq<Alert>,
    vendaRecente: seq<Venda>,
    totalGastos: real,
    lucroTotal: real)

  /** The dashboard's figures for the stored quotes, products and materials on day `today`. */
  function MetricsOf(qs: seq<Orcamento>, ps: seq<Produto>, ms: seq<Item>, today: int): Metrics {
    Metrics(
      TotalFaturado(qs), AFaturar(qs), EmAberto(qs),
      BestSellers(qs, ps), LowStock(ms), VendaRecente(qs, today),
      TotalGastos(qs, ps, ms), TotalFaturado(qs) - TotalGastos(qs, ps, ms))
  }

  /** `calculateMetrics`: the Map is filled and the costs summed by loops, the rest by list operations. */
  method CalculateMetrics(qs: seq<Orcamento>, ps: seq<Produto>, ms: seq<Item>, today: int) returns (m: Metrics)
    ensures m == MetricsOf(qs, ps, ms, today)
    ensures m.lucroTotal == m.totalFaturado - m.totalGastos
    ensures |m.produtosMaisVendidos| <= 5
  {
    var totalFaturado := TotalFaturado(qs);
    var tally := TallySales(qs);
    var top := TopFive(tally, ps);
    var gastos := SumGastos(qs, ps, ms);
    m := Metrics(
      totalFaturado, AFaturar(qs), EmAberto(qs),
      top, LowStock(ms), VendaRecente(qs, today),
      gastos, totalFaturado - gastos);
  }

  /** The value of a list with one quote in the middle. */
  lemma SumValorAround(p: seq<Orcamento>, x: Orcamento, q: seq<Orcamento>)
    ensures SumValor(p + [x] + q) == SumValor(p) + x.valorTotal + SumValor(q)
  {
    SumValorAppend(p + [x], q);
    SumValorAppend(p, [x]);
    assert [x][..0] == [];
  }

  /** Paying adds the quote's value to `totalFaturado`. */
  lemma PayingBills(a: seq<Orcamento>, x: Orcamento, paid: Orcamento, b: seq<Orcamento>)
    requires x.status == EmAndamento && paid.status == Pago && paid.valorTotal == x.valorTotal
    ensures TotalFaturado(a + [paid] + b) == TotalFaturado(a + [x] + b) + x.valorTotal
  {
    var pa := Filter(a, IsPago);
    var pb := Filter(b, IsPago);
    FilterDropped(a, x, b, IsPago);
    FilterKept(a, paid, b, IsPago);
    SumValorAround(pa, paid, pb);
    SumValorAppend(pa, pb);
  }

  /** Paying takes the quote's value off `aFaturar`. */
  lemma PayingUnbills(a: seq<Orcamento>, x: Orcamento, paid: Orcamento, b: seq<Orcamento>)
    requires x.status == EmAndamento && paid.status == Pago && paid.valorTotal == x.valorTotal
    ensures AFaturar(a + [paid] + b) == AFaturar(a + [x] + b) - x.valorTotal
  {
    var ea := Filter(a, IsEmAndamento);
    var eb := Filter(b, IsEmAndamento);
    FilterKept(a, x, b, IsEmAndamento);
    FilterDropped(a, paid, b, IsEmAndamento);
    SumValorAround(ea, x, eb);
    SumValorAppend(ea, eb);
  }

  /** Neither status awaits approval, so the open-quote count stays. */
  lemma PayingKeepsOpen(a: seq<Orcamento>, x: Orcamento, paid: Orcamento, b: seq<Orcamento>)
    requires x.status == EmAndamento && paid.status == Pago
    ensures EmAberto(a + [paid] + b) == EmAberto(a + [x] + b)
  {
    FilterAround(a, x, b, IsEmOrcamento);
    FilterAround(a, paid, b, IsEmOrcamento);
  }

  /** Two sales with the same lines contribute the same sold lines. */
  lemma SameSoldLines(a: seq<Orcamento>, x: Orcamento, y: Orcamento, b: seq<Orcamento>)
    requires IsSale(x) && IsSale(y) && x.itens == y.itens
    ensures SoldLines(a + [y] + b) == SoldLines(a + [x] + b)
  {
    SoldLinesAppend(a + [x], b);
    SoldLinesAppend(a, [x]);
    SoldLinesAppend(a + [y], b);
    SoldLinesAppend(a, [y]);
    assert [x][..0] == [] && [y][..0] == [];
  }

  /** Two sales with the same day and value give the same recent-sales rows. */
  lemma SameRecentSales(a: seq<Orcamento>, x: Orcamento, y: Orcamento, b: seq<Orcamento>, today: int)
    requires IsSale(x) && IsSale(y) && x.createdAt == y.createdAt && x.valorTotal == y.valorTotal
    ensures VendaRecente(a + [y] + b, today) == VendaRecente(a + [x] + b, today)
  {
    var recent := RecentTest(today);
    FilterAround(a, x, b, recent);
    FilterAround(a, y, b, recent);
    assert recent(x) == recent(y);
    var fx: seq<Orcamento> := if recent(x) then [x] else [];
    var fy: seq<Orcamento> := if recent(y) then [y] else [];
    assert ToVendas(fx) == ToVendas(fy);
    ToVendasAppend(Filter(a, recent) + fx, Filter(b, recent));
    ToVendasAppend(Filter(a, recent), fx);
    ToVendasAppend(Filter(a, recent) + fy, Filter(b, recent));
    ToVendasAppend(Filter(a, recent), fy);
  }

  /**
   * Paying an in-progress quote (any record that keeps its lines, total
   * and creation day and has status "pago") moves its value from
   * `aFaturar` to `totalFaturado` and into the profit, and leaves the
   * open-quote count, the ranking, the low-stock list, the recent sales
   * and the cost as they were.
   */
  lemma PayingMovesRevenue(qs: seq<Orcamento>, k: nat, paid: Orcamento, ps: seq<Produto>, ms: seq<Item>, today: int)
    requires k < |qs| && qs[k].status == EmAndamento
    requires paid.status == Pago && paid.itens == qs[k].itens
    requires paid.valorTotal == qs[k].valorTotal && paid.createdAt == qs[k].createdAt
    ensures var before := MetricsOf(qs, ps, ms, today);
      var after := MetricsOf(qs[k := paid], ps, ms, today);
      var v := qs[k].valorTotal;
      after.totalFaturado == before.totalFaturado + v &&
      after.aFaturar == before.aFaturar - v &&
      after.lucroTotal == before.lucroTotal + v &&
      after.(totalFaturado := before.totalFaturado, aFaturar := before.aFaturar, lucroTotal := before.lucroTotal) == before
  {
    var a := qs[..k];
    var b := qs[k + 1..];
    var x := qs[k];
    assert qs == a + [x] + b;
    assert qs[k := paid] == a + [paid] + b;
    PayingBills(a, x, paid, b);
    PayingUnbills(a, x, paid, b);
    PayingKeepsOpen(a, x, paid, b);
    SameSoldLines(a, x, paid, b);
    SameRecentSales(a, x, paid, b, today);
  }

  /**
   * The store-level form: saving the paid version of an in-progress quote
   * (the status change the quote page offers) moves its value from
   * `aFaturar` to `totalFaturado` and changes no other figure but profit.
   */
  lemma PayingStoredQuote(qs: seq<Orcamento>, id: string, motivo: Option<string>, now: int,
                          ps: seq<Produto>, ms: seq<Item>, today: int)
    requires Lookup(qs, OrcamentoId, id).Some? && Lookup(qs, OrcamentoId, id).value.status == EmAndamento
    ensures var q := Lookup(qs, OrcamentoId, id).value;
      var before := MetricsOf(qs, ps, ms, today);
      var after := MetricsOf(Upsert(qs, OrcamentoId, TouchOrcamento, ChangeStatus(q, Pago, motivo, now), now), ps, ms, today);
      after.totalFaturado == before.totalFaturado + q.valorTotal &&
      after.aFaturar == before.aFaturar - q.valorTotal &&
      after.lucroTotal == before.lucroTotal + q.valorTotal &&
      after.(totalFaturado := before.totalFaturado, aFaturar := before.aFaturar, lucroTotal := before.lucroTotal) == before
  {
    var q := Lookup(qs, OrcamentoId, id).value;
    var k := FindIndex(qs, OrcamentoId, id).value;
    var paid := TouchOrcamento(ChangeStatus(q, Pago, motivo, now), now);
    assert Upsert(qs, OrcamentoId, TouchOrcamento, ChangeStatus(q, Pago, motivo, now), now) == qs[k := paid];
    PayingMovesRevenue(qs, k, paid, ps, ms, today);
  }
}
