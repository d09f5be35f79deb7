/**
 * The one-off migration of stored quotes from the legacy shape (one
 * product per quote) to the current shape (a list of lines). Reading and
 * writing the browser's storage and the JSON encoding are replaced by an
 * optional list in and an optional list out: `None` out means nothing is
 * written back.
 */
module Migration {
  import opened Wrappers
  import opened Types
  import opened Quotes

  /** The legacy quote: one product, its quantity and prices, on the quote itself. */
  datatype OldOrcamento = OldOrcamento(
    id: string,
    clienteId: string,
    produtoId: string,
    tipoMaterialId: string,
    tipoArteId: string,
    quantidade: real,
    valorUnitario: real,
    valorTotal: real,
    status: StatusOrcamento,
    observacoes: Option<string>,
    motivoCancelamento: Option<string>,
    createdAt: int,
    updatedAt: int)

  /**
   * A stored record: one with an `itens` list, or one without (a legacy
   * record, or one whose product id is blank and so has neither shape).
   */
  datatype StoredQuote = Current(quote: Orcamento) | Legacy(legacy: OldOrcamento)

  /** A record the migration converts: no line list, and a product id. */
  predicate NeedsMigration(r: StoredQuote) {
    r.Legacy? && r.legacy.produtoId != ""
  }

  /**
   * The converted quote: one line carrying the legacy product, quantity
   * and prices, a validity date supplied by the caller (30 days from the
   * migration), and every other quote field copied.
   */
  function Convert(o: OldOrcamento, itemId: string, validUntil: int): (r: Orcamento)
    ensures |r.itens| == 1
    ensures r.itens[0] == OrcamentoItem(itemId, o.produtoId, o.quantidade, o.valorUnitario, o.valorTotal, None, None)
    ensures r.prazoValidade == validUntil
    ensures r.id == o.id && r.clienteId == o.clienteId && r.valorTotal == o.valorTotal &&
            r.status == o.status && r.observacoes == o.observacoes &&
            r.motivoCancelamento == o.motivoCancelamento &&
            r.createdAt == o.createdAt && r.updatedAt == o.updatedAt
  {
    var item := OrcamentoItem(itemId, o.produtoId, o.quantidade, o.valorUnitario, o.valorTotal, None, None);
    Orcamento(o.id, o.clienteId, [item], o.valorTotal, o.status, o.observacoes, o.motivoCancelamento,
              validUntil, o.createdAt, o.updatedAt)
  }

  /** A converted quote's total is the sum of its lines' totals, as for any quote built by the page. */
  lemma ConvertedTotalIsSum(o: OldOrcamento, itemId: string, validUntil: int)
    ensures Total(Convert(o, itemId, validUntil).itens) == Convert(o, itemId, validUntil).valorTotal
  {
    var q := Convert(o, itemId, validUntil);
    assert q.itens[..0] == [];
  }

  /** The `map` callback: current records and records of neither shape pass through. */
  function MigrateRecord(r: StoredQuote, itemId: string, validUntil: int): (m: StoredQuote)
    ensures !NeedsMigration(r) ==> m == r
    ensures NeedsMigration(r) ==> m == Current(Convert(r.legacy, itemId, validUntil))
    ensures !NeedsMigration(m)
  {
    if NeedsMigration(r) then Current(Convert(r.legacy, itemId, validUntil)) else r
  }

  /** The migrated list: one record per stored record, in the same order; record `i` draws fresh id `i`. */
  function MigrateAll(data: seq<StoredQuote>, freshIds: nat -> string, validUntil: int): (r: seq<StoredQuote>)
    ensures |r| == |data|
    ensures forall i :: 0 <= i < |data| ==> r[i] == MigrateRecord(data[i], freshIds(i), validUntil)
  {
    seq(|data|, i requires 0 <= i < |data| => MigrateRecord(data[i], freshIds(i), validUntil))
  }

  /** Some stored record still needs converting. */
  predicate AnyLegacy(data: seq<StoredQuote>) {
    exists i :: 0 <= i < |data| && NeedsMigration(data[i])
  }

  /** Migrating a migrated list converts nothing and changes nothing. */
  lemma MigrateIdempotent(data: seq<StoredQuote>, f: nat -> string, g: nat -> string, t1: int, t2: int)
    ensures !AnyLegacy(MigrateAll(data, f, t1))
    ensures MigrateAll(MigrateAll(data, f, t1), g, t2) == MigrateAll(data, f, t1)
  {
    var once := MigrateAll(data, f, t1);
    assert forall i :: 0 <= i < |once| ==> !NeedsMigration(once[i]);
  }

  /**
   * `migrateOrcamentos`: nothing stored, nothing written. Otherwise walk the
   * records, converting legacy ones and raising the `migrated` flag on each
   * conversion; write the list back only when the flag is up.
   */
  method MigrateOrcamentos(stored: Option<seq<StoredQuote>>, freshIds: nat -> string, validUntil: int)
    returns (written: Option<seq<StoredQuote>>)
    ensures stored.None? ==> written.None?
    ensures stored.Some? ==>
      (written.Some? <==> AnyLegacy(stored.value)) &&
      (written.Some? ==> written.value == MigrateAll(stored.value, freshIds, validUntil))
  {
    if stored.None? {
      return None;
    }
    var data := stored.value;
    var migrated := false;
    var out: seq<StoredQuote> := [];
    var i := 0;
    while i < |data|
      invariant 0 <= i <= |data|
      invariant |out| == i
      invariant forall k :: 0 <= k < i ==> out[k] == MigrateRecord(data[k], freshIds(k), validUntil)
      invariant migrated <==> exists k :: 0 <= k < i && NeedsMigration(data[k])
    {
      var r := data[i];
      if r.Current? {
        out := out + [r];
      } else if r.legacy.produtoId != "" {
        migrated := true;
        out := out + [Current(Convert(r.legacy, freshIds(i), validUntil))];
      } else {
        out := out + [r];
      }
      i := i + 1;
    }
    if migrated {
      written := Some(out);
    } else {
      written := None;
    }
  }
}
