/** The tables of migrations/001_init.sql and the queries the store runs on them. A
    transaction row carries its postings; `journal` lists the rows in commit order. */
module Database {
  import opened Wrappers
  import opened Int64
  import opened Money
  import opened FxRate
  import opened Ledger

  datatype Account = Account(currency: Currency, allowNegative: bool, balance: Minor)

  datatype TxnRow = TxnRow(id: int, kind: TxnKind, refTxn: Option<int>, pending: bool, settled: bool,
                           batch: Option<int>, legs: seq<Leg>)

  /** The payload hashed into idempotency_keys.request_hash; equal hashes mean equal payloads. */
  datatype Request =
    | TransferReq(from: int, to: int, amount: Minor, currency: Currency)
    | PaymentReq(source: int, merchant: int, amount: Minor, currency: Currency)
    | RefundReq(payment: int, amount: Minor)
    | FxReq(from: int, to: int, amount: Minor, rate: Rate)
    | JournalReq(legs: seq<Leg>)

  datatype KeyRow = KeyRow(request: Request, txn: Option<int>, completed: bool)

  datatype Batch = Batch(itemCount: int, netTotal: Minor)

  datatype Db = Db(accounts: map<int, Account>, journal: seq<TxnRow>, keys: map<string, KeyRow>,
                   batches: map<int, Batch>)

  /** Account names the code resolves: "payout:<currency>" and "fx:<currency>". */
  datatype Config = Config(payout: map<Currency, int>, fxDesk: map<Currency, int>)

  // ---------- queries ----------

  /** SUM(postings.amount) of an account: the derived balance. */
  function PostingSum(journal: seq<TxnRow>, a: int): int {
    if journal == [] then 0 else PostingSum(Front(journal), a) + AccountSum(Last(journal).legs, a)
  }

  /** SUM(postings.amount) of a currency. */
  function CurrencyTotal(journal: seq<TxnRow>, c: Currency): int {
    if journal == [] then 0 else CurrencyTotal(Front(journal), c) + CurrencySum(Last(journal).legs, c)
  }

  predicate RefundOf(row: TxnRow, payment: int) { row.kind.Refund? && row.refTxn == Some(payment) }

  /** RefundedSoFar: negative postings of a payment's refunds on its merchant account. */
  function RefundedSoFar(journal: seq<TxnRow>, payment: int, merchant: int): nat {
    if journal == [] then 0
    else
      var row := Last(journal);
      RefundedSoFar(Front(journal), payment, merchant)
      + (if RefundOf(row, payment) then DebitSum(row.legs, merchant) else 0)
  }

  /** The refunds CTE of the settlement query: all negative postings of a payment's refunds. */
  function Refunded(journal: seq<TxnRow>, payment: int): nat {
    if journal == [] then 0
    else
      var row := Last(journal);
      Refunded(Front(journal), payment) + (if RefundOf(row, payment) then Debits(row.legs) else 0)
  }

  function Find(journal: seq<TxnRow>, id: int): Option<TxnRow> {
    if journal == [] then None
    else if Last(journal).id == id then Some(Last(journal))
    else Find(Front(journal), id)
  }

  function Ids(journal: seq<TxnRow>): set<int> { set i | 0 <= i < |journal| :: journal[i].id }

  predicate UniqueIds(journal: seq<TxnRow>) {
    forall i, j | 0 <= i < j < |journal| :: journal[i].id != journal[j].id
  }

  /** One row of the pending CTE: a positive posting of a pending payment. */
  datatype Pend = Pend(id: int, merchant: int, currency: Currency, captured: Minor)

  predicate IsPending(row: TxnRow) { row.kind.Payment? && row.pending && !row.settled }

  function PendingLegs(id: int, legs: seq<Leg>, merchants: set<int>): seq<Pend> {
    if legs == [] then []
    else
      var l := Last(legs);
      PendingLegs(id, Front(legs), merchants)
      + (if l.amount > 0 && l.account in merchants then [Pend(id, l.account, l.currency, l.amount)] else [])
  }

  /** The pending payments of the given merchants. */
  function Pendings(journal: seq<TxnRow>, merchants: set<int>): seq<Pend> {
    if journal == [] then []
    else Pendings(Front(journal), merchants) + PendingsOf(Last(journal), merchants)
  }

  function PendingsOf(row: TxnRow, merchants: set<int>): seq<Pend> {
    if IsPending(row) then PendingLegs(row.id, row.legs, merchants) else []
  }

  /** UPDATE transactions SET settled=true, pending_settle=false, settle_batch_id=... */
  function MarkRow(row: TxnRow, ids: set<int>, batch: int): TxnRow {
    if row.id in ids then row.(pending := false, settled := true, batch := Some(batch)) else row
  }

  function Mark(journal: seq<TxnRow>, ids: set<int>, batch: int): (r: seq<TxnRow>)
    ensures |r| == |journal|
    ensures forall i | 0 <= i < |journal| :: r[i] == MarkRow(journal[i], ids, batch)
  {
    if journal == [] then [] else Mark(Front(journal), ids, batch) + [MarkRow(Last(journal), ids, batch)]
  }

  // ---------- the queries on a grown or marked journal ----------

  lemma AppendRow(journal: seq<TxnRow>, row: TxnRow)
    ensures Front(journal + [row]) == journal && Last(journal + [row]) == row
  {}

  lemma {:induction false} MarkQueries(journal: seq<TxnRow>, ids: set<int>, batch: int, p: int, m: int, c: Currency)
    ensures var j := Mark(journal, ids, batch);
            && PostingSum(j, m) == PostingSum(journal, m)
            && CurrencyTotal(j, c) == CurrencyTotal(journal, c)
            && RefundedSoFar(j, p, m) == RefundedSoFar(journal, p, m)
            && Refunded(j, p) == Refunded(journal, p)
            && (Find(journal, p).None? ==> Find(j, p).None?)
            && (Find(journal, p).Some? ==> Find(j, p) == Some(MarkRow(Find(journal, p).value, ids, batch)))
  {
    if journal != [] {
      MarkQueries(Front(journal), ids, batch, p, m, c);
      assert Front(Mark(journal, ids, batch)) == Mark(Front(journal), ids, batch);
    }
  }

  lemma {:induction false} FindRow(journal: seq<TxnRow>, i: nat)
    requires i < |journal| && UniqueIds(journal)
    ensures Find(journal, journal[i].id) == Some(journal[i])
  {
    if i < |journal| - 1 {
      FindRow(Front(journal), i);
    }
  }

  lemma {:induction false} FindIndex(journal: seq<TxnRow>, id: int) returns (i: nat)
    requires Find(journal, id).Some?
    ensures i < |journal| && journal[i] == Find(journal, id).value && journal[i].id == id
  {
    if Last(journal).id == id {
      i := |journal| - 1;
    } else {
      i := FindIndex(Front(journal), id);
    }
  }

  lemma {:induction false} MarkAppend(journal: seq<TxnRow>, rows: seq<TxnRow>, ids: set<int>, batch: int)
    requires Ids(rows) !! ids
    ensures Mark(journal + rows, ids, batch) == Mark(journal, ids, batch) + rows
  {}

  lemma {:induction false} MarkNone(journal: seq<TxnRow>, batch: int)
    ensures Mark(journal, {}, batch) == journal
  {}

  lemma {:induction false} NobodyPending(journal: seq<TxnRow>)
    ensures Pendings(journal, {}) == []
  {
    if journal != [] {
      NobodyPending(Front(journal));
      NoLegs(Last(journal).id, Last(journal).legs);
    }
  }

  lemma {:induction false} NoLegs(id: int, legs: seq<Leg>)
    ensures PendingLegs(id, legs, {}) == []
  {
    if legs != [] { NoLegs(id, Front(legs)); }
  }

  lemma {:induction false} LegIds(id: int, legs: seq<Leg>, merchants: set<int>)
    ensures forall k | 0 <= k < |PendingLegs(id, legs, merchants)| :: PendingLegs(id, legs, merchants)[k].id == id
  {
    if legs != [] {
      LegIds(id, Front(legs), merchants);
    }
  }
}
