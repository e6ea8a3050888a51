/** The reconciliation job (internal/settle/reconcile.go) and its queries
    (internal/store/queries.go), over a database that stays fixed while they run. */
module Reconcile {
  import opened Wrappers
  import opened Int64
  import opened Money
  import opened Ledger
  import opened Database
  import opened Posting
  import opened Serial
  import opened Evolution
  import opened Balances

  // ---------- the queries ----------

  /** The scan into an int64 fails if any account's sum has left its range. */
  predicate SumsFit(db: Db) { forall a | a in db.accounts :: InRange(PostingSum(db.journal, a)) }

  function DerivedOf(db: Db): map<int, int> { map a | a in db.accounts :: PostingSum(db.journal, a) }

  function StoredOf(db: Db): map<int, Minor> { map a | a in db.accounts :: db.accounts[a].balance }

  /** The currencies with postings. */
  function Posted(journal: seq<TxnRow>): set<Currency> {
    if journal == [] then {} else Posted(Front(journal)) + Currencies(Last(journal).legs)
  }

  predicate HasPosting(row: TxnRow, c: Currency) { exists j | 0 <= j < |row.legs| :: row.legs[j].currency == c }

  /** A currency is reported if and only if some posting of some transaction has it. */
  lemma {:induction false} PostedIff(journal: seq<TxnRow>, c: Currency)
    ensures c in Posted(journal) <==> exists i | 0 <= i < |journal| :: HasPosting(journal[i], c)
  {
    if journal != [] {
      PostedIff(Front(journal), c);
      if i: int :| 0 <= i < |journal| && HasPosting(journal[i], c) {
        if i < |journal| - 1 { assert HasPosting(Front(journal)[i], c); }
      }
      if i: int :| 0 <= i < |Front(journal)| && HasPosting(Front(journal)[i], c) { assert HasPosting(journal[i], c); }
      if c in Currencies(Last(journal).legs) { assert HasPosting(journal[|journal| - 1], c); }
    }
  }

  predicate TotalsFit(db: Db) { forall c | c in Posted(db.journal) :: InRange(CurrencyTotal(db.journal, c)) }

  function TotalsOf(db: Db): map<Currency, int> { map c | c in Posted(db.journal) :: CurrencyTotal(db.journal, c) }

  /** Some currency of the entry does not sum to zero; the sums are exact numerics. */
  predicate Lopsided(legs: seq<Leg>) { exists i | 0 <= i < |legs| :: CurrencySum(legs, legs[i].currency) != 0 }

  lemma LopsidedIff(legs: seq<Leg>)
    ensures Lopsided(legs) <==> !Balanced(legs)
  {
    if !Lopsided(legs) {
      forall c: Currency ensures CurrencySum(legs, c) == 0 {
        if c in Currencies(legs) {
          var i :| 0 <= i < |legs| && legs[i].currency == c;
        } else {
          CurrencySumOff(legs, c);
        }
      }
    }
  }

  function UnbalancedIds(journal: seq<TxnRow>): set<int> {
    set i | 0 <= i < |journal| && Lopsided(journal[i].legs) :: journal[i].id
  }

  /** Rows arrive in any order. */
  method RecomputedBalances(db: Db) returns (r: Result<map<int, Minor>, LedgerError>)
    ensures r == if SumsFit(db) then Ok(DerivedOf(db)) else Err(QueryOverflow)
  {
    var out: map<int, Minor> := map[];
    var todo := db.accounts.Keys;
    while todo != {}
      invariant todo <= db.accounts.Keys && out.Keys == db.accounts.Keys - todo
      invariant forall a | a in out :: out[a] == PostingSum(db.journal, a)
    {
      ghost var _ := Pick(todo);
      var id :| id in todo;
      var sum := PostingSum(db.journal, id);
      if !InRange(sum) {
        return Err(QueryOverflow);
      }
      out := out[id := sum];
      todo := todo - {id};
    }
    assert out == DerivedOf(db);
    return Ok(out);
  }

  method StoredBalances(db: Db) returns (out: map<int, Minor>)
    ensures out == StoredOf(db)
  {
    out := map[];
    var todo := db.accounts.Keys;
    while todo != {}
      invariant todo <= db.accounts.Keys && out.Keys == db.accounts.Keys - todo
      invariant forall a | a in out :: out[a] == db.accounts[a].balance
    {
      ghost var _ := Pick(todo);
      var id :| id in todo;
      out := out[id := db.accounts[id].balance];
      todo := todo - {id};
    }
    assert out.Keys == StoredOf(db).Keys;
    assert forall a | a in out :: out[a] == StoredOf(db)[a];
  }

  method ConservationByCurrency(db: Db) returns (r: Result<map<Currency, Minor>, LedgerError>)
    ensures r == if TotalsFit(db) then Ok(TotalsOf(db)) else Err(QueryOverflow)
  {
    var out: map<Currency, Minor> := map[];
    var todo := Posted(db.journal);
    while todo != {}
      invariant todo <= Posted(db.journal) && out.Keys == Posted(db.journal) - todo
      invariant forall c | c in out :: out[c] == CurrencyTotal(db.journal, c)
    {
      var c :| c in todo;
      var sum := CurrencyTotal(db.journal, c);
      if !InRange(sum) {
        return Err(QueryOverflow);
      }
      out := out[c := sum];
      todo := todo - {c};
    }
    assert out == TotalsOf(db);
    return Ok(out);
  }

  method UnbalancedTxns(db: Db) returns (ids: seq<int>)
    ensures ids == SortedIds(UnbalancedIds(db.journal))
  {
    ids := [];
    for i := 0 to |db.journal|
      invariant Elements(ids) == UnbalancedIds(db.journal[..i])
    {
      UnbalancedStep(db.journal, i);
      if Lopsided(db.journal[i].legs) {
        ids := ids + [db.journal[i].id];
      }
    }
    assert db.journal[..|db.journal|] == db.journal;
    ids := SortAscending(ids);
  }

  lemma UnbalancedStep(journal: seq<TxnRow>, i: nat)
    requires i < |journal|
    ensures UnbalancedIds(journal[..i + 1])
         == UnbalancedIds(journal[..i]) + (if Lopsided(journal[i].legs) then {journal[i].id} else {})
  {}

  // ---------- the report ----------

  datatype DriftItem = DriftItem(account: int, stored: Minor, derived: Minor)

  datatype Report = Report(ok: bool, unbalanced: seq<int>, drift: seq<DriftItem>, conservation: map<Currency, int>,
                           conservationOk: bool, driftCount: nat, unbalancedCount: nat)

  predicate Drifts(stored: map<int, Minor>, derived: map<int, Minor>, d: DriftItem) {
    && d.account in stored && d.account in derived && d.stored == stored[d.account] && d.derived == derived[d.account]
    && d.stored != d.derived
  }

  predicate AscendingDrift(drift: seq<DriftItem>) {
    forall i, j | 0 <= i < j < |drift| :: drift[i].account < drift[j].account
  }

  /** Exactly the accounts whose stored balance differs from the derived one, in order. */
  ghost predicate DriftExact(stored: map<int, Minor>, derived: map<int, Minor>, drift: seq<DriftItem>) {
    && AscendingDrift(drift)
    && forall d: DriftItem :: d in drift <==> Drifts(stored, derived, d)
  }

  function InsertDrift(drift: seq<DriftItem>, d: DriftItem): seq<DriftItem> {
    if drift == [] || d.account < drift[0].account then [d] + drift
    else [drift[0]] + InsertDrift(drift[1..], d)
  }

  lemma {:induction false} InsertDriftSorted(drift: seq<DriftItem>, d: DriftItem)
    requires AscendingDrift(drift) && forall i | 0 <= i < |drift| :: drift[i].account != d.account
    ensures AscendingDrift(InsertDrift(drift, d))
    ensures forall x: DriftItem :: x in InsertDrift(drift, d) <==> x in drift || x == d
  {
    if drift == [] || d.account < drift[0].account {
      ConsDrift(d, drift);
    } else {
      InsertDriftSorted(drift[1..], d);
      assert forall x: DriftItem :: x in drift <==> x == drift[0] || x in drift[1..];
      ConsDrift(drift[0], InsertDrift(drift[1..], d));
    }
  }

  lemma ConsDrift(d: DriftItem, drift: seq<DriftItem>)
    requires AscendingDrift(drift) && forall x | x in drift :: d.account < x.account
    ensures AscendingDrift([d] + drift)
    ensures forall x: DriftItem :: x in [d] + drift <==> x == d || x in drift
  {}

  predicate DistinctDrift(drift: seq<DriftItem>) {
    forall i, j | 0 <= i < j < |drift| :: drift[i].account != drift[j].account
  }

  /** sort.Slice by account id. */
  method SortDrift(drift: seq<DriftItem>) returns (r: seq<DriftItem>)
    requires DistinctDrift(drift)
    ensures AscendingDrift(r) && forall x: DriftItem :: x in r <==> x in drift
  {
    r := [];
    for i := 0 to |drift|
      invariant AscendingDrift(r) && forall x: DriftItem :: x in r <==> x in drift[..i]
    {
      forall k | 0 <= k < |r| ensures r[k].account != drift[i].account {
        assert r[k] in drift[..i];
        var m :| 0 <= m < i && drift[m] == r[k];
      }
      InsertDriftSorted(r, drift[i]);
      r := InsertDrift(r, drift[i]);
      assert drift[..i + 1] == drift[..i] + [drift[i]];
    }
    assert drift[..|drift|] == drift;
  }

  /** The loop over the stored balances, in any order. */
  method FindDrift(stored: map<int, Minor>, derived: map<int, Minor>) returns (drift: seq<DriftItem>)
    requires stored.Keys == derived.Keys
    ensures DistinctDrift(drift) && forall d: DriftItem :: d in drift <==> Drifts(stored, derived, d)
  {
    drift := [];
    var todo := stored.Keys;
    while todo != {}
      invariant todo <= stored.Keys && DistinctDrift(drift)
      invariant forall d: DriftItem :: d in drift <==> Drifts(stored, derived, d) && d.account !in todo
    {
      ghost var _ := Pick(todo);
      var id :| id in todo;
      if stored[id] != derived[id] {
        forall k | 0 <= k < |drift| ensures drift[k].account != id { assert drift[k] in drift; }
        drift := drift + [DriftItem(id, stored[id], derived[id])];
      }
      todo := todo - {id};
    }
  }

  /** The loop that clears ConservationOK. */
  method AllZero(totals: map<Currency, Minor>) returns (ok: bool)
    ensures ok <==> forall c | c in totals :: totals[c] == 0
  {
    ok := true;
    var todo := totals.Keys;
    while todo != {}
      invariant todo <= totals.Keys
      invariant ok <==> forall c | c in totals && c !in todo :: totals[c] == 0
    {
      var c :| c in todo;
      if totals[c] != 0 {
        ok := false;
      }
      todo := todo - {c};
    }
  }

  /** What the report says about the database. */
  ghost predicate Reports(db: Db, rep: Report) {
    && SumsFit(db) && TotalsFit(db)
    && rep.unbalanced == SortedIds(UnbalancedIds(db.journal)) && rep.unbalancedCount == |rep.unbalanced|
    && DriftExact(StoredOf(db), DerivedOf(db), rep.drift) && rep.driftCount == |rep.drift|
    && rep.conservation == TotalsOf(db)
    && (rep.conservationOk <==> forall c | c in rep.conservation :: rep.conservation[c] == 0)
    && (rep.ok <==> rep.unbalancedCount == 0 && rep.driftCount == 0 && rep.conservationOk)
  }

  method Run(db: Db) returns (r: Result<Report, LedgerError>)
    ensures r.Ok? <==> SumsFit(db) && TotalsFit(db)
    ensures r.Ok? ==> Reports(db, r.value)
    ensures r.Err? ==> r.error == QueryOverflow
  {
    var unbalanced := UnbalancedTxns(db);
    var stored := StoredBalances(db);
    var derived :- RecomputedBalances(db);
    var found := FindDrift(stored, derived);
    var drift := SortDrift(found);
    var totals :- ConservationByCurrency(db);
    var conservationOk := AllZero(totals);
    var ok := |unbalanced| == 0 && |drift| == 0 && conservationOk;
    return Ok(Report(ok, unbalanced, drift, totals, conservationOk, |drift|, |unbalanced|));
  }

  // ---------- what OK means ----------

  lemma NoneUnbalanced(journal: seq<TxnRow>)
    ensures UnbalancedIds(journal) == {} <==> AllBalanced(journal)
  {
    forall i | 0 <= i < |journal| ensures Lopsided(journal[i].legs) <==> !Balanced(journal[i].legs) {
      LopsidedIff(journal[i].legs);
    }
    forall i | 0 <= i < |journal| && Lopsided(journal[i].legs) ensures journal[i].id in UnbalancedIds(journal) {}
  }

  ghost predicate NoDrift(db: Db) {
    forall a | a in db.accounts :: db.accounts[a].balance == PostingSum(db.journal, a)
  }

  lemma EmptyDrift(db: Db, drift: seq<DriftItem>)
    requires SumsFit(db) && DriftExact(StoredOf(db), DerivedOf(db), drift)
    ensures drift == [] <==> NoDrift(db)
  {
    if drift == [] {
      forall a | a in db.accounts ensures db.accounts[a].balance == PostingSum(db.journal, a) {
        var d := DriftItem(a, db.accounts[a].balance, PostingSum(db.journal, a));
        assert d !in drift;
      }
    } else {
      assert drift[0] in drift;
    }
  }

  predicate ZeroTotal(journal: seq<TxnRow>, c: Currency) { CurrencyTotal(journal, c) == 0 }

  ghost predicate TotalsZero(journal: seq<TxnRow>) { forall c: Currency :: ZeroTotal(journal, c) }

  predicate IsLopsided(row: TxnRow, id: int) { row.id == id && Lopsided(row.legs) }

  /** The report in terms of the rows: the transactions that do not balance, the accounts whose
      balance is not the sum of their postings, and the total of every currency with postings. */
  lemma ReportMeans(db: Db, rep: Report)
    requires Reports(db, rep)
    ensures forall id: int :: id in rep.unbalanced <==>
              exists i | 0 <= i < |db.journal| :: IsLopsided(db.journal[i], id)
    ensures forall d: DriftItem :: d in rep.drift <==>
              && d.account in db.accounts && d.stored == db.accounts[d.account].balance
              && d.derived == PostingSum(db.journal, d.account) && d.stored != d.derived
    ensures forall c: Currency :: c in rep.conservation <==>
              exists i | 0 <= i < |db.journal| :: HasPosting(db.journal[i], c)
    ensures forall c | c in rep.conservation :: rep.conservation[c] == CurrencyTotal(db.journal, c)
    ensures rep.conservationOk <==> TotalsZero(db.journal)
  {
    UnbalancedMeans(db, rep);
    TotalsMean(db, rep);
  }

  lemma UnbalancedMeans(db: Db, rep: Report)
    requires Reports(db, rep)
    ensures forall id: int :: id in rep.unbalanced <==>
              exists i | 0 <= i < |db.journal| :: IsLopsided(db.journal[i], id)
  {
    forall id: int
      ensures id in rep.unbalanced <==> exists i | 0 <= i < |db.journal| :: IsLopsided(db.journal[i], id)
    {
      assert id in rep.unbalanced <==> id in Elements(rep.unbalanced);
      if i :| 0 <= i < |db.journal| && IsLopsided(db.journal[i], id) { assert id in UnbalancedIds(db.journal); }
      if id in UnbalancedIds(db.journal) {
        var i :| 0 <= i < |db.journal| && Lopsided(db.journal[i].legs) && db.journal[i].id == id;
        assert IsLopsided(db.journal[i], id);
      }
    }
  }

  lemma TotalsMean(db: Db, rep: Report)
    requires Reports(db, rep)
    ensures forall c: Currency :: c in rep.conservation <==>
              exists i | 0 <= i < |db.journal| :: HasPosting(db.journal[i], c)
    ensures rep.conservationOk <==> TotalsZero(db.journal)
  {
    forall c: Currency
      ensures c in rep.conservation <==> exists i | 0 <= i < |db.journal| :: HasPosting(db.journal[i], c)
      ensures c !in rep.conservation ==> CurrencyTotal(db.journal, c) == 0
    {
      PostedIff(db.journal, c);
      if c !in rep.conservation { NoPostings(db.journal, c); }
    }
    if rep.conservationOk {
      forall c: Currency ensures ZeroTotal(db.journal, c) {
        if c in rep.conservation { assert rep.conservation[c] == 0; }
      }
    } else {
      var c :| c in rep.conservation && rep.conservation[c] != 0;
      assert !ZeroTotal(db.journal, c);
    }
  }

  lemma {:induction false} NoPostings(journal: seq<TxnRow>, c: Currency)
    requires c !in Posted(journal)
    ensures CurrencyTotal(journal, c) == 0
  {
    if journal != [] {
      NoPostings(Front(journal), c);
      CurrencySumOff(Last(journal).legs, c);
    }
  }

  /** Soundness and completeness: OK exactly when every transaction balances in exact integers
      and no account's stored balance differs from the sum of its postings. */
  lemma OkIff(db: Db, rep: Report)
    requires Reports(db, rep)
    ensures rep.ok <==> AllBalanced(db.journal) && NoDrift(db)
  {
    NoneUnbalanced(db.journal);
    EmptyDrift(db, rep.drift);
    assert rep.unbalanced == [] <==> UnbalancedIds(db.journal) == {} by {
      if rep.unbalanced != [] { assert rep.unbalanced[0] in Elements(rep.unbalanced); }
    }
    if AllBalanced(db.journal) {
      forall c | c in rep.conservation ensures rep.conservation[c] == 0 { BalancedTotals(db.journal, c); }
    }
  }

  /** In every reachable state whose sums can be scanned, reconciliation finds no drift and
      zero totals, and its verdict is OK exactly when every raw journal entry of the log was
      balanced in exact integers. */
  lemma ReachableReport(cfg: Config, init: Db, log: seq<Op>, rep: Report)
    requires InitDb(init) && Serial.Run(cfg, init, log).Ok?
    requires Reports(Serial.Run(cfg, init, log).value, rep)
    ensures rep.drift == [] && rep.conservationOk
    ensures rep.ok <==> BalancedEntries(log)
  {
    var db := Serial.Run(cfg, init, log).value;
    RunKeepsGood(cfg, init, log);
    RunDerived(cfg, init, log);
    forall a | a in db.accounts ensures db.accounts[a].balance == PostingSum(db.journal, a) {
      StoredIsDerivedIff(db, a);
    }
    EmptyDrift(db, rep.drift);
    forall c | c in rep.conservation ensures rep.conservation[c] == 0 {
      Conserved(db, c);
    }
    OkIff(db, rep);
    RunBalancedIff(cfg, init, log);
  }

  /** The conservation scan cannot fail on balanced entries, so the job reports on such a log
      exactly when every account's postings sum to an int64, and the report is OK. */
  lemma ReachableScans(cfg: Config, init: Db, log: seq<Op>)
    requires InitDb(init) && Serial.Run(cfg, init, log).Ok? && BalancedEntries(log)
    ensures TotalsFit(Serial.Run(cfg, init, log).value)
    ensures SumsFit(Serial.Run(cfg, init, log).value) <==> NoDrift(Serial.Run(cfg, init, log).value)
  {
    var db := Serial.Run(cfg, init, log).value;
    RunBalancedIff(cfg, init, log);
    RunDerived(cfg, init, log);
    forall c | c in Posted(db.journal) ensures InRange(CurrencyTotal(db.journal, c)) { BalancedTotals(db.journal, c); }
    forall a | a in db.accounts
      ensures db.accounts[a].balance == PostingSum(db.journal, a) <==> InRange(PostingSum(db.journal, a)) {
      StoredIsDerivedIff(db, a);
    }
  }
}
