/** Idempotency keys over serial runs (internal/store/idempotency.go): each key is posted
    once, completely, and replayed faithfully. */
module Keys {
  import opened Wrappers
  import opened Ledger
  import opened Database
  import opened Posting
  import opened Serial
  import opened Evolution

  /** A committed key is completed and names a transaction that is exactly what its request
      builds. */
  predicate KeyFaithful(cfg: Config, db: Db, key: string)
    requires key in db.keys
  {
    var row := db.keys[key];
    && row.completed && row.txn.Some?
    && Find(db.journal, row.txn.value).Some? && Build(cfg, db, row.request).Ok?
    && var txn, e := Find(db.journal, row.txn.value).value, Build(cfg, db, row.request).value.entry;
    && txn.legs == e.legs && txn.kind == e.kind && txn.refTxn == e.refTxn
  }

  ghost predicate KeysFaithful(cfg: Config, db: Db) {
    forall k | k in db.keys :: KeyFaithful(cfg, db, k)
  }

  lemma KeyStaysFaithful(cfg: Config, db: Db, after: Db, touched: set<int>, key: string)
    requires GoodDb(db) && Evolves(db, after, touched) && key in db.keys && KeyFaithful(cfg, db, key)
    ensures key in after.keys && KeyFaithful(cfg, after, key)
  {
    var row := db.keys[key];
    GrowsFind(db.journal, after.journal, row.txn.value);
    BuildFrozen(cfg, db, after, touched, row.request);
  }

  lemma NewKeyFaithful(cfg: Config, db: Db, key: string, req: Request, txn: int)
    requires GoodDb(db) && key != "" && Apply(cfg, db, PostOp(key, req, txn)).Ok?
    ensures var after := Apply(cfg, db, PostOp(key, req, txn)).value;
            key in after.keys && KeyFaithful(cfg, after, key)
  {
    var after := Apply(cfg, db, PostOp(key, req, txn)).value;
    ApplyKeepsGood(cfg, db, PostOp(key, req, txn));
    BuildFrozen(cfg, db, after, Touched(cfg, db, PostOp(key, req, txn)), req);
    AppendRow(db.journal, RowOf(Build(cfg, db, req).value.entry, txn));
  }

  lemma NewKeyPosted(cfg: Config, db: Db, op: Op, key: string)
    requires Apply(cfg, db, op).Ok? && key in Apply(cfg, db, op).value.keys && key !in db.keys
    ensures op.PostOp? && op.key == key && key != ""
  {}

  lemma ApplyKeepsFaithful(cfg: Config, db: Db, op: Op)
    requires GoodDb(db) && KeysFaithful(cfg, db) && Apply(cfg, db, op).Ok?
    ensures KeysFaithful(cfg, Apply(cfg, db, op).value)
  {
    var after := Apply(cfg, db, op).value;
    ApplyKeepsGood(cfg, db, op);
    forall k | k in after.keys ensures KeyFaithful(cfg, after, k) {
      if k in db.keys {
        KeyStaysFaithful(cfg, db, after, Touched(cfg, db, op), k);
      } else {
        NewKeyPosted(cfg, db, op, k);
        NewKeyFaithful(cfg, db, op.key, op.req, op.txn);
      }
    }
  }

  /** After every run, each committed key is complete and faithful to its request. */
  lemma {:induction false} RunKeysFaithful(cfg: Config, init: Db, log: seq<Op>)
    requires InitDb(init) && Run(cfg, init, log).Ok?
    ensures KeysFaithful(cfg, Run(cfg, init, log).value)
  {
    if log != [] {
      RunKeysFaithful(cfg, init, Front(log));
      RunKeepsGood(cfg, init, Front(log));
      ApplyKeepsFaithful(cfg, Run(cfg, init, Front(log)).value, Last(log));
    }
  }

  predicate Posts(op: Op, key: string) { op.PostOp? && op.key == key }

  ghost predicate InLog(log: seq<Op>, key: string) { exists i | 0 <= i < |log| :: Posts(log[i], key) }

  /** Every posting of the key in the log is the one the key's row names. */
  predicate RowNames(row: KeyRow, log: seq<Op>, key: string) {
    forall i | 0 <= i < |log| && Posts(log[i], key) :: row == KeyRow(log[i].req, Some(log[i].txn), true)
  }

  lemma RowNamesLast(row: KeyRow, log: seq<Op>, key: string)
    requires log != []
    ensures RowNames(row, log, key)
       <==> RowNames(row, Front(log), key)
            && (Posts(Last(log), key) ==> row == KeyRow(Last(log).req, Some(Last(log).txn), true))
  {
    if RowNames(row, Front(log), key) {
      forall i | 0 <= i < |log| - 1 && Posts(log[i], key) ensures row == KeyRow(log[i].req, Some(log[i].txn), true) {
        assert Front(log)[i] == log[i];
      }
    }
    if RowNames(row, log, key) { assert forall i | 0 <= i < |log| - 1 :: Front(log)[i] == log[i]; }
  }

  /** A key is committed exactly when the log posts it, and with that posting's request and
      transaction. */
  lemma {:induction false} KeyCommittedIff(cfg: Config, init: Db, log: seq<Op>, key: string)
    requires InitDb(init) && Run(cfg, init, log).Ok? && key != ""
    ensures key in Run(cfg, init, log).value.keys <==> InLog(log, key)
    ensures InLog(log, key) ==> RowNames(Run(cfg, init, log).value.keys[key], log, key)
  {
    if log != [] {
      var db, after := Run(cfg, init, Front(log)).value, Run(cfg, init, log).value;
      KeyCommittedIff(cfg, init, Front(log), key);
      ApplyKey(cfg, db, Last(log), key);
      SplitPosts(log, key);
      if key in after.keys { RowNamesLast(after.keys[key], log, key); }
      if !InLog(Front(log), key) && InLog(log, key) { NoneNamed(after.keys[key], Front(log), key); }
    }
  }

  lemma NoneNamed(row: KeyRow, log: seq<Op>, key: string)
    requires !InLog(log, key)
    ensures RowNames(row, log, key)
  {}

  lemma SplitPosts(log: seq<Op>, key: string)
    requires log != []
    ensures InLog(log, key) <==> InLog(Front(log), key) || Posts(Last(log), key)
  {
    if i: int :| 0 <= i < |log| && Posts(log[i], key) {
      if i < |log| - 1 { assert Posts(Front(log)[i], key); }
    }
    if i: int :| 0 <= i < |Front(log)| && Posts(Front(log)[i], key) { assert Posts(log[i], key); }
    if Posts(Last(log), key) { assert Posts(log[|log| - 1], key); }
  }

  lemma ApplyKey(cfg: Config, db: Db, op: Op, key: string)
    requires Apply(cfg, db, op).Ok? && key != ""
    ensures key in Apply(cfg, db, op).value.keys <==> key in db.keys || Posts(op, key)
    ensures key in db.keys ==> Apply(cfg, db, op).value.keys[key] == db.keys[key] && !Posts(op, key)
    ensures Posts(op, key) ==> Apply(cfg, db, op).value.keys[key] == KeyRow(op.req, Some(op.txn), true)
  {}

  /** Each key has at most one committed transaction. */
  lemma {:induction false} KeyPostedOnce(cfg: Config, init: Db, log: seq<Op>, i: nat, j: nat)
    requires InitDb(init) && Run(cfg, init, log).Ok?
    requires i < j < |log| && log[i].PostOp? && log[j].PostOp? && log[i].key == log[j].key
    ensures log[i].key == ""
    decreases |log|
  {
    var front := Front(log);
    if j < |front| {
      KeyPostedOnce(cfg, init, front, i, j);
    } else if log[i].key != "" {
      KeyCommittedIff(cfg, init, front, log[i].key);
      assert Posts(front[i], log[i].key);
    }
  }

  /** A replay returns the transaction of the one earlier posting of its key with the same
      request, whose legs are exactly what that request builds when it is replayed. */
  lemma ReplayFaithful(cfg: Config, init: Db, log: seq<Op>, j: nat) returns (i: nat)
    requires InitDb(init) && Run(cfg, init, log).Ok? && j < |log| && log[j].ReplayOp? && log[j].key != ""
    ensures i < j && log[i] == PostOp(log[j].key, log[j].req, log[j].txn)
    ensures Run(cfg, init, log[..j]).Ok?
    ensures var db := Run(cfg, init, log[..j]).value;
            && Find(db.journal, log[j].txn).Some? && Build(cfg, db, log[j].req).Ok?
            && Find(db.journal, log[j].txn).value.legs == Build(cfg, db, log[j].req).value.entry.legs
  {
    RunPrefix(cfg, init, log, j);
    RunPrefix(cfg, init, log, j + 1);
    assert Front(log[..j + 1]) == log[..j] && Last(log[..j + 1]) == log[j];
    var key := log[j].key;
    KeyCommittedIff(cfg, init, log[..j], key);
    RunKeysFaithful(cfg, init, log[..j]);
    i :| 0 <= i < |log[..j]| && Posts(log[..j][i], key);
    assert KeyFaithful(cfg, Run(cfg, init, log[..j]).value, key);
  }

  /** Once committed, a key is replayed whatever has happened to the balances since, and no
      further posting under it is accepted, with any payload. */
  lemma {:induction false} CommittedForGood(cfg: Config, init: Db, log: seq<Op>, more: seq<Op>, key: string)
    requires InitDb(init) && Run(cfg, init, log).Ok? && Run(cfg, init, log + more).Ok?
    requires key != "" && key in Run(cfg, init, log).value.keys
    ensures var row := Run(cfg, init, log).value.keys[key];
            && row.txn.Some?
            && Apply(cfg, Run(cfg, init, log + more).value, ReplayOp(key, row.request, row.txn.value)).Ok?
            && forall req: Request, txn: int ::
                 Apply(cfg, Run(cfg, init, log + more).value, PostOp(key, req, txn)).Err?
  {
    RunKeysFaithful(cfg, init, log);
    assert KeyFaithful(cfg, Run(cfg, init, log).value, key);
    KeysPersist(cfg, init, log, more, key);
  }

  lemma {:induction false} KeysPersist(cfg: Config, init: Db, log: seq<Op>, more: seq<Op>, key: string)
    requires InitDb(init) && Run(cfg, init, log).Ok? && Run(cfg, init, log + more).Ok?
    requires key in Run(cfg, init, log).value.keys
    ensures key in Run(cfg, init, log + more).value.keys
    ensures Run(cfg, init, log + more).value.keys[key] == Run(cfg, init, log).value.keys[key]
  {
    if more == [] {
      assert log + more == log;
    } else {
      assert Front(log + more) == log + Front(more) && Last(log + more) == Last(more);
      KeysPersist(cfg, init, log, Front(more), key);
      RunKeepsGood(cfg, init, log + Front(more));
      ApplyKeepsGood(cfg, Run(cfg, init, log + Front(more)).value, Last(more));
    }
  }
}
