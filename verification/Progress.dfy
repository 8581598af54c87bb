/**
  What interleavings can do: an unobstructed transaction runs to its commit, so every serial run is
  one of the interleavings, and so is the stale one in which two cancels release one order twice.
*/
module Progress {
  import opened Inventory
  import opened Orders
  import opened Ledger
  import opened Drift
  import opened Concurrency

  lemma StepExtends(s: Sys, steps: seq<Step>, step: Step)
    requires ValidRun(s, steps) && Enabled(After(s, steps), step)
    ensures ValidRun(s, steps + [step]) && After(s, steps + [step]) == Next(After(s, steps), step)
  {
    assert (steps + [step])[..|steps + [step]| - 1] == steps;
  }

  /** Nobody else holds a row the transaction still needs, and its request would succeed on what is committed now. */
  ghost predicate Unobstructed(s: Sys, t: TxnId) {
    && t in s.txns
    && (forall i | s.txns[t].pc <= i < |s.txns[t].actions| && KeyOf(s.txns[t].actions[i]) in s.locks ::
          s.locks[KeyOf(s.txns[t].actions[i])] == t)
    && (!s.txns[t].req.Place? ==> s.txns[t].snapshot.Some?)
    && Serve(s.committed, s.txns[t].req).reply.Ok?
  }

  lemma NextOperationWorks(s: Sys, t: TxnId)
    requires Unobstructed(s, t) && TxnOk(s, t) && RequestOk(s, t)
    requires s.txns[t].pc < |s.txns[t].actions|
    ensures Act(View(s, t), s.txns[t].actions[s.txns[t].pc]).Ok?
  {
    var txn := s.txns[t];
    ProgramIsServe(s.committed, txn.req, txn.snapshot);
    NextDecides(s.committed, txn.actions, txn.pc, Effect(View(s, t), txn.events, txn.announced));
  }

  /** The state after `t` has committed with nothing else moving. */
  ghost predicate CommittedAlone(s: Sys, t: TxnId, s': Sys)
    requires t in s.txns
  {
    var out := Serve(s.committed, s.txns[t].req);
    s' == Sys(out.db, s.txns - {t}, Unlock(s.locks, t), s.used, s.log + [Entry(t, s.txns[t].req, out.events, out.announced)])
  }

  /** Two steps per operation still to do, one less once its row is locked. */
  function StepsLeft(s: Sys, t: TxnId): int
    requires t in s.txns
  {
    var txn := s.txns[t];
    2 * (|txn.actions| - txn.pc) +
    (if txn.pc < |txn.actions| && KeyOf(txn.actions[txn.pc]) !in s.locks then 1 else 0)
  }

  lemma CommitAlone(s: Sys, t: TxnId)
    requires Unobstructed(s, t) && TxnOk(s, t) && RequestOk(s, t) && Enabled(s, CommitTxn(t))
    ensures CommittedAlone(s, t, Next(s, CommitTxn(t)))
  {
    FinishedIsServed(s, t);
  }

  function RowsOf(txn: Txn): set<RowKey> {
    set a | a in txn.actions :: KeyOf(a)
  }

  /** Between the two states only `t` has moved on, locking rows of its own and committing nothing. */
  ghost predicate OnlyMoved(s: Sys, t: TxnId, s': Sys)
    requires t in s.txns
  {
    && t in s'.txns && s'.txns[t].req == s.txns[t].req && s'.txns[t].actions == s.txns[t].actions
    && s'.txns[t].snapshot == s.txns[t].snapshot
    && s'.txns - {t} == s.txns - {t}
    && s'.committed == s.committed && s'.used == s.used && s'.log == s.log
    && Unlock(s'.locks, t) == Unlock(s.locks, t)
    && (forall k | Holds(s', t, k) :: Holds(s, t, k) || k in RowsOf(s.txns[t]))
  }

  /** An unobstructed transaction with operations left can always take a step towards its end. */
  lemma AdvanceAlone(s: Sys, t: TxnId) returns (step: Step)
    requires Unobstructed(s, t) && TxnOk(s, t) && RequestOk(s, t)
    requires s.txns[t].pc < |s.txns[t].actions|
    ensures step.t == t && !step.Begin? && !step.CommitTxn? && Enabled(s, step)
    ensures OnlyMoved(s, t, Next(s, step)) && Unobstructed(Next(s, step), t)
    ensures StepsLeft(Next(s, step), t) < StepsLeft(s, t)
  {
    var txn := s.txns[t];
    if KeyOf(txn.actions[txn.pc]) !in s.locks {
      step := Lock(t);
      LockMoves(s, t);
    } else {
      NextOperationWorks(s, t);
      step := Exec(t);
      assert Next(s, step).txns - {t} == s.txns - {t};
    }
  }

  lemma LockMoves(s: Sys, t: TxnId)
    requires Enabled(s, Lock(t))
    ensures OnlyMoved(s, t, Next(s, Lock(t)))
  {
    var a := s.txns[t].actions[s.txns[t].pc];
    assert a in s.txns[t].actions && KeyOf(a) in RowsOf(s.txns[t]);
  }

  /** A transaction nobody obstructs can do all its operations. */
  lemma {:induction false} RunToReady(db: DB, steps: seq<Step>, t: TxnId) returns (full: seq<Step>)
    requires ValidRun(Opening(db), steps) && Unobstructed(After(Opening(db), steps), t)
    ensures ValidRun(Opening(db), full)
    ensures OnlyMoved(After(Opening(db), steps), t, After(Opening(db), full))
    ensures Unobstructed(After(Opening(db), full), t) && Enabled(After(Opening(db), full), CommitTxn(t))
    decreases StepsLeft(After(Opening(db), steps), t)
  {
    var s := After(Opening(db), steps);
    Serializable(db, steps);
    assert TxnOk(s, t) && RequestOk(s, t);
    if s.txns[t].pc == |s.txns[t].actions| {
      full := steps;
    } else {
      var step := AdvanceAlone(s, t);
      StepExtends(Opening(db), steps, step);
      full := RunToReady(db, steps + [step], t);
    }
  }

  /** And then commit: the database is its request served on what was committed, and its locks are free. */
  lemma RunToCommit(db: DB, steps: seq<Step>, t: TxnId) returns (full: seq<Step>)
    requires ValidRun(Opening(db), steps) && Unobstructed(After(Opening(db), steps), t)
    ensures ValidRun(Opening(db), full)
    ensures CommittedAlone(After(Opening(db), steps), t, After(Opening(db), full))
  {
    var ready := RunToReady(db, steps, t);
    Serializable(db, ready);
    var s := After(Opening(db), ready);
    assert TxnOk(s, t) && RequestOk(s, t);
    CommitAlone(s, t);
    StepExtends(Opening(db), ready, CommitTxn(t));
    full := ready + [CommitTxn(t)];
  }

  // ---------------------------------------------------------------- rows, not tables, are locked

  /** The request can be begun and would succeed. */
  ghost predicate Servable(db: DB, req: Request) {
    Serve(db, req).reply.Ok? && (req.Cancel? && req.id in db.orders ==> req.seen == db.orders[req.id].status)
  }

  /** The rows the request locks when it begins on this database. */
  function RowsNeeded(db: DB, req: Request): set<RowKey> {
    set a | a in Program(req, Snapshot(db, req)) :: KeyOf(a)
  }

  /** Both transactions have done everything and hold every row they need, at the same time. */
  ghost predicate BothHold(db: DB, s: Sys, a: Request, b: Request) {
    && s.committed == db && s.log == [] && s.txns.Keys == {1, 2}
    && s.txns[1].req == a && s.txns[1].snapshot == Snapshot(db, a) && s.txns[2].req == b && s.txns[2].snapshot == Snapshot(db, b)
    && Enabled(s, CommitTxn(1)) && Enabled(s, CommitTxn(2))
    && (forall k | k in RowsNeeded(db, a) :: Holds(s, 1, k))
    && (forall k | k in RowsNeeded(db, b) :: Holds(s, 2, k))
  }

  lemma TwoBegun(db: DB, a: Request, b: Request) returns (steps: seq<Step>)
    requires Servable(db, a) && Servable(db, b)
    ensures ValidRun(Opening(db), steps)
    ensures var s := After(Opening(db), steps);
      && s.committed == db && s.locks == map[] && s.log == [] && s.txns.Keys == {1, 2}
      && s.txns[1] == Txn(a, Snapshot(db, a), Program(a, Snapshot(db, a)), 0, DB(map[], map[]), [], [])
      && s.txns[2] == Txn(b, Snapshot(db, b), Program(b, Snapshot(db, b)), 0, DB(map[], map[]), [], [])
  {
    assert ValidRun(Opening(db), []);
    StepExtends(Opening(db), [], Begin(1, a));
    StepExtends(Opening(db), [] + [Begin(1, a)], Begin(2, b));
    steps := [] + [Begin(1, a)] + [Begin(2, b)];
  }

  lemma HoldsAll(s: Sys, t: TxnId)
    requires t in s.txns && TxnOk(s, t) && s.txns[t].pc == |s.txns[t].actions|
    ensures forall k | k in RowsOf(s.txns[t]) :: Holds(s, t, k)
  {
    forall a | a in s.txns[t].actions ensures Holds(s, t, KeyOf(a)) {
      var i :| 0 <= i < |s.txns[t].actions| && s.txns[t].actions[i] == a;
    }
  }

  /** Two requests that need different rows do not wait for each other: both can hold all of theirs at once. */
  lemma DisjointBothHold(db: DB, a: Request, b: Request) returns (steps: seq<Step>)
    requires Servable(db, a) && Servable(db, b) && RowsNeeded(db, a) !! RowsNeeded(db, b)
    ensures ValidRun(Opening(db), steps) && BothHold(db, After(Opening(db), steps), a, b)
  {
    var begun := TwoBegun(db, a, b);
    var first := RunToReady(db, begun, 1);
    var s := After(Opening(db), first);
    OthersUntouched(After(Opening(db), begun), 1, s, 2);
    forall i | 0 <= i < |s.txns[2].actions| ensures KeyOf(s.txns[2].actions[i]) !in s.locks {
      OnlyOwnLocks(After(Opening(db), begun), 1, s, KeyOf(s.txns[2].actions[i]));
    }
    steps := RunToReady(db, first, 2);
    OthersUntouched(s, 2, After(Opening(db), steps), 1);
    Serializable(db, steps);
    HoldsAll(After(Opening(db), steps), 1);
    HoldsAll(After(Opening(db), steps), 2);
  }

  lemma OthersUntouched(s: Sys, t: TxnId, s': Sys, u: TxnId)
    requires t in s.txns && OnlyMoved(s, t, s') && u in s.txns && u != t
    ensures u in s'.txns && s'.txns[u] == s.txns[u] && s'.txns.Keys == s.txns.Keys
  {
    assert u in s.txns - {t};
    assert s'.txns.Keys == (s'.txns - {t}).Keys + {t} && s.txns.Keys == (s.txns - {t}).Keys + {t};
  }

  lemma OnlyOwnLocks(s: Sys, t: TxnId, s': Sys, k: RowKey)
    requires t in s.txns && OnlyMoved(s, t, s') && s.locks == map[] && k !in RowsOf(s.txns[t])
    ensures k !in s'.locks
  {
    assert k !in Unlock(s'.locks, t) && !Holds(s', t, k);
  }

  /** And both then commit. */
  lemma DisjointBothCommit(db: DB, a: Request, b: Request) returns (steps: seq<Step>)
    requires Servable(db, a) && Servable(db, b) && RowsNeeded(db, a) !! RowsNeeded(db, b)
    ensures ValidRun(Opening(db), steps)
    ensures var s := After(Opening(db), steps);
      Logged(s.log) == [a, b] && s.committed == Serve(Serve(db, a).db, b).db
  {
    var both := DisjointBothHold(db, a, b);
    var first := RunToCommit(db, both, 1);
    steps := SecondCommits(db, After(Opening(db), both), first, a, b);
  }

  lemma SecondCommits(db: DB, s: Sys, first: seq<Step>, a: Request, b: Request) returns (steps: seq<Step>)
    requires BothHold(db, s, a, b) && Servable(db, b)
    requires ValidRun(Opening(db), first) && CommittedAlone(s, 1, After(Opening(db), first))
    ensures ValidRun(Opening(db), steps)
    ensures var s' := After(Opening(db), steps);
      Logged(s'.log) == [a, b] && s'.committed == Serve(Serve(db, a).db, b).db
  {
    var one := After(Opening(db), first);
    assert 2 in one.txns && one.txns[2] == s.txns[2];
    steps := ReadyCommits(db, first, 2);
  }

  lemma ReadyCommits(db: DB, steps: seq<Step>, t: TxnId) returns (full: seq<Step>)
    requires ValidRun(Opening(db), steps) && Enabled(After(Opening(db), steps), CommitTxn(t))
    requires var txn := After(Opening(db), steps).txns[t]; !txn.req.Place? ==> txn.snapshot.Some?
    ensures ValidRun(Opening(db), full)
    ensures CommittedAlone(After(Opening(db), steps), t, After(Opening(db), full))
  {
    Serializable(db, steps);
    FinishedIsServed(After(Opening(db), steps), t);
    full := RunToCommit(db, steps, t);
  }

  /** Each request succeeds, and each cancel carries the status stored at that point. */
  ghost predicate SerialAndFresh(db: DB, reqs: seq<Request>) {
    reqs == [] ||
    (SerialAndFresh(db, reqs[..|reqs| - 1]) && Fresh(ServeAll(db, reqs[..|reqs| - 1]), reqs[|reqs| - 1]))
  }

  ghost predicate Fresh(before: DB, req: Request) {
    && Serve(before, req).reply.Ok?
    && (req.Cancel? ==> req.id in before.orders && req.seen == before.orders[req.id].status)
  }

  /** From an idle system, a fresh request that would succeed can be begun and committed. */
  lemma ServeOne(db: DB, steps: seq<Step>, t: TxnId, req: Request) returns (full: seq<Step>)
    requires ValidRun(Opening(db), steps) && Enabled(After(Opening(db), steps), Begin(t, req))
    requires After(Opening(db), steps).txns == map[] && After(Opening(db), steps).locks == map[]
    requires Serve(After(Opening(db), steps).committed, req).reply.Ok?
    ensures ValidRun(Opening(db), full)
    ensures var s := After(Opening(db), steps); var out := Serve(s.committed, req);
      After(Opening(db), full) ==
      Sys(out.db, map[], map[], s.used + {t}, s.log + [Entry(t, req, out.events, out.announced)])
  {
    var s := After(Opening(db), steps);
    StepExtends(Opening(db), steps, Begin(t, req));
    var begun := Next(s, Begin(t, req));
    assert begun.txns - {t} == map[];
    full := RunToCommit(db, steps + [Begin(t, req)], t);
  }

  /** The run is over and has committed exactly these requests. */
  ghost predicate Realizes(db: DB, steps: seq<Step>, reqs: seq<Request>) {
    && ValidRun(Opening(db), steps)
    && var s := After(Opening(db), steps);
    && Logged(s.log) == reqs && s.committed == ServeAll(db, reqs)
    && s.txns == map[] && s.locks == map[] && (forall t | t in s.used :: t < |reqs|)
  }

  lemma RealizeOneMore(db: DB, before: seq<Step>, shorter: seq<Request>, req: Request) returns (steps: seq<Step>)
    requires Realizes(db, before, shorter)
    requires Fresh(ServeAll(db, shorter), req)
    ensures Realizes(db, steps, shorter + [req])
  {
    var s := After(Opening(db), before);
    steps := ServeOne(db, before, |shorter|, req);
    assert Logged(After(Opening(db), steps).log) == Logged(s.log) + [req];
    ServeAllExtends(db, shorter, req);
  }

  /** The converse of serializability: every serial run of successful requests is an interleaving. */
  lemma {:induction false} EverySerialRunHappens(db: DB, reqs: seq<Request>) returns (steps: seq<Step>)
    requires SerialAndFresh(db, reqs)
    ensures Realizes(db, steps, reqs)
  {
    if reqs == [] {
      steps := [];
      assert Realizes(db, [], []);
    } else {
      var before := EverySerialRunHappens(db, reqs[..|reqs| - 1]);
      steps := RealizeOneMore(db, before, reqs[..|reqs| - 1], reqs[|reqs| - 1]);
      assert reqs[..|reqs| - 1] + [reqs[|reqs| - 1]] == reqs;
    }
  }

  lemma BothBegin(db: DB, id: OrderId) returns (begun: seq<Step>)
    requires id in db.orders && db.orders[id].status == Pending
    ensures ValidRun(Opening(db), begun)
    ensures var s := After(Opening(db), begun);
      && s.committed == db && s.locks == map[] && s.log == [] && s.txns.Keys == {1, 2}
      && s.txns[1].req == s.txns[2].req == Cancel(id, Pending)
      && s.txns[1].snapshot.Some? && s.txns[2].snapshot.Some?
  {
    var cancel := Cancel(id, Pending);
    assert ValidRun(Opening(db), []);
    StepExtends(Opening(db), [], Begin(1, cancel));
    StepExtends(Opening(db), [] + [Begin(1, cancel)], Begin(2, cancel));
    begun := [] + [Begin(1, cancel)] + [Begin(2, cancel)];
  }

  lemma CancelGoesThrough(db: DB, id: OrderId)
    requires Sound(db) && id in db.orders
    ensures var out := Serve(db, Cancel(id, Pending));
      out.reply.Ok? && Sound(out.db) && id in out.db.orders
  {
    SettleOutcome(db, id, Release, Cancelled);
    ServeKeepsSound(db, Cancel(id, Pending));
  }

  lemma BothCommit(db: DB, id: OrderId) returns (steps: seq<Step>)
    requires Sound(db) && id in db.orders && db.orders[id].status == Pending
    ensures ValidRun(Opening(db), steps)
    ensures var s := After(Opening(db), steps); var cancel := Cancel(id, Pending);
      && Logged(s.log) == [cancel, cancel]
      && s.committed == Serve(Serve(db, cancel).db, cancel).db
  {
    var begun := BothBegin(db, id);
    CancelGoesThrough(db, id);
    CancelGoesThrough(Serve(db, Cancel(id, Pending)).db, id);
    var first := RunToCommit(db, begun, 1);
    steps := RunToCommit(db, first, 2);
  }

  /**
    The unlocked snapshot is the gap: two cancels that read PENDING before either commits both go
    through, whatever their locks, and the ledger stays exact only if no other order had reserved
    anything of the cancelled order's products.
  */
  lemma StaleCancelsBothCommit(base: Stock, db: DB, id: OrderId) returns (steps: seq<Step>)
    requires Inv(base, db) && id in db.orders && db.orders[id].status == Pending
    ensures ValidRun(Opening(db), steps)
    ensures Logged(After(Opening(db), steps).log) == [Cancel(id, Pending), Cancel(id, Pending)]
    ensures Exact(base, After(Opening(db), steps).committed) <==> SoleReserver(db, id)
  {
    steps := BothCommit(db, id);
    CancelTwiceIff(base, db, id);
  }
}
