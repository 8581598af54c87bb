/**
  The ledger results carried over to every interleaving: what is committed is a serial run, so its
  bounds, its drift and, where the committed requests were clean, its exact ledger follow.
*/
module ConcurrentLedger {
  import opened Common
  import opened Inventory
  import opened Orders
  import opened Ledger
  import opened Drift
  import opened Replay
  import opened Concurrency

  lemma CommittedIsSerial(db: DB, steps: seq<Step>)
    requires ValidRun(Opening(db), steps)
    ensures After(Opening(db), steps).committed == ServeAll(db, Logged(After(Opening(db), steps).log))
  {
    Serializable(db, steps);
  }

  /** In every interleaving the committed table is in bounds and drifts by at most the stray settlements. */
  lemma CommittedDrift(base: Stock, db: DB, steps: seq<Step>, p: ProductId)
    requires Inv(base, db) && p in base && ValidRun(Opening(db), steps)
    ensures DriftAt(base, db, Logged(After(Opening(db), steps).log), After(Opening(db), steps).committed, p)
  {
    CommittedIsSerial(db, steps);
    DriftBound(base, db, Logged(After(Opening(db), steps).log), p);
  }

  /** All published events of the committed transactions, in commit order. */
  function LoggedEvents(log: seq<Entry>): seq<StockEvent> {
    if log == [] then [] else LoggedEvents(log[..|log| - 1]) + log[|log| - 1].events
  }

  lemma OneMoreLogged(db: DB, log: seq<Entry>, last: Entry)
    requires LoggedEvents(log) == Committed(db, Logged(log))
    requires var out := Serve(ServeAll(db, Logged(log)), last.req); out.reply.Ok? && out.events == last.events
    ensures LoggedEvents(log + [last]) == Committed(db, Logged(log + [last]))
  {
    assert (log + [last])[..|log + [last]| - 1] == log;
    assert Logged(log + [last]) == Logged(log) + [last.req];
  }

  lemma {:induction false} LoggedEventsAreCommitted(db: DB, s: Sys, n: nat)
    requires LogOk(db, s) && n <= |s.log|
    ensures LoggedEvents(s.log[..n]) == Committed(db, Logged(s.log[..n]))
  {
    if n == 0 {
    } else {
      LoggedEventsAreCommitted(db, s, n - 1);
      assert s.log[..n] == s.log[..n - 1] + [s.log[n - 1]];
      assert EntryOk(db, s.log, n - 1);
      OneMoreLogged(db, s.log[..n - 1], s.log[n - 1]);
    }
  }

  /**
    Where every committed request was clean at its commit, the interleaved run ends on the exact
    ledger, and the committed transactions' events replay to the committed stock table.
  */
  lemma CommittedExact(base: Stock, db: DB, steps: seq<Step>)
    requires Inv(base, db) && ValidRun(Opening(db), steps)
    requires CleanRun(db, Logged(After(Opening(db), steps).log))
    ensures var s := After(Opening(db), steps);
      && Inv(base, s.committed)
      && Replays(db.stock, LoggedEvents(s.log), s.committed.stock)
      && Faithful(db.stock, LoggedEvents(s.log))
  {
    var s := After(Opening(db), steps);
    Serializable(db, steps);
    ExactLedger(base, db, Logged(s.log));
    EventLogReplays(base, db, Logged(s.log));
    LoggedEventsAreCommitted(db, s, |s.log|);
    assert s.log[..|s.log|] == s.log;
  }

  lemma LogIsServed(db: DB, s: Sys)
    requires LogOk(db, s)
    ensures AllServed(db, Logged(s.log))
  {
    forall i | 0 <= i < |s.log| ensures ServedAt(db, Logged(s.log), i) {
      assert EntryOk(db, s.log, i);
      assert Logged(s.log)[..i] == Logged(s.log[..i]);
    }
  }

  /**
    The same without a word about database states: an interleaved run is clean exactly if no order is
    settled by two committed requests, nor one that was settled at the start, and it is then exact.
  */
  lemma SettledOnceIsExact(base: Stock, db: DB, steps: seq<Step>)
    requires Inv(base, db) && ValidRun(Opening(db), steps)
    ensures var s := After(Opening(db), steps);
      && (CleanRun(db, Logged(s.log)) <==> SettledOnce(db, Logged(s.log)))
      && (SettledOnce(db, Logged(s.log)) ==>
            Inv(base, s.committed) && Replays(db.stock, LoggedEvents(s.log), s.committed.stock))
  {
    var s := After(Opening(db), steps);
    Serializable(db, steps);
    LogIsServed(db, s);
    CleanIffSettledOnce(db, Logged(s.log));
    if SettledOnce(db, Logged(s.log)) {
      CommittedExact(base, db, steps);
    }
  }

  lemma RefusedNow(s: Sys, t: TxnId)
    requires t in s.txns && TxnOk(s, t) && RequestOk(s, t) && s.txns[t].pc < |s.txns[t].actions|
    requires Act(View(s, t), s.txns[t].actions[s.txns[t].pc]).Err?
    requires !s.txns[t].req.Place? ==> s.txns[t].snapshot.Some?
    ensures Serve(s.committed, s.txns[t].req).reply == Err(Act(View(s, t), s.txns[t].actions[s.txns[t].pc]).error)
  {
    var txn := s.txns[t];
    NextDecides(s.committed, txn.actions, txn.pc, Effect(View(s, t), txn.events, txn.announced));
    ProgramIsServe(s.committed, txn.req, txn.snapshot);
  }

  /** The next operation of the open transaction `t` would raise. */
  predicate Refused(s: Sys, t: TxnId) {
    && t in s.txns && s.txns[t].pc < |s.txns[t].actions|
    && Act(View(s, t), s.txns[t].actions[s.txns[t].pc]).Err?
    && (!s.txns[t].req.Place? ==> s.txns[t].snapshot.Some?)
  }

  /**
    A refusal is genuine: when an operation of an open transaction is refused, serving its whole
    request on what is committed at that moment is refused with the same error.
  */
  lemma RefusalIsGenuine(db: DB, steps: seq<Step>, t: TxnId)
    requires ValidRun(Opening(db), steps) && Refused(After(Opening(db), steps), t)
    ensures var s := After(Opening(db), steps);
      Serve(s.committed, s.txns[t].req).reply == Err(Act(View(s, t), s.txns[t].actions[s.txns[t].pc]).error)
  {
    Serializable(db, steps);
    RefusedNow(After(Opening(db), steps), t);
  }

  /** A row operation with amounts as the services pass them. */
  predicate Sane(a: Action) {
    a.StockCall? && a.kind != Reserve ==> a.part.amount >= 1
  }

  lemma {:induction false} ActAllBounded(db: DB, actions: seq<Action>)
    requires Bounded(db.stock) && forall i | 0 <= i < |actions| :: Sane(actions[i])
    ensures ActAll(db, actions).Ok? ==> Bounded(ActAll(db, actions).value.db.stock)
  {
    if actions == [] {
    } else {
      var shorter := actions[..|actions| - 1];
      assert forall i | 0 <= i < |shorter| :: shorter[i] == actions[i];
      ActAllBounded(db, shorter);
      assert Sane(actions[|actions| - 1]);
    }
  }

  lemma {:induction false} LineActionsSane(id: OrderId, items: seq<Item>)
    ensures forall i | 0 <= i < |LineActions(id, items)| :: Sane(LineActions(id, items)[i])
  {
    if items == [] {
    } else {
      LineActionsSane(id, items[..|items| - 1]);
      assert forall a | a in ItemActions(id, items[|items| - 1]) :: Sane(a);
      assert forall a | a in LineActions(id, items[..|items| - 1]) :: Sane(a);
      assert forall a | a in LineActions(id, items) :: Sane(a);
    }
  }

  lemma ProgramSane(req: Request, snapshot: Option<Order>)
    ensures forall i | 0 <= i < |Program(req, snapshot)| :: Sane(Program(req, snapshot)[i])
  {
    if req.Place? {
      LineActionsSane(req.id, req.items);
    }
  }

  /** At every point of every interleaving, committed rows and uncommitted views alike keep `reserved <= quantity`. */
  lemma ViewsBounded(base: Stock, db: DB, steps: seq<Step>, t: TxnId)
    requires Inv(base, db) && ValidRun(Opening(db), steps) && t in After(Opening(db), steps).txns
    ensures Bounded(After(Opening(db), steps).committed.stock)
    ensures Bounded(View(After(Opening(db), steps), t).stock)
  {
    var s := After(Opening(db), steps);
    Serializable(db, steps);
    AlwaysBounded(db, Logged(s.log));
    assert TxnOk(s, t) && RequestOk(s, t);
    var txn := s.txns[t];
    ProgramSane(txn.req, txn.snapshot);
    ActAllBounded(s.committed, txn.actions[..txn.pc]);
  }
}
