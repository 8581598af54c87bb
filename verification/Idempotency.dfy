/**
  Idempotency keys over a cache (apps/common/idempotency.py): `get` and `add` are separate cache
  operations, each atomic; entries vanish when their time to live is over.
*/
module Idempotency {
  import opened Common

  const LOCK_TTL_SECONDS: nat := 60
  const RESULT_TTL_SECONDS: nat := 60 * 60 * 24

  /** The cached value: `{"state": "in_progress"}` or `{"state": "done", "result": ...}`. */
  datatype Entry<R> = InProgress | Done(result: R)

  datatype Slot<R> = Slot(entry: Entry<R>, expires: nat)

  type Slots<R> = map<string, Slot<R>>

  function CacheKey(scope: string, user: string, key: string): string {
    "idempotency:" + scope + ":" + user + ":" + key
  }

  lemma ColonSplits(a: string, b: string, restA: string, restB: string)
    requires ':' !in a && ':' !in b && a + ":" + restA == b + ":" + restB
    ensures a == b && restA == restB
  {
    var left, right := a + ":" + restA, b + ":" + restB;
    assert left[|a|] == ':' && right[|b|] == ':';
    assert forall i | 0 <= i < |a| :: left[i] == a[i] && left[i] != ':';
    assert forall i | 0 <= i < |b| :: right[i] == b[i] && right[i] != ':';
    assert left[..|a|] == a && right[..|b|] == b;
    assert left[|a| + 1..] == restA && right[|b| + 1..] == restB;
  }

  /** Two requests of one scope share a cache key exactly when user and Idempotency-Key agree. */
  lemma CacheKeyInjective(scope: string, user: string, key: string, user': string, key': string)
    requires ':' !in user && ':' !in user'  // users are UUIDs
    ensures CacheKey(scope, user, key) == CacheKey(scope, user', key') <==> user == user' && key == key'
  {
    if CacheKey(scope, user, key) == CacheKey(scope, user', key') {
      var prefix := "idempotency:" + scope + ":";
      assert CacheKey(scope, user, key) == prefix + (user + ":" + key);
      assert CacheKey(scope, user', key') == prefix + (user' + ":" + key');
      assert (prefix + (user + ":" + key))[|prefix|..] == user + ":" + key;
      assert (prefix + (user' + ":" + key'))[|prefix|..] == user' + ":" + key';
      ColonSplits(user, user', key, key');
    }
  }

  // ---------------------------------------------------------------- cache operations

  predicate Live<R>(slots: Slots<R>, now: nat, key: string) {
    key in slots && now < slots[key].expires
  }

  function Get<R>(slots: Slots<R>, now: nat, key: string): Option<Entry<R>> {
    if Live(slots, now, key) then Some(slots[key].entry) else None
  }

  function Put<R>(slots: Slots<R>, now: nat, key: string, entry: Entry<R>, ttl: nat): Slots<R> {
    slots[key := Slot(entry, now + ttl)]
  }

  /** `cache.add`: sets the value only if no live one is there. */
  function Added<R>(slots: Slots<R>, now: nat, key: string, entry: Entry<R>, ttl: nat): Slots<R> {
    if Live(slots, now, key) then slots else Put(slots, now, key, entry, ttl)
  }

  datatype Begun<R> = Proceed | Busy | Replay(result: R)

  /** What `begin` returns when nothing happens between its `get` and its `add`. */
  function BeginOutcome<R>(slots: Slots<R>, now: nat, key: string): Begun<R> {
    match Get(slots, now, key)
    case None => Proceed
    case Some(InProgress) => Busy
    case Some(Done(result)) => Replay(result)
  }

  /** No `begin` for another key can tell the two caches apart, now or later. */
  ghost predicate OthersUnaffected<R(!new)>(before: Slots<R>, after: Slots<R>, key: string) {
    forall k: string, t: nat | k != key :: BeginOutcome(after, t, k) == BeginOutcome(before, t, k)
  }

  class Cache<R(!new)> {
    var slots: Slots<R>
    var now: nat

    constructor ()
      ensures slots == map[] && now == 0
    {
      slots := map[];
      now := 0;
    }

    method GetEntry(key: string) returns (entry: Option<Entry<R>>)
      ensures entry == Get(slots, now, key)
    {
      if key in slots && now < slots[key].expires {
        return Some(slots[key].entry);
      }
      return None;
    }

    method AddEntry(key: string, entry: Entry<R>, ttl: nat) returns (added: bool)
      modifies this`slots
      ensures added <==> !Live(old(slots), now, key)
      ensures slots == Added(old(slots), now, key, entry, ttl)
    {
      if key in slots && now < slots[key].expires {
        return false;
      }
      slots := slots[key := Slot(entry, now + ttl)];
      return true;
    }

    /** After "proceed", every other `begin` for the key is turned away until the lock's time is over. */
    method Begin(key: string) returns (outcome: Begun<R>)
      modifies this`slots
      ensures outcome == BeginOutcome(old(slots), now, key)
      ensures slots == if outcome.Proceed? then Put(old(slots), now, key, InProgress, LOCK_TTL_SECONDS) else old(slots)
      ensures outcome.Proceed? ==> slots == old(slots)[key := Slot(InProgress, now + 60)]
      ensures outcome.Proceed? ==> forall t | now <= t < now + LOCK_TTL_SECONDS :: BeginOutcome(slots, t, key) == Busy
      ensures OthersUnaffected(old(slots), slots, key)
    {
      var existing := GetEntry(key);
      if existing.Some? {
        if existing.value.Done? {
          return Replay(existing.value.result);
        }
        return Busy;
      }
      var added := AddEntry(key, InProgress, LOCK_TTL_SECONDS);
      if added {
        return Proceed;
      }
      return Busy;
    }

    /** Every `begin` for the key replays the result until the replay window ends. */
    method Complete(key: string, result: R)
      modifies this`slots
      ensures slots == Put(old(slots), now, key, Done(result), RESULT_TTL_SECONDS)
      ensures slots == old(slots)[key := Slot(Done(result), now + 86400)]
      ensures forall t | now <= t < now + RESULT_TTL_SECONDS :: BeginOutcome(slots, t, key) == Replay(result)
      ensures forall t | now + RESULT_TTL_SECONDS <= t :: BeginOutcome(slots, t, key) == Proceed
      ensures OthersUnaffected(old(slots), slots, key)
    {
      slots := slots[key := Slot(Done(result), now + RESULT_TTL_SECONDS)];
    }

    /** The next `begin` for the key proceeds at once, whoever had stored its entry and whatever it was. */
    method Abandon(key: string)
      modifies this`slots
      ensures slots == old(slots) - {key}
      ensures forall t: nat :: BeginOutcome(slots, t, key) == Proceed
      ensures OthersUnaffected(old(slots), slots, key)
    {
      slots := slots - {key};
    }
  }
}
