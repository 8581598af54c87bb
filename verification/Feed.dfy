/**
  The same history under many writers: several consumer processes append to one recipient's list,
  and `lpush`, `ltrim` and `expire` are separate Redis commands that interleave freely. A process
  that dies between two commands, or whose handler raises, is a writer that never moves again.
*/
module Feed {
  import opened Common
  import opened Notifications

  type WriterId = int

  type Seconds = x: int | x >= 1 witness 1

  /** Between the commands of one `append`. */
  datatype Writing = Pushed(recipient: string) | Trimmed(recipient: string)

  datatype Redis = Redis(
    lists: Lists,
    expires: map<string, nat>,
    now: nat,
    ttl: Seconds,
    writers: map<WriterId, Writing>)

  datatype Command =
    | Receive(w: WriterId, raw: Raw)  // parse, route, LPUSH
    | Trim(w: WriterId)               // LTRIM key 0 99
    | Expire(w: WriterId)             // EXPIRE key ttl
    | Wait(seconds: nat)              // time passes; lists whose time is over vanish

  predicate GoesTo(raw: Raw, r: string) {
    Appended(raw).Some? && Appended(raw).value.Key() == r
  }

  predicate Over(s: Redis, now: nat, r: string) {
    r in s.expires && s.expires[r] <= now
  }

  predicate Can(s: Redis, c: Command) {
    match c
    case Receive(w, _) => w !in s.writers
    case Trim(w) => w in s.writers && s.writers[w].Pushed?
    case Expire(w) => w in s.writers && s.writers[w].Trimmed?
    case Wait(_) => true
  }

  function Do(s: Redis, c: Command): Redis
    requires Can(s, c)
  {
    match c
    case Receive(w, raw) =>
      if Appended(raw).None? then s
      else
        var d := Appended(raw).value;
        s.(lists := s.lists[d.Key() := [d.note] + ListOf(s.lists, d.Key())],
           writers := s.writers[w := Pushed(d.Key())])
    case Trim(w) =>
      var r := s.writers[w].recipient;
      s.(lists := if r in s.lists then s.lists[r := Range(s.lists[r], 0, MAX_HISTORY_PER_RECIPIENT - 1)] else s.lists,
         writers := s.writers[w := Trimmed(r)])
    case Expire(w) =>
      var r := s.writers[w].recipient;
      s.(expires := if r in s.lists then s.expires[r := s.now + s.ttl] else s.expires,
         writers := s.writers - {w})
    case Wait(seconds) =>
      var now := s.now + seconds;
      s.(now := now,
         lists := map r | r in s.lists && !Over(s, now, r) :: s.lists[r],
         expires := map r | r in s.expires && !Over(s, now, r) :: s.expires[r])
  }

  ghost predicate ValidCommands(ttl: Seconds, cs: seq<Command>)
    decreases |cs|, 0
  {
    cs == [] || (ValidCommands(ttl, cs[..|cs| - 1]) && Can(After(ttl, cs[..|cs| - 1]), cs[|cs| - 1]))
  }

  ghost function After(ttl: Seconds, cs: seq<Command>): Redis
    requires ValidCommands(ttl, cs)
    decreases |cs|, 1
  {
    if cs == [] then Redis(map[], map[], 0, ttl, map[]) else Do(After(ttl, cs[..|cs| - 1]), cs[|cs| - 1])
  }

  // ---------------------------------------------------------------- what the commands say

  function Elapsed(cs: seq<Command>): nat {
    if cs == [] then 0
    else Elapsed(cs[..|cs| - 1]) + (if cs[|cs| - 1].Wait? then cs[|cs| - 1].seconds else 0)
  }

  /** What one command appends for the recipient. */
  function Pushes(c: Command, r: string): seq<Note> {
    if c.Receive? && GoesTo(c.raw, r) then [Appended(c.raw).value.note] else []
  }

  function Received(cs: seq<Command>, r: string): seq<Note> {
    if cs == [] then [] else Received(cs[..|cs| - 1], r) + Pushes(cs[|cs| - 1], r)
  }

  /** What was appended for the recipient since its list was last absent. */
  ghost function Log(ttl: Seconds, cs: seq<Command>, r: string): seq<Note>
    requires ValidCommands(ttl, cs)
    decreases |cs|
  {
    if cs == [] || r !in After(ttl, cs).lists then []
    else Log(ttl, cs[..|cs| - 1], r) + Pushes(cs[|cs| - 1], r)
  }

  /** When an EXPIRE was last completed on the recipient's list as it is now. */
  ghost function LastExpire(ttl: Seconds, cs: seq<Command>, r: string): Option<nat>
    requires ValidCommands(ttl, cs)
    decreases |cs|
  {
    if cs == [] || r !in After(ttl, cs).lists then None
    else
      var shorter, c := cs[..|cs| - 1], cs[|cs| - 1];
      if c.Expire? && After(ttl, shorter).writers[c.w].recipient == r then Some(Elapsed(shorter))
      else LastExpire(ttl, shorter, r)
  }

  /** Appends to the recipient that have pushed and not yet trimmed. */
  function InFlight(s: Redis, r: string): set<WriterId> {
    set w | w in s.writers && s.writers[w] == Pushed(r)
  }

  /** The list is the newest part of the log, and never too short nor much too long. */
  predicate Refines(list: seq<Note>, log: seq<Note>, inFlight: nat) {
    && list == Newest(log, |list|)
    && Min(MAX_HISTORY_PER_RECIPIENT, |log|) <= |list| <= |log|
    && |list| <= MAX_HISTORY_PER_RECIPIENT + inFlight
  }

  ghost predicate ListOk(ttl: Seconds, cs: seq<Command>, s: Redis, r: string)
    requires ValidCommands(ttl, cs)
  {
    && Refines(ListOf(s.lists, r), Log(ttl, cs, r), |InFlight(s, r)|)
    && (r !in s.lists ==> r !in s.expires && Log(ttl, cs, r) == [])
    && (match LastExpire(ttl, cs, r)
        case None => r !in s.expires
        case Some(t) => r in s.expires && s.expires[r] == t + ttl && s.now < t + ttl)
  }

  /** A push by a writer that was not in flight. */
  lemma OnePushed(list: seq<Note>, log: seq<Note>, inFlight: set<WriterId>, w: WriterId, note: Note)
    requires Refines(list, log, |inFlight|) && w !in inFlight
    ensures Refines([note] + list, log + [note], |inFlight + {w}|)
  {
    NewestExtends(log, note, |list| + 1);
  }

  /** A trim by a writer that was in flight. */
  lemma OneTrimmed(list: seq<Note>, log: seq<Note>, inFlight: set<WriterId>, w: WriterId)
    requires Refines(list, log, |inFlight|) && w in inFlight
    ensures Refines(Range(list, 0, MAX_HISTORY_PER_RECIPIENT - 1), log, |inFlight - {w}|)
  {
    NewestPrefix(log, |list|, |Range(list, 0, MAX_HISTORY_PER_RECIPIENT - 1)|);
  }

  ghost predicate RedisOk(ttl: Seconds, cs: seq<Command>)
    requires ValidCommands(ttl, cs)
  {
    && After(ttl, cs).now == Elapsed(cs) && After(ttl, cs).ttl == ttl
    && forall r :: ListOk(ttl, cs, After(ttl, cs), r)
  }

  lemma CommandExtends(ttl: Seconds, cs: seq<Command>, c: Command, r: string)
    requires ValidCommands(ttl, cs) && Can(After(ttl, cs), c)
    ensures ValidCommands(ttl, cs + [c]) && After(ttl, cs + [c]) == Do(After(ttl, cs), c)
    ensures Elapsed(cs + [c]) == Elapsed(cs) + (if c.Wait? then c.seconds else 0)
    ensures Log(ttl, cs + [c], r) ==
      if r !in Do(After(ttl, cs), c).lists then [] else Log(ttl, cs, r) + Pushes(c, r)
    ensures LastExpire(ttl, cs + [c], r) ==
      if r !in Do(After(ttl, cs), c).lists then None
      else if c.Expire? && After(ttl, cs).writers[c.w].recipient == r then Some(Elapsed(cs))
      else LastExpire(ttl, cs, r)
  {
    assert (cs + [c])[..|cs + [c]| - 1] == cs;
  }

  lemma InFlightAfterPush(s: Redis, w: WriterId, raw: Raw, r: string)
    requires Can(s, Receive(w, raw))
    ensures InFlight(Do(s, Receive(w, raw)), r) == if GoesTo(raw, r) then InFlight(s, r) + {w} else InFlight(s, r)
  {
  }

  lemma PushKeeps(ttl: Seconds, cs: seq<Command>, w: WriterId, raw: Raw, r: string)
    requires ValidCommands(ttl, cs) && RedisOk(ttl, cs) && Can(After(ttl, cs), Receive(w, raw))
    ensures ValidCommands(ttl, cs + [Receive(w, raw)])
    ensures ListOk(ttl, cs + [Receive(w, raw)], Do(After(ttl, cs), Receive(w, raw)), r)
  {
    var s, c := After(ttl, cs), Receive(w, raw);
    assert ListOk(ttl, cs, s, r);
    CommandExtends(ttl, cs, c, r);
    InFlightAfterPush(s, w, raw, r);
    if GoesTo(raw, r) {
      OnePushed(ListOf(s.lists, r), Log(ttl, cs, r), InFlight(s, r), w, Appended(raw).value.note);
    } else {
      assert Log(ttl, cs, r) + Pushes(c, r) == Log(ttl, cs, r);
    }
  }

  lemma TrimKeeps(ttl: Seconds, cs: seq<Command>, w: WriterId, r: string)
    requires ValidCommands(ttl, cs) && RedisOk(ttl, cs) && Can(After(ttl, cs), Trim(w))
    ensures ValidCommands(ttl, cs + [Trim(w)])
    ensures ListOk(ttl, cs + [Trim(w)], Do(After(ttl, cs), Trim(w)), r)
  {
    var s, s' := After(ttl, cs), Do(After(ttl, cs), Trim(w));
    assert ListOk(ttl, cs, s, r);
    CommandExtends(ttl, cs, Trim(w), r);
    assert Log(ttl, cs, r) + Pushes(Trim(w), r) == Log(ttl, cs, r);
    if r == s.writers[w].recipient {
      OneTrimmed(ListOf(s.lists, r), Log(ttl, cs, r), InFlight(s, r), w);
      assert InFlight(s', r) == InFlight(s, r) - {w};
    } else {
      assert InFlight(s', r) == InFlight(s, r);
    }
  }

  lemma ExpireKeeps(ttl: Seconds, cs: seq<Command>, w: WriterId, r: string)
    requires ValidCommands(ttl, cs) && RedisOk(ttl, cs) && Can(After(ttl, cs), Expire(w))
    ensures ValidCommands(ttl, cs + [Expire(w)])
    ensures ListOk(ttl, cs + [Expire(w)], Do(After(ttl, cs), Expire(w)), r)
  {
    var s := After(ttl, cs);
    assert ListOk(ttl, cs, s, r);
    CommandExtends(ttl, cs, Expire(w), r);
    assert Log(ttl, cs, r) + Pushes(Expire(w), r) == Log(ttl, cs, r);
    assert InFlight(Do(s, Expire(w)), r) == InFlight(s, r);
  }

  lemma WaitKeeps(ttl: Seconds, cs: seq<Command>, seconds: nat, r: string)
    requires ValidCommands(ttl, cs) && RedisOk(ttl, cs)
    ensures ValidCommands(ttl, cs + [Wait(seconds)])
    ensures ListOk(ttl, cs + [Wait(seconds)], Do(After(ttl, cs), Wait(seconds)), r)
  {
    var s, s' := After(ttl, cs), Do(After(ttl, cs), Wait(seconds));
    assert ListOk(ttl, cs, s, r);
    CommandExtends(ttl, cs, Wait(seconds), r);
    assert Log(ttl, cs, r) + Pushes(Wait(seconds), r) == Log(ttl, cs, r);
    assert InFlight(s', r) == InFlight(s, r);
  }

  lemma CommandKeeps(ttl: Seconds, cs: seq<Command>, c: Command)
    requires ValidCommands(ttl, cs) && RedisOk(ttl, cs) && Can(After(ttl, cs), c)
    ensures ValidCommands(ttl, cs + [c]) && RedisOk(ttl, cs + [c])
  {
    CommandExtends(ttl, cs, c, "");
    forall r ensures ListOk(ttl, cs + [c], Do(After(ttl, cs), c), r) {
      match c
      case Receive(w, raw) => PushKeeps(ttl, cs, w, raw, r);
      case Trim(w) => TrimKeeps(ttl, cs, w, r);
      case Expire(w) => ExpireKeeps(ttl, cs, w, r);
      case Wait(seconds) => WaitKeeps(ttl, cs, seconds, r);
    }
  }

  /**
    Capped history refines the log: under every interleaving, each list is the newest part of what was
    appended since it was last absent, at least the newest hundred of it, and at most a hundred plus the
    appends in flight.
  */
  lemma {:induction false} HistoryRefinesLog(ttl: Seconds, cs: seq<Command>)
    requires ValidCommands(ttl, cs)
    ensures RedisOk(ttl, cs)
  {
    if cs == [] {
      assert forall r :: InFlight(After(ttl, cs), r) == {};
    } else {
      HistoryRefinesLog(ttl, cs[..|cs| - 1]);
      CommandKeeps(ttl, cs[..|cs| - 1], cs[|cs| - 1]);
      assert cs == cs[..|cs| - 1] + [cs[|cs| - 1]];
    }
  }

  /**
    When a list goes: only by time passing, and exactly when the time to live has run out since the last
    EXPIRE completed on it. A list no EXPIRE was completed on stays for ever.
  */
  lemma VanishesIff(ttl: Seconds, cs: seq<Command>, c: Command, r: string)
    requires ValidCommands(ttl, cs) && Can(After(ttl, cs), c) && r in After(ttl, cs).lists
    ensures r !in Do(After(ttl, cs), c).lists <==>
      match LastExpire(ttl, cs, r)
      case None => false
      case Some(t) => c.Wait? && Elapsed(cs) + c.seconds >= t + ttl
  {
    HistoryRefinesLog(ttl, cs);
    assert ListOk(ttl, cs, After(ttl, cs), r);
  }

  lemma {:induction false} FreshForTtl(ttl: Seconds, cs: seq<Command>, i: nat, r: string, t: nat)
    requires i <= |cs| && ValidCommands(ttl, cs[..i]) && ValidCommands(ttl, cs)
    requires LastExpire(ttl, cs[..i], r) == Some(t) && Elapsed(cs) < t + ttl
    ensures r in After(ttl, cs).lists
    ensures LastExpire(ttl, cs, r).Some? && LastExpire(ttl, cs, r).value >= t
    decreases |cs|
  {
    if i == |cs| {
      assert cs[..i] == cs;
    } else {
      var shorter := cs[..|cs| - 1];
      assert shorter[..i] == cs[..i];
      FreshForTtl(ttl, shorter, i, r, t);
      LastExpireIsPast(ttl, shorter, r);
      VanishesIff(ttl, shorter, cs[|cs| - 1], r);
    }
  }

  /**
    Kept for the time to live: if less than that has passed since an EXPIRE was completed on a list,
    the list is there, and nothing appended before or after it has been lost but to the cap.
  */
  lemma {:induction false} KeptForTtl(ttl: Seconds, cs: seq<Command>, i: nat, r: string, t: nat)
    requires i <= |cs| && ValidCommands(ttl, cs[..i]) && ValidCommands(ttl, cs)
    requires LastExpire(ttl, cs[..i], r) == Some(t) && Elapsed(cs) < t + ttl
    ensures r in After(ttl, cs).lists
    ensures Log(ttl, cs, r) == Log(ttl, cs[..i], r) + Received(cs[i..], r)
    decreases |cs|
  {
    FreshForTtl(ttl, cs, i, r, t);
    if i == |cs| {
      assert cs[..i] == cs && cs[i..] == [];
    } else {
      var shorter := cs[..|cs| - 1];
      assert shorter[..i] == cs[..i];
      KeptForTtl(ttl, shorter, i, r, t);
      OneMoreReceived(Log(ttl, cs[..i], r), cs, i, r);
    }
  }

  lemma OneMoreReceived(before: seq<Note>, cs: seq<Command>, i: nat, r: string)
    requires i < |cs|
    ensures before + Received(cs[i..], r) == before + Received(cs[..|cs| - 1][i..], r) + Pushes(cs[|cs| - 1], r)
  {
    assert cs[i..][..|cs[i..]| - 1] == cs[..|cs| - 1][i..];
  }

  lemma {:induction false} LastExpireIsPast(ttl: Seconds, cs: seq<Command>, r: string)
    requires ValidCommands(ttl, cs)
    ensures LastExpire(ttl, cs, r).Some? ==> LastExpire(ttl, cs, r).value <= Elapsed(cs)
  {
    if cs == [] {
    } else {
      LastExpireIsPast(ttl, cs[..|cs| - 1], r);
    }
  }

  /** The command is about the recipient's list. */
  predicate Concerns(s: Redis, c: Command, r: string)
    requires Can(s, c)
  {
    match c
    case Receive(_, raw) => GoesTo(raw, r)
    case Trim(w) => s.writers[w].recipient == r
    case Expire(w) => s.writers[w].recipient == r
    case Wait(_) => false
  }

  /** No command from the `i`-th on is about the recipient's list. */
  ghost predicate Undisturbed(ttl: Seconds, cs: seq<Command>, i: nat, r: string)
    requires ValidCommands(ttl, cs)
    decreases |cs|
  {
    |cs| <= i ||
    (Undisturbed(ttl, cs[..|cs| - 1], i, r) && !Concerns(After(ttl, cs[..|cs| - 1]), cs[|cs| - 1], r))
  }

  /** Gone after the time to live: once it has run out with no command for the list, the list is absent. */
  lemma {:induction false} GoneAfterTtl(ttl: Seconds, cs: seq<Command>, i: nat, r: string, t: nat)
    requires i <= |cs| && ValidCommands(ttl, cs[..i]) && ValidCommands(ttl, cs) && Undisturbed(ttl, cs, i, r)
    requires LastExpire(ttl, cs[..i], r) == Some(t)
    ensures if Elapsed(cs) >= t + ttl then r !in After(ttl, cs).lists else LastExpire(ttl, cs, r) == Some(t)
    decreases |cs|
  {
    if i == |cs| {
      assert cs[..i] == cs;
      HistoryRefinesLog(ttl, cs);
      assert ListOk(ttl, cs, After(ttl, cs), r);
    } else {
      var shorter := cs[..|cs| - 1];
      assert shorter[..i] == cs[..i];
      GoneAfterTtl(ttl, shorter, i, r, t);
      if r in After(ttl, shorter).lists {
        VanishesIff(ttl, shorter, cs[|cs| - 1], r);
      }
    }
  }

  /** Writer `w` has got this far with its append to `r`, with nothing lost of the log. */
  ghost predicate Appending(ttl: Seconds, cs: seq<Command>, w: WriterId, r: string, stage: Writing, log: seq<Note>, now: nat) {
    && ValidCommands(ttl, cs)
    && w in After(ttl, cs).writers && After(ttl, cs).writers[w] == stage && stage.recipient == r
    && r in After(ttl, cs).lists && Log(ttl, cs, r) == log && Elapsed(cs) == now
  }

  lemma ReceiveBegins(ttl: Seconds, cs: seq<Command>, w: WriterId, raw: Raw)
    requires ValidCommands(ttl, cs) && w !in After(ttl, cs).writers && Appended(raw).Some?
    ensures var d := Appended(raw).value;
      Appending(ttl, cs + [Receive(w, raw)], w, d.Key(), Pushed(d.Key()), Log(ttl, cs, d.Key()) + [d.note], Elapsed(cs))
  {
    CommandExtends(ttl, cs, Receive(w, raw), Appended(raw).value.Key());
  }

  lemma TrimGoesOn(ttl: Seconds, cs: seq<Command>, w: WriterId, r: string, log: seq<Note>, now: nat)
    requires Appending(ttl, cs, w, r, Pushed(r), log, now)
    ensures Appending(ttl, cs + [Trim(w)], w, r, Trimmed(r), log, now)
  {
    CommandExtends(ttl, cs, Trim(w), r);
    assert log + [] == log;
  }

  lemma ExpireEnds(ttl: Seconds, cs: seq<Command>, w: WriterId, r: string, log: seq<Note>, now: nat)
    requires Appending(ttl, cs, w, r, Trimmed(r), log, now)
    ensures var all := cs + [Expire(w)];
      && ValidCommands(ttl, all) && w !in After(ttl, all).writers
      && LastExpire(ttl, all, r) == Some(now) && Log(ttl, all, r) == log
  {
    CommandExtends(ttl, cs, Expire(w), r);
    assert log + [] == log;
  }

  /** A writer that is not in the middle of an append can always do a whole one, and its EXPIRE completes. */
  lemma AppendCompletes(ttl: Seconds, cs: seq<Command>, w: WriterId, raw: Raw)
    requires ValidCommands(ttl, cs) && w !in After(ttl, cs).writers && Appended(raw).Some?
    ensures var all, r := cs + [Receive(w, raw)] + [Trim(w)] + [Expire(w)], Appended(raw).value.Key();
      && ValidCommands(ttl, all) && w !in After(ttl, all).writers
      && LastExpire(ttl, all, r) == Some(Elapsed(cs))
      && Log(ttl, all, r) == Log(ttl, cs, r) + [Appended(raw).value.note]
  {
    var r, log := Appended(raw).value.Key(), Log(ttl, cs, Appended(raw).value.Key()) + [Appended(raw).value.note];
    ReceiveBegins(ttl, cs, w, raw);
    TrimGoesOn(ttl, cs + [Receive(w, raw)], w, r, log, Elapsed(cs));
    ExpireEnds(ttl, cs + [Receive(w, raw)] + [Trim(w)], w, r, log, Elapsed(cs));
  }

  /** `list_recent` returns exactly the newest notifications for every limit the endpoint accepts, even mid-append. */
  lemma RecentIsNewest(ttl: Seconds, cs: seq<Command>, r: string, limit: int)
    requires ValidCommands(ttl, cs) && 1 <= limit <= 100
    ensures Recent(After(ttl, cs).lists, r, limit) == Newest(Log(ttl, cs, r), limit)
  {
    HistoryRefinesLog(ttl, cs);
    var list := ListOf(After(ttl, cs).lists, r);
    assert ListOk(ttl, cs, After(ttl, cs), r);
    RangeIsNewest(list, Log(ttl, cs, r), limit);
  }

  /**
    Where LRANGE from a capped list agrees with the log, for any limit: as far as the list reaches.
    A limit of 0 asks Redis for everything up to index -1, the whole list, so the endpoint's lower
    bound of 1 matters.
  */
  lemma RangeIsNewest(list: seq<Note>, log: seq<Note>, limit: nat)
    requires list == Newest(log, |list|) && |list| <= |log|
    ensures Range(list, 0, limit - 1) == Newest(log, limit) <==>
            if limit == 0 then list == [] else limit <= |list| || |list| == |log|
  {
    NewestLength(log, limit);
    if limit <= |list| {
      NewestPrefix(log, |list|, limit);
      NewestLength(log, |list|);
    } else if |list| == |log| {
      NewestPrefix(log, limit, |list|);
    }
  }
}
