/**
  The sliding-window script on one Redis key (LUA_SLIDING_WINDOW, app/services/rate_limiter.py),
  proved against the plain history of admitted units.
 */
module SlidingWindow {
  import opened Common

  /** A sorted-set member `now-slot-salt`. Its score is always its own timestamp, so the score is not stored apart. */
  datatype Member = Member(at: int, slot: nat, salt: nat)

  /** One Redis key: its members and the time at which its TTL removes it. */
  datatype Key = Key(members: set<Member>, expiresAt: Option<int>)

  const ABSENT: Key := Key({}, None)

  /** One call of the script at `now` (milliseconds) with one random salt per unit of cost. */
  datatype Request = Request(now: int, salts: seq<nat>)

  datatype Reply = Reply(allowed: bool, count: nat, resetAt: int)

  /** `window` is in seconds. */
  datatype Limits = Limits(window: nat, limit: int)

  function Millis(l: Limits): nat { l.window * 1000 }

  function NewMembers(r: Request): (ms: set<Member>)
    ensures forall m :: m in ms ==> m.at == r.now
  {
    set i | 0 <= i < |r.salts| :: Member(r.now, i + 1, r.salts[i])
  }

  /** What the key holds at `now`: nothing once its TTL has passed. */
  function Visible(k: Key, now: int): set<Member> {
    if k.expiresAt.Some? && now >= k.expiresAt.value then {} else k.members
  }

  /** The members ZREMRANGEBYSCORE leaves. */
  function Trimmed(l: Limits, k: Key, now: int): set<Member> {
    set m | m in Visible(k, now) && m.at > now - Millis(l)
  }

  predicate IsOldest(ms: set<Member>, t: int) {
    t in (set m | m in ms :: m.at) && forall x :: x in ms ==> t <= x.at
  }

  lemma {:induction false} SomeOldest(ms: set<Member>) returns (t: int)
    requires ms != {}
    ensures IsOldest(ms, t)
    decreases |ms|
  {
    var m :| m in ms;
    if ms == {m} {
      t := m.at;
    } else {
      assert |ms - {m}| < |ms| by { assert ms == (ms - {m}) + {m}; }
      var rest := SomeOldest(ms - {m});
      t := Min(m.at, rest);
      forall x | x in ms ensures t <= x.at { assert x == m || x in ms - {m}; }
    }
  }

  /** The lowest score. */
  function Oldest(ms: set<Member>): (t: int)
    requires ms != {}
    ensures exists m :: m in ms && m.at == t
    ensures forall x :: x in ms ==> t <= x.at
  {
    assert exists t :: IsOldest(ms, t) by { var t := SomeOldest(ms); }
    var t :| t in (set m | m in ms :: m.at) && IsOldest(ms, t);
    t
  }

  predicate Admits(l: Limits, k: Key, r: Request) {
    |Trimmed(l, k, r.now)| + |r.salts| <= l.limit
  }

  /** The key after the script. A key left without members is deleted by Redis, TTL and all. */
  function KeyAfter(l: Limits, k: Key, r: Request): Key {
    var kept := Trimmed(l, k, r.now);
    if Admits(l, k, r) then
      var ms := kept + NewMembers(r);
      if ms == {} then ABSENT else Key(ms, Some(r.now + (l.window + 1) * 1000))
    else if kept == {} then ABSENT
    else Key(kept, k.expiresAt)
  }

  function ReplyTo(l: Limits, k: Key, r: Request): Reply {
    var kept := Trimmed(l, k, r.now);
    if Admits(l, k, r) then Reply(true, |kept| + |r.salts|, r.now + Millis(l))
    else Reply(false, |kept|, if kept == {} then 0 else Oldest(kept) + Millis(l))
  }

  // ---------- histories ----------

  function RunKey(l: Limits, calls: seq<Request>): Key {
    if calls == [] then ABSENT else KeyAfter(l, RunKey(l, calls[..|calls| - 1]), calls[|calls| - 1])
  }

  predicate Admitted(l: Limits, calls: seq<Request>, i: nat)
    requires i < |calls|
  {
    Admits(l, RunKey(l, calls[..i]), calls[i])
  }

  /** Every member ever admitted, never trimmed and never expired. */
  function Log(l: Limits, calls: seq<Request>): set<Member> {
    if calls == [] then {}
    else
      var init, last := calls[..|calls| - 1], calls[|calls| - 1];
      Log(l, init) + (if Admits(l, RunKey(l, init), last) then NewMembers(last) else {})
  }

  /** Units admitted in the half-open interval (from, to], counted call by call. */
  function Units(l: Limits, calls: seq<Request>, from: int, to: int): nat {
    if calls == [] then 0
    else
      var init, last := calls[..|calls| - 1], calls[|calls| - 1];
      Units(l, init, from, to) + (if Admits(l, RunKey(l, init), last) && from < last.now <= to then |last.salts| else 0)
  }

  function InWindow(ms: set<Member>, from: int, to: int): set<Member> {
    set m | m in ms && from < m.at <= to
  }

  ghost predicate Ordered(calls: seq<Request>) {
    forall i, j :: 0 <= i < j < |calls| ==> calls[i].now <= calls[j].now
  }

  /** The stated intent of the random suffix: no admitted member repeats an earlier one. */
  ghost predicate FreshMembers(l: Limits, calls: seq<Request>) {
    forall i :: 0 <= i < |calls| && Admitted(l, calls, i) ==> NewMembers(calls[i]) !! Log(l, calls[..i])
  }

  lemma FreshInit(l: Limits, calls: seq<Request>)
    requires calls != [] && FreshMembers(l, calls)
    ensures FreshMembers(l, calls[..|calls| - 1])
    ensures Admits(l, RunKey(l, calls[..|calls| - 1]), calls[|calls| - 1]) ==>
              NewMembers(calls[|calls| - 1]) !! Log(l, calls[..|calls| - 1])
  {
    var init := calls[..|calls| - 1];
    forall i | 0 <= i < |init| && Admitted(l, init, i) ensures NewMembers(init[i]) !! Log(l, init[..i]) {
      assert init[..i] == calls[..i];
      assert Admitted(l, calls, i);
    }
    assert Admits(l, RunKey(l, init), calls[|init|]) ==> Admitted(l, calls, |init|);
  }

  /**
    The key holds every member of the log that is still in the window at `last`, holds nothing else than log members,
    and outlives each of them by a second.
   */
  ghost predicate Holds(l: Limits, k: Key, log: set<Member>, last: int) {
    && k.members <= log
    && (forall m :: m in log ==> m.at <= last)
    && (forall m :: m in log && m.at > last - Millis(l) ==> m in k.members)
    && (k.expiresAt.Some? ==> forall m :: m in log ==> m.at + Millis(l) + 1000 <= k.expiresAt.value)
  }

  lemma HeldIsShown(l: Limits, k: Key, log: set<Member>, last: int, now: int)
    requires Holds(l, k, log, last) && last <= now
    ensures Trimmed(l, k, now) == InWindow(log, now - Millis(l), now)
  {
  }

  lemma ScriptKeepsHolding(l: Limits, k: Key, log: set<Member>, last: int, r: Request)
    requires Holds(l, k, log, last) && last <= r.now
    ensures Holds(l, KeyAfter(l, k, r), log + (if Admits(l, k, r) then NewMembers(r) else {}), r.now)
  {
    HeldIsShown(l, k, log, last, r.now);
    var kept := Trimmed(l, k, r.now);
    assert forall m :: m in log && m.at > r.now - Millis(l) ==> m in kept;
  }

  lemma {:induction false} RunHolds(l: Limits, calls: seq<Request>)
    requires Ordered(calls) && calls != []
    ensures Holds(l, RunKey(l, calls), Log(l, calls), calls[|calls| - 1].now)
  {
    hide KeyAfter, Admits, Holds;
    var init, last := calls[..|calls| - 1], calls[|calls| - 1];
    if init == [] {
      assert Holds(l, ABSENT, {}, last.now) by { AbsentHoldsNothing(l, last.now); }
      ScriptKeepsHolding(l, ABSENT, {}, last.now, last);
    } else {
      RunHolds(l, init);
      ScriptKeepsHolding(l, RunKey(l, init), Log(l, init), init[|init| - 1].now, last);
    }
  }

  lemma AbsentHoldsNothing(l: Limits, now: int)
    ensures Holds(l, ABSENT, {}, now)
  {
  }

  /**
    Refinement: after every ordered sequence of calls, what the script sees at any later time is exactly the window of
    the full history. Neither trimming nor TTL expiry is ever observable.
   */
  lemma KeyShowsHistory(l: Limits, calls: seq<Request>, now: int)
    requires Ordered(calls)
    requires calls != [] ==> calls[|calls| - 1].now <= now
    ensures Trimmed(l, RunKey(l, calls), now) == InWindow(Log(l, calls), now - Millis(l), now)
    ensures forall m :: m in Log(l, calls) ==> m.at <= now
  {
    hide KeyAfter, Admits;
    if calls != [] {
      RunHolds(l, calls);
      HeldIsShown(l, RunKey(l, calls), Log(l, calls), calls[|calls| - 1].now, now);
    }
  }

  lemma {:induction false} NewMembersCount(r: Request)
    ensures |NewMembers(r)| == |r.salts|
    decreases |r.salts|
  {
    if r.salts != [] {
      var n := |r.salts| - 1;
      var shorter := Request(r.now, r.salts[..n]);
      NewMembersCount(shorter);
      assert NewMembers(r) == NewMembers(shorter) + {Member(r.now, n + 1, r.salts[n])};
    }
  }

  /** With fresh members, counting calls and counting members agree. */
  lemma {:induction false} UnitsAreMembers(l: Limits, calls: seq<Request>, from: int, to: int)
    requires FreshMembers(l, calls)
    ensures Units(l, calls, from, to) == |InWindow(Log(l, calls), from, to)|
  {
    if calls != [] {
      var init, last := calls[..|calls| - 1], calls[|calls| - 1];
      FreshInit(l, calls);
      UnitsAreMembers(l, init, from, to);
      NewMembersCount(last);
      if Admits(l, RunKey(l, init), last) && from < last.now <= to {
        assert InWindow(Log(l, calls), from, to) == InWindow(Log(l, init), from, to) + NewMembers(last);
      } else {
        assert InWindow(Log(l, calls), from, to) == InWindow(Log(l, init), from, to);
      }
    }
  }

  lemma SubsetNotLarger<T>(a: set<T>, b: set<T>)
    requires a <= b
    ensures |a| <= |b|
  {
    assert b == a + (b - a);
  }

  /**
    Safety: for every ordered sequence of calls with fresh members, every half-open interval one window long contains at
    most `limit` admitted units. Denied calls add none by definition of `Units`.
   */
  lemma {:induction false} WindowNeverOverfull(l: Limits, calls: seq<Request>, from: int)
    requires Ordered(calls) && FreshMembers(l, calls)
    ensures Units(l, calls, from, from + Millis(l)) <= Max(0, l.limit)
  {
    hide KeyAfter, NewMembers, FreshMembers, RunKey, Log;
    if calls != [] {
      var init, last := calls[..|calls| - 1], calls[|calls| - 1];
      FreshInit(l, calls);
      WindowNeverOverfull(l, init, from);
      if Admits(l, RunKey(l, init), last) && from < last.now <= from + Millis(l) {
        KeyShowsHistory(l, init, last.now);
        UnitsAreMembers(l, init, from, from + Millis(l));
        SubsetNotLarger(InWindow(Log(l, init), from, from + Millis(l)), Trimmed(l, RunKey(l, init), last.now));
      }
    }
  }

  /** The decision of one call, stated on the history alone: it is admitted iff its window has room for its cost. */
  lemma AdmitsIffHistoryHasRoom(l: Limits, calls: seq<Request>, r: Request)
    requires Ordered(calls + [r]) && FreshMembers(l, calls)
    ensures Admits(l, RunKey(l, calls), r) <==> Units(l, calls, r.now - Millis(l), r.now) + |r.salts| <= l.limit
  {
    hide RunKey, Log, Units, FreshMembers;
    OrderedInit(calls, r);
    KeyShowsHistory(l, calls, r.now);
    UnitsAreMembers(l, calls, r.now - Millis(l), r.now);
  }

  /** After a denial with a full window, the window a later retry sees has room iff the oldest member has left it. */
  lemma RoomIffOldestLeft(l: Limits, log: set<Member>, t: int, t': int)
    requires forall m :: m in log ==> m.at <= t
    requires t <= t' && InWindow(log, t - Millis(l), t) != {}
    ensures var full, seen := InWindow(log, t - Millis(l), t), InWindow(log, t' - Millis(l), t');
            |seen| < |full| <==> t' >= Oldest(full) + Millis(l)
  {
    var full, seen := InWindow(log, t - Millis(l), t), InWindow(log, t' - Millis(l), t');
    if t' >= Oldest(full) + Millis(l) {
      var m :| m in full && m.at == Oldest(full);
      SubsetNotLarger(seen, full - {m});
    } else {
      assert seen == full;
    }
  }

  /** A denied cost-1 call met a window that holds exactly `limit` units. */
  lemma DeniedWindowIsFull(l: Limits, calls: seq<Request>, denied: Request)
    requires Ordered(calls + [denied]) && FreshMembers(l, calls)
    requires l.limit >= 1 && |denied.salts| == 1
    requires !Admits(l, RunKey(l, calls), denied)
    ensures var full := InWindow(Log(l, calls), denied.now - Millis(l), denied.now);
            Trimmed(l, RunKey(l, calls), denied.now) == full && |full| == l.limit
    ensures forall m :: m in Log(l, calls) ==> m.at <= denied.now
  {
    hide RunKey, Log, Units, FreshMembers;
    OrderedInit(calls, denied);
    KeyShowsHistory(l, calls, denied.now);
    UnitsAreMembers(l, calls, denied.now - Millis(l), denied.now);
    WindowNeverOverfull(l, calls, denied.now - Millis(l));
  }

  lemma OrderedInit(calls: seq<Request>, r: Request)
    requires Ordered(calls + [r])
    ensures Ordered(calls)
    ensures calls != [] ==> calls[|calls| - 1].now <= r.now
  {
    var all := calls + [r];
    assert forall i :: 0 <= i < |calls| ==> calls[i] == all[i];
    assert all[|calls|] == r;
  }

  /** A denial changes nothing a later call can see. */
  lemma DenialLeavesHistory(l: Limits, calls: seq<Request>, denied: Request, now: int)
    requires Ordered(calls + [denied]) && denied.now <= now
    requires !Admits(l, RunKey(l, calls), denied)
    ensures Trimmed(l, KeyAfter(l, RunKey(l, calls), denied), now) == InWindow(Log(l, calls), now - Millis(l), now)
  {
    hide KeyAfter, Admits;
    var all := calls + [denied];
    assert all[..|all| - 1] == calls && all[|all| - 1] == denied;
    KeyShowsHistory(l, all, now);
  }

  /**
    The retry hint is exact: after a cost-1 denial and no other traffic, a retry is admitted if and only if it comes at
    or after the `reset_at` the denial reported.
   */
  lemma RetryHintIsExact(l: Limits, calls: seq<Request>, denied: Request, retry: Request)
    requires Ordered(calls + [denied]) && FreshMembers(l, calls)
    requires l.limit >= 1 && |denied.salts| == 1 && |retry.salts| == 1
    requires denied.now <= retry.now
    requires !Admits(l, RunKey(l, calls), denied)
    ensures Admits(l, KeyAfter(l, RunKey(l, calls), denied), retry)
            <==> retry.now >= ReplyTo(l, RunKey(l, calls), denied).resetAt
  {
    hide KeyAfter, FreshMembers, Ordered, RunKey, Log, Trimmed, InWindow;
    DeniedWindowIsFull(l, calls, denied);
    DenialLeavesHistory(l, calls, denied, retry.now);
    RoomIffOldestLeft(l, Log(l, calls), denied.now, retry.now);
  }

  /** `retry_after_s` of a denial, computed at a clock reading `clock` (milliseconds, fractional). */
  function RetryAfter(resetAt: int, clock: real): real {
    var wait := (resetAt as real - clock) / 1000.0;
    if wait < 0.1 then 0.1 else wait
  }

  /** A client that waits `retry_after_s` from any clock reading reaches `reset_at`, so its retry is admitted. */
  lemma WaitingAsToldIsEnough(resetAt: int, clock: real)
    ensures (clock + RetryAfter(resetAt, clock) * 1000.0).Floor >= resetAt
  {
  }

  /** The hint is exact to the millisecond from 0.1 s on, in seconds; below that it is 0.1 s. */
  lemma RetryAfterIsExact(resetAt: int, clock: real)
    ensures resetAt as real - clock >= 100.0 ==> clock + RetryAfter(resetAt, clock) * 1000.0 == resetAt as real
    ensures resetAt as real - clock < 100.0 ==> RetryAfter(resetAt, clock) == 0.1
  {
  }

  /** An idle key is gone one second after its last admitted unit has left the window, and not before. */
  lemma IdleKeyExpires(l: Limits, k: Key, r: Request, now: int)
    requires Admits(l, k, r) && r.salts != []
    ensures Visible(KeyAfter(l, k, r), now) == {} <==> now >= r.now + l.window * 1000 + 1000
  {
    assert Member(r.now, 0 + 1, r.salts[0]) in NewMembers(r);
  }

  /** The reset time of an admission is exact too: its units leave the window then and not before. */
  lemma AdmissionResetIsExact(l: Limits, k: Key, r: Request, now: int)
    requires Admits(l, k, r) && r.salts != [] && r.now <= now
    ensures NewMembers(r) <= Trimmed(l, KeyAfter(l, k, r), now) <==> now < ReplyTo(l, k, r).resetAt
  {
    assert Member(r.now, 0 + 1, r.salts[0]) in NewMembers(r);
  }

  // ---------- the same limiter without a TTL ----------

  function KeptForever(l: Limits, calls: seq<Request>): Key {
    if calls == [] then ABSENT
    else KeyAfter(l, KeptForever(l, calls[..|calls| - 1]), calls[|calls| - 1]).(expiresAt := None)
  }

  lemma {:induction false} ForeverHolds(l: Limits, calls: seq<Request>)
    requires Ordered(calls) && calls != []
    ensures Holds(l, KeptForever(l, calls), Log(l, calls), calls[|calls| - 1].now)
  {
    var init, last := calls[..|calls| - 1], calls[|calls| - 1];
    var log, before := Log(l, init), if init == [] then last.now else init[|init| - 1].now;
    if init == [] {
      AbsentHoldsNothing(l, last.now);
    } else {
      RunHolds(l, init);
      ForeverHolds(l, init);
    }
    SameDecision(l, RunKey(l, init), KeptForever(l, init), log, before, last);
    ScriptKeepsHolding(l, KeptForever(l, init), log, before, last);
    DroppingTtlHolds(l, KeyAfter(l, KeptForever(l, init), last), Log(l, calls), last.now);
  }

  lemma DroppingTtlHolds(l: Limits, k: Key, log: set<Member>, last: int)
    requires Holds(l, k, log, last)
    ensures Holds(l, k.(expiresAt := None), log, last)
  {
  }

  /** Two keys that hold the same log answer every call alike. */
  lemma SameDecision(l: Limits, k: Key, k': Key, log: set<Member>, last: int, r: Request)
    requires Holds(l, k, log, last) && Holds(l, k', log, last) && last <= r.now
    ensures Admits(l, k, r) == Admits(l, k', r) && ReplyTo(l, k, r) == ReplyTo(l, k', r)
  {
    HeldIsShown(l, k, log, last, r.now);
    HeldIsShown(l, k', log, last, r.now);
  }

  /**
    TTL expiry is unobservable: a limiter whose key never expires gives the same reply to every call of every ordered
    run.
   */
  lemma TtlIsUnobservable(l: Limits, calls: seq<Request>, r: Request)
    requires Ordered(calls + [r])
    ensures ReplyTo(l, RunKey(l, calls), r) == ReplyTo(l, KeptForever(l, calls), r)
  {
    hide KeyAfter, Admits, Holds;
    OrderedInit(calls, r);
    if calls != [] {
      RunHolds(l, calls);
      ForeverHolds(l, calls);
      SameDecision(l, RunKey(l, calls), KeptForever(l, calls), Log(l, calls), calls[|calls| - 1].now, r);
    }
  }

  /** One more call, seen by the key, the log and the count. */
  lemma AppendCall(l: Limits, calls: seq<Request>, r: Request, from: int, to: int)
    ensures RunKey(l, calls + [r]) == KeyAfter(l, RunKey(l, calls), r)
    ensures Log(l, calls + [r]) == Log(l, calls) + (if Admits(l, RunKey(l, calls), r) then NewMembers(r) else {})
    ensures Units(l, calls + [r], from, to)
            == Units(l, calls, from, to)
               + (if Admits(l, RunKey(l, calls), r) && from < r.now <= to then |r.salts| else 0)
  {
    assert (calls + [r])[..|calls + [r]| - 1] == calls;
  }

  /** A cost-1 call at time 0 on a key with at most one member of time 0 fits a limit of two. */
  lemma SecondUnitFits(k: Key, salt: nat)
    requires |k.members| <= 1 && (forall m :: m in k.members ==> m.at == 0)
    requires k.expiresAt.Some? ==> k.expiresAt.value == 2000
    ensures var l, r := Limits(1, 2), Request(0, [salt]);
            && Admits(l, k, r) && NewMembers(r) == {Member(0, 1, salt)}
            && KeyAfter(l, k, r) == Key(k.members + {Member(0, 1, salt)}, Some(2000))
  {
    var l, r := Limits(1, 2), Request(0, [salt]);
    assert Trimmed(l, k, 0) == k.members;
    assert Member(0, 0 + 1, r.salts[0]) in NewMembers(r);
    assert Member(0, 1, salt) in k.members + {Member(0, 1, salt)};
  }

  /** Two equal members are admitted twice and stored once. */
  lemma TwinsStoredOnce(l: Limits, a: Request, m: Member)
    requires l == Limits(1, 2) && a == Request(0, [7]) && m == Member(0, 1, 7)
    ensures RunKey(l, [a]) == Key({m}, Some(2000)) && Log(l, [a]) == {m}
    ensures RunKey(l, [a] + [a]) == Key({m}, Some(2000)) && Units(l, [a] + [a], -1, 999) == 2
    ensures Admits(l, RunKey(l, [a]), a) && NewMembers(a) == {m}
  {
    hide RunKey, Units, Log, Admits, KeyAfter, NewMembers;
    NoCalls(l, -1, 999);
    AppendCall(l, [], a, -1, 999);
    AppendCall(l, [a], a, -1, 999);
    assert [] + [a] == [a];
    SecondUnitFits(ABSENT, 7);
    SecondUnitFits(Key({m}, Some(2000)), 7);
    assert {m} + {m} == {m} && {} + {m} == {m};
  }

  /** Without fresh members the bound fails: two equal members count once, and a third unit fits a limit of two. */
  lemma CollisionOverfills()
    ensures var l, calls := Limits(1, 2), [Request(0, [7]), Request(0, [7]), Request(0, [8])];
            Ordered(calls) && !FreshMembers(l, calls) && Units(l, calls, -1, 999) == 3
  {
    hide RunKey, Units, Log, Admits, KeyAfter, NewMembers, FreshMembers;
    var l, a, c, m := Limits(1, 2), Request(0, [7]), Request(0, [8]), Member(0, 1, 7);
    var calls := [a] + [a] + [c];
    TwinsStoredOnce(l, a, m);
    AppendCall(l, [a] + [a], c, -1, 999);
    SecondUnitFits(Key({m}, Some(2000)), 8);
    assert calls == [a, a, c];
    assert calls[..1] == [a];
    RepeatIsNotFresh(l, calls, 1, m);
  }

  lemma RepeatIsNotFresh(l: Limits, calls: seq<Request>, i: nat, m: Member)
    requires i < |calls| && Admits(l, RunKey(l, calls[..i]), calls[i])
    requires m in NewMembers(calls[i]) && m in Log(l, calls[..i])
    ensures !FreshMembers(l, calls)
  {
    hide RunKey, Log, Admits, NewMembers;
    assert Admitted(l, calls, i);
  }

  lemma NoCalls(l: Limits, from: int, to: int)
    ensures RunKey(l, []) == ABSENT && Log(l, []) == {} && Units(l, [], from, to) == 0
  {
  }
}
