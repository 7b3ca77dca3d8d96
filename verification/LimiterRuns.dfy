/** Whole runs of check_all calls on one Redis keyspace, of any keys, applications, domains and proxies. */
module LimiterRuns {
  import opened Common
  import opened SlidingWindow
  import opened RateLimiter

  // ---------- one call, seen from one key ----------

  /** The call names this key. */
  predicate Concerns(q: Query, name: KeyName) {
    match name
    case ApiKey(prefix) => q.prefix == prefix
    case Application(id) => q.app == id
    case Domain(domain) => q.domain == domain
    case ProxyKey(id) => q.proxy == Some(id)
  }

  function LimitsFor(q: Query, name: KeyName): Limits {
    match name
    case ApiKey(_) => KEY_LIMITS
    case Application(_) => AppLimits(q.quota)
    case Domain(_) => RpsLimits(q.rps)
    case ProxyKey(_) => RpsLimits(2)
  }

  function CheckFor(q: Query, name: KeyName): Check {
    match name
    case ApiKey(_) => q.c1
    case Application(_) => q.c2
    case Domain(_) => q.c3
    case ProxyKey(_) => q.c4
  }

  /** The script runs on this key: Redis answers and the layers that come first admit. */
  predicate Evaluates(ks: Keyspace, q: Query, name: KeyName) {
    && Concerns(q, name)
    && CheckFor(q, name).redisUp
    && (name.Domain? || name.ProxyKey? ==> Admits1(ks, q) && Admits2(ks, q))
    && (name.ProxyKey? ==> Admits3(ks, q))
  }

  /** The script runs on this key and charges it. */
  predicate Charges(ks: Keyspace, q: Query, name: KeyName) {
    Evaluates(ks, q, name) && Admits(LimitsFor(q, name), KeyOf(ks, name), CheckFor(q, name).request)
  }

  /** check_all allows the call. */
  predicate Allows(ks: Keyspace, q: Query) {
    Admits1(ks, q) && Admits2(ks, q) && Admits3(ks, q) && Admits4(ks, q)
  }

  /** What one check_all call does to any one key: one run of the script, or nothing. */
  lemma CallOnKey(ks: Keyspace, q: Query, name: KeyName)
    ensures KeyOf(KeyspaceAfter(ks, q), name)
            == if Evaluates(ks, q, name) then KeyAfter(LimitsFor(q, name), KeyOf(ks, name), CheckFor(q, name).request)
               else KeyOf(ks, name)
    ensures Allows(ks, q) && Concerns(q, name) && CheckFor(q, name).redisUp ==> Charges(ks, q, name)
  {
    hide KeyAfter, Admits;
  }

  // ---------- runs ----------

  function RunAll(qs: seq<Query>): Keyspace {
    if qs == [] then map[] else KeyspaceAfter(RunAll(qs[..|qs| - 1]), qs[|qs| - 1])
  }

  /** Every member the run ever added to the key. */
  function Ledger(qs: seq<Query>, name: KeyName): set<Member> {
    if qs == [] then {}
    else
      var init, last := qs[..|qs| - 1], qs[|qs| - 1];
      Ledger(init, name) + (if Charges(RunAll(init), last, name) then NewMembers(CheckFor(last, name).request) else {})
  }

  /** The number of units the key is charged for in the half-open interval (from, to]. */
  function UnitsCharged(qs: seq<Query>, name: KeyName, from: int, to: int): nat {
    if qs == [] then 0
    else
      var init, last := qs[..|qs| - 1], qs[|qs| - 1];
      var r := CheckFor(last, name).request;
      UnitsCharged(init, name, from, to)
      + (if Charges(RunAll(init), last, name) && from < r.now <= to then |r.salts| else 0)
  }

  /** The number of calls naming the key that check_all allows in (from, to] while Redis answers for the key. */
  function AllowedCalls(qs: seq<Query>, name: KeyName, from: int, to: int): nat {
    if qs == [] then 0
    else
      var init, last := qs[..|qs| - 1], qs[|qs| - 1];
      var c := CheckFor(last, name);
      AllowedCalls(init, name, from, to)
      + (if Allows(RunAll(init), last) && Concerns(last, name) && c.redisUp && from < c.request.now <= to then 1 else 0)
  }

  /** The calls on this key come in the order of their clock readings. */
  ghost predicate InOrder(qs: seq<Query>, name: KeyName) {
    forall i, j :: 0 <= i < j < |qs| && Concerns(qs[i], name) && Concerns(qs[j], name) ==>
      CheckFor(qs[i], name).request.now <= CheckFor(qs[j], name).request.now
  }

  ghost predicate ComesBy(qs: seq<Query>, name: KeyName, now: int) {
    forall i :: 0 <= i < |qs| && Concerns(qs[i], name) ==> CheckFor(qs[i], name).request.now <= now
  }

  /** No charged member repeats an earlier one on the key. */
  ghost predicate FreshOn(qs: seq<Query>, name: KeyName) {
    forall i :: 0 <= i < |qs| && Charges(RunAll(qs[..i]), qs[i], name) ==>
      NewMembers(CheckFor(qs[i], name).request) !! Ledger(qs[..i], name)
  }

  /** Every check of the key has a cost of at least one; check_all itself always charges one. */
  ghost predicate CostsOnKey(qs: seq<Query>, name: KeyName) {
    forall i :: 0 <= i < |qs| && Concerns(qs[i], name) ==> CheckFor(qs[i], name).request.salts != []
  }

  /** No call asks for more than `limit` on the key. */
  ghost predicate LimitedTo(qs: seq<Query>, name: KeyName, limit: int) {
    forall i :: 0 <= i < |qs| && Concerns(qs[i], name) ==> LimitsFor(qs[i], name).limit <= limit
  }

  lemma InitKeeps(qs: seq<Query>, name: KeyName)
    requires qs != [] && InOrder(qs, name) && FreshOn(qs, name)
    ensures var init, last := qs[..|qs| - 1], qs[|qs| - 1];
            && InOrder(init, name) && FreshOn(init, name)
            && (Concerns(last, name) ==> ComesBy(init, name, CheckFor(last, name).request.now))
            && (Charges(RunAll(init), last, name) ==>
                  NewMembers(CheckFor(last, name).request) !! Ledger(init, name))
  {
    hide Charges, Ledger, RunAll, Concerns;
    var init := qs[..|qs| - 1];
    assert forall i :: 0 <= i < |init| ==> init[..i] == qs[..i];
  }

  // ---------- the key always shows the ledger ----------

  /** The window of a key's layer, in seconds. */
  function WindowOf(name: KeyName): nat {
    match name
    case ApiKey(_) => 60
    case Application(_) => 30 * 24 * 3600
    case Domain(_) => 1
    case ProxyKey(_) => 1
  }

  function WindowMs(name: KeyName): nat { WindowOf(name) * 1000 }

  /** `Holds` for the key's window; the limit plays no part in it. */
  ghost predicate Shows(k: Key, name: KeyName, ledger: set<Member>, now: int) {
    Holds(Limits(WindowOf(name), 0), k, ledger, now)
  }

  lemma ScriptKeepsShowing(k: Key, q: Query, name: KeyName, ledger: set<Member>)
    requires Shows(k, name, ledger, CheckFor(q, name).request.now)
    ensures var l, r := LimitsFor(q, name), CheckFor(q, name).request;
            && Shows(KeyAfter(l, k, r), name, ledger + (if Admits(l, k, r) then NewMembers(r) else {}), r.now)
            && Trimmed(l, k, r.now) == InWindow(ledger, r.now - WindowMs(name), r.now)
  {
    hide KeyAfter, Admits, NewMembers, Trimmed;
    var l, r := LimitsFor(q, name), CheckFor(q, name).request;
    assert Millis(l) == WindowMs(name);
    ScriptKeepsHolding(l, k, ledger, r.now, r);
    HeldIsShown(l, k, ledger, r.now, r.now);
  }

  lemma ShowsLater(k: Key, name: KeyName, ledger: set<Member>, now: int, later: int)
    requires Shows(k, name, ledger, now) && now <= later
    ensures Shows(k, name, ledger, later)
  {
  }

  /** At any clock reading no earlier than the calls before it, the key shows the ledger's window. */
  lemma {:induction false} LedgerIsShown(qs: seq<Query>, name: KeyName, now: int)
    requires InOrder(qs, name) && FreshOn(qs, name) && ComesBy(qs, name, now)
    ensures Shows(KeyOf(RunAll(qs), name), name, Ledger(qs, name), now)
  {
    if qs == [] {
      AbsentHoldsNothing(Limits(WindowOf(name), 0), now);
    } else {
      hide KeyspaceAfter, Shows, Concerns, FreshOn, KeyOf;
      var init, last := qs[..|qs| - 1], qs[|qs| - 1];
      InitKeeps(qs, name);
      CallOnKey(RunAll(init), last, name);
      if Evaluates(RunAll(init), last, name) {
        var t := CheckFor(last, name).request.now;
        LedgerIsShown(init, name, t);
        ScriptKeepsShowing(KeyOf(RunAll(init), name), last, name, Ledger(init, name));
        ShowsLater(KeyOf(RunAll(qs), name), name, Ledger(qs, name), t, now);
      } else {
        LedgerIsShown(init, name, now);
      }
    }
  }

  /** With fresh members, counting units and counting members agree. */
  lemma {:induction false} UnitsAreLedger(qs: seq<Query>, name: KeyName, from: int, to: int)
    requires InOrder(qs, name) && FreshOn(qs, name)
    ensures UnitsCharged(qs, name, from, to) == |InWindow(Ledger(qs, name), from, to)|
  {
    if qs != [] {
      hide Charges, FreshOn, InOrder, RunAll, NewMembers;
      var init, r := qs[..|qs| - 1], CheckFor(qs[|qs| - 1], name).request;
      InitKeeps(qs, name);
      UnitsAreLedger(init, name, from, to);
      NewMembersCount(r);
      if Charges(RunAll(init), qs[|qs| - 1], name) && from < r.now <= to {
        assert InWindow(Ledger(qs, name), from, to) == InWindow(Ledger(init, name), from, to) + NewMembers(r);
      } else {
        assert InWindow(Ledger(qs, name), from, to) == InWindow(Ledger(init, name), from, to);
      }
    }
  }

  /** Room for the last call: what the window holds before it, plus its own cost, is within its limit. */
  lemma ChargeFits(init: seq<Query>, q: Query, name: KeyName, from: int)
    requires InOrder(init, name) && FreshOn(init, name)
    requires ComesBy(init, name, CheckFor(q, name).request.now)
    requires Charges(RunAll(init), q, name)
    requires from < CheckFor(q, name).request.now <= from + WindowMs(name)
    ensures UnitsCharged(init, name, from, from + WindowMs(name)) + |CheckFor(q, name).request.salts|
            <= LimitsFor(q, name).limit
  {
    hide Ledger, RunAll, FreshOn, InOrder, UnitsCharged, KeyAfter, Trimmed;
    var r, log := CheckFor(q, name).request, Ledger(init, name);
    LedgerIsShown(init, name, r.now);
    ScriptKeepsShowing(KeyOf(RunAll(init), name), q, name, log);
    UnitsAreLedger(init, name, from, from + WindowMs(name));
    SubsetNotLarger(InWindow(log, from, from + WindowMs(name)), InWindow(log, r.now - WindowMs(name), r.now));
  }

  /** Safety of one key over any run of check_all calls, also when the limit changes from call to call. */
  lemma {:induction false} KeyNeverOvercharged(qs: seq<Query>, name: KeyName, limit: int, from: int)
    requires InOrder(qs, name) && FreshOn(qs, name) && LimitedTo(qs, name, limit)
    ensures UnitsCharged(qs, name, from, from + WindowMs(name)) <= Max(0, limit)
  {
    if qs != [] {
      hide Charges, FreshOn, InOrder, RunAll, ComesBy;
      var init, last := qs[..|qs| - 1], qs[|qs| - 1];
      InitKeeps(qs, name);
      KeyNeverOvercharged(init, name, limit, from);
      if Charges(RunAll(init), last, name) && from < CheckFor(last, name).request.now <= from + WindowMs(name) {
        ChargeFits(init, last, name, from);
        ChargesConcerned(RunAll(init), last, name);
      }
    }
  }

  lemma ChargesConcerned(ks: Keyspace, q: Query, name: KeyName)
    requires Charges(ks, q, name)
    ensures Concerns(q, name)
  {
  }

  lemma {:induction false} AllowedIsCharged(qs: seq<Query>, name: KeyName, from: int, to: int)
    requires CostsOnKey(qs, name)
    ensures AllowedCalls(qs, name, from, to) <= UnitsCharged(qs, name, from, to)
  {
    if qs != [] {
      hide Charges, Allows, RunAll, KeyspaceAfter;
      var init, last := qs[..|qs| - 1], qs[|qs| - 1];
      AllowedIsCharged(init, name, from, to);
      CallOnKey(RunAll(init), last, name);
    }
  }

  /**
    The limiter over whole runs: in any run of check_all calls, mixed over keys, applications, domains and proxies and
    with Redis failing at will, every window of a key's layer holds at most as many allowed calls as the highest limit
    asked for on that key, not counting calls that Redis did not answer for.
   */
  lemma AllowedCallsBounded(qs: seq<Query>, name: KeyName, limit: int, from: int)
    requires InOrder(qs, name) && FreshOn(qs, name) && CostsOnKey(qs, name) && LimitedTo(qs, name, limit)
    ensures AllowedCalls(qs, name, from, from + WindowMs(name)) <= Max(0, limit)
  {
    hide *;
    KeyNeverOvercharged(qs, name, limit, from);
    AllowedIsCharged(qs, name, from, from + WindowMs(name));
  }

  /**
    The four shipped layers: 60 allowed calls of an API key per minute, the monthly quota of an application per 30 days,
    the per-second rate of a domain (at least 1) and 2 calls of a proxy per second.
   */
  lemma LayersHold(qs: seq<Query>, name: KeyName, quota: nat, rps: int, from: int)
    requires InOrder(qs, name) && FreshOn(qs, name) && CostsOnKey(qs, name)
    requires forall i :: 0 <= i < |qs| && Concerns(qs[i], name) ==> qs[i].quota <= quota && qs[i].rps <= rps
    ensures name.ApiKey? ==> AllowedCalls(qs, name, from, from + 60_000) <= 60
    ensures name.Application? ==> AllowedCalls(qs, name, from, from + 2_592_000_000) <= quota
    ensures name.Domain? ==> AllowedCalls(qs, name, from, from + 1000) <= Max(1, rps)
    ensures name.ProxyKey? ==> AllowedCalls(qs, name, from, from + 1000) <= 2
  {
    hide InOrder, FreshOn, CostsOnKey, AllowedCalls, Concerns;
    var limit := match name case ApiKey(_) => 60 case Application(_) => quota case Domain(_) => Max(1, rps)
                            case ProxyKey(_) => 2;
    AllowedCallsBounded(qs, name, limit, from);
  }

  // ---------- what each answer means ----------

  /** A key admits a call iff the units charged to it in the window leave room for the call's cost. */
  lemma AdmitsIffRoom(qs: seq<Query>, q: Query, name: KeyName)
    requires InOrder(qs, name) && FreshOn(qs, name) && ComesBy(qs, name, CheckFor(q, name).request.now)
    ensures var r := CheckFor(q, name).request;
            Admits(LimitsFor(q, name), KeyOf(RunAll(qs), name), r)
            <==> UnitsCharged(qs, name, r.now - WindowMs(name), r.now) + |r.salts| <= LimitsFor(q, name).limit
  {
    hide Ledger, RunAll, FreshOn, InOrder, UnitsCharged, KeyAfter, Trimmed;
    var r := CheckFor(q, name).request;
    LedgerIsShown(qs, name, r.now);
    ScriptKeepsShowing(KeyOf(RunAll(qs), name), q, name, Ledger(qs, name));
    UnitsAreLedger(qs, name, r.now - WindowMs(name), r.now);
  }

  /** A run whose calls on the key are ordered and fresh, followed by an ordinary call: Redis up and cost one. */
  ghost predicate Ready(qs: seq<Query>, q: Query, name: KeyName) {
    && InOrder(qs, name) && FreshOn(qs, name) && ComesBy(qs, name, CheckFor(q, name).request.now)
    && CheckFor(q, name).redisUp && |CheckFor(q, name).request.salts| == 1
  }

  /**
    check_all on the history alone: a call is allowed iff its key was charged less than 60 units in the last minute,
    its application less than the quota in the last 30 days, its domain less than max(1, rps) in the last second and
    its proxy, if any, less than 2.
   */
  lemma AllowedIffRoom(qs: seq<Query>, q: Query)
    requires Ready(qs, q, ApiKey(q.prefix)) && Ready(qs, q, Application(q.app)) && Ready(qs, q, Domain(q.domain))
    requires q.proxy.Some? ==> Ready(qs, q, ProxyKey(q.proxy.value))
    ensures var t1, t2, t3, t4 := q.c1.request.now, q.c2.request.now, q.c3.request.now, q.c4.request.now;
            Allows(RunAll(qs), q) <==>
            && UnitsCharged(qs, ApiKey(q.prefix), t1 - 60_000, t1) < 60
            && UnitsCharged(qs, Application(q.app), t2 - 2_592_000_000, t2) < q.quota
            && UnitsCharged(qs, Domain(q.domain), t3 - 1000, t3) < Max(1, q.rps)
            && (q.proxy.Some? ==> UnitsCharged(qs, ProxyKey(q.proxy.value), t4 - 1000, t4) < 2)
  {
    hide UnitsCharged, RunAll, InOrder, FreshOn, ComesBy, Admits;
    AdmitsIffRoom(qs, q, ApiKey(q.prefix));
    AdmitsIffRoom(qs, q, Application(q.app));
    AdmitsIffRoom(qs, q, Domain(q.domain));
    if q.proxy.Some? { AdmitsIffRoom(qs, q, ProxyKey(q.proxy.value)); }
  }

  lemma RunAppend(qs: seq<Query>, q: Query, name: KeyName, from: int, to: int)
    ensures RunAll(qs + [q]) == KeyspaceAfter(RunAll(qs), q)
    ensures Ledger(qs + [q], name)
            == Ledger(qs, name) + (if Charges(RunAll(qs), q, name) then NewMembers(CheckFor(q, name).request) else {})
    ensures var r := CheckFor(q, name).request;
            UnitsCharged(qs + [q], name, from, to)
            == UnitsCharged(qs, name, from, to)
               + (if Charges(RunAll(qs), q, name) && from < r.now <= to then |r.salts| else 0)
    ensures InOrder(qs + [q], name) && FreshOn(qs + [q], name) ==>
              && InOrder(qs, name) && FreshOn(qs, name)
              && (Concerns(q, name) ==> ComesBy(qs, name, CheckFor(q, name).request.now))
  {
    hide Charges, KeyspaceAfter, NewMembers, InOrder, FreshOn, ComesBy;
    var all := qs + [q];
    assert all[..|all| - 1] == qs && all[|all| - 1] == q;
    if InOrder(all, name) && FreshOn(all, name) { InitKeeps(all, name); }
  }

  /**
    The answer of a layer on the history: `remaining` is what the window still holds after the call, and the limit, the
    layer and the reset time of an admission are its own. With Redis down the answer allows and names no layer.
   */
  lemma AnswerMeans(qs: seq<Query>, q: Query, name: KeyName, layer: Layer)
    requires InOrder(qs + [q], name) && FreshOn(qs + [q], name) && Concerns(q, name)
    requires CheckFor(q, name).redisUp ==> Evaluates(RunAll(qs), q, name)
    requires CheckFor(q, name).request.salts != []
    ensures var c := CheckFor(q, name);
            var a, t := LayerResult(KeyOf(RunAll(qs), name), LimitsFor(q, name), layer, c), c.request.now;
            if !c.redisUp then
              && a.allowed && a.limit == 0 && a.remaining == 0 && a.resetAtMs == 0
              && a.layer == LayerNone && a.retryAfter == 0.0
            else
              && (a.allowed <==> Charges(RunAll(qs), q, name))
              && a.limit == LimitsFor(q, name).limit && a.layer == layer
              && a.remaining == Max(0, a.limit - UnitsCharged(qs + [q], name, t - WindowMs(name), t))
              && (a.allowed ==> a.resetAtMs == t + WindowMs(name) && a.retryAfter == 0.0)
              && (!a.allowed ==> a.retryAfter == RetryAfter(a.resetAtMs, c.clock))
              && (!a.allowed && UnitsCharged(qs, name, t - WindowMs(name), t) == 0 ==> a.resetAtMs == 0)
  {
    hide UnitsCharged, RunAll, InOrder, FreshOn, ComesBy, Ledger, Trimmed, KeyAfter, NewMembers, RetryAfter;
    var r := CheckFor(q, name).request;
    RunAppend(qs, q, name, r.now - WindowMs(name), r.now);
    LedgerIsShown(qs, name, r.now);
    ScriptKeepsShowing(KeyOf(RunAll(qs), name), q, name, Ledger(qs, name));
    UnitsAreLedger(qs, name, r.now - WindowMs(name), r.now);
  }

  // ---------- denied callers that come back ----------

  /** A denied call of cost one whose key was never asked for a higher limit, and a later call on the same terms. */
  ghost predicate ComesBack(qs: seq<Query>, q: Query, retry: Query, name: KeyName) {
    && InOrder(qs + [q], name) && FreshOn(qs + [q], name) && LimitedTo(qs, name, LimitsFor(q, name).limit)
    && Evaluates(RunAll(qs), q, name) && !Charges(RunAll(qs), q, name)
    && LimitsFor(q, name).limit >= 1 && |CheckFor(q, name).request.salts| == 1
    && Concerns(retry, name) && LimitsFor(retry, name) == LimitsFor(q, name)
    && CheckFor(retry, name).redisUp && |CheckFor(retry, name).request.salts| == 1
    && CheckFor(q, name).request.now <= CheckFor(retry, name).request.now
  }

  /** The window a denied call met is exactly full. */
  lemma DeniedWindowFull(qs: seq<Query>, q: Query, retry: Query, name: KeyName)
    requires ComesBack(qs, q, retry, name)
    ensures var t := CheckFor(q, name).request.now;
            var full := InWindow(Ledger(qs, name), t - WindowMs(name), t);
            && Trimmed(LimitsFor(q, name), KeyOf(RunAll(qs), name), t) == full && |full| == LimitsFor(q, name).limit
            && forall m :: m in Ledger(qs, name) ==> m.at <= t
  {
    hide UnitsCharged, RunAll, InOrder, FreshOn, ComesBy, Ledger, Trimmed, KeyAfter, NewMembers, LimitedTo;
    var t := CheckFor(q, name).request.now;
    RunAppend(qs, q, name, t - WindowMs(name), t);
    LedgerIsShown(qs, name, t);
    ScriptKeepsShowing(KeyOf(RunAll(qs), name), q, name, Ledger(qs, name));
    UnitsAreLedger(qs, name, t - WindowMs(name), t);
    KeyNeverOvercharged(qs, name, LimitsFor(q, name).limit, t - WindowMs(name));
  }

  /** The key after the denial shows a later call the same history. */
  lemma DenialShowsLedger(qs: seq<Query>, q: Query, retry: Query, name: KeyName)
    requires ComesBack(qs, q, retry, name)
    ensures var t := CheckFor(retry, name).request.now;
            Trimmed(LimitsFor(retry, name), KeyOf(RunAll(qs + [q]), name), t)
            == InWindow(Ledger(qs, name), t - WindowMs(name), t)
  {
    hide UnitsCharged, RunAll, FreshOn, Ledger, Trimmed, KeyAfter, NewMembers, LimitedTo, Charges;
    var t, t' := CheckFor(q, name).request.now, CheckFor(retry, name).request.now;
    RunAppend(qs, q, name, 0, 0);
    assert ComesBy(qs + [q], name, t');
    LedgerIsShown(qs + [q], name, t');
    ScriptKeepsShowing(KeyOf(RunAll(qs + [q]), name), retry, name, Ledger(qs, name));
  }

  /** After a denial the key admits a later call iff it comes at or after the reported reset time. */
  lemma ResetIsExact(qs: seq<Query>, q: Query, retry: Query, name: KeyName)
    requires ComesBack(qs, q, retry, name)
    ensures var l, r := LimitsFor(q, name), CheckFor(retry, name).request;
            Admits(l, KeyOf(RunAll(qs + [q]), name), r)
            <==> r.now >= ReplyTo(l, KeyOf(RunAll(qs), name), CheckFor(q, name).request).resetAt
  {
    hide UnitsCharged, RunAll, InOrder, FreshOn, Ledger, Trimmed, KeyAfter, NewMembers, LimitedTo, InWindow;
    var t, t' := CheckFor(q, name).request.now, CheckFor(retry, name).request.now;
    DeniedWindowFull(qs, q, retry, name);
    DenialShowsLedger(qs, q, retry, name);
    RoomIffOldestLeft(LimitsFor(q, name), Ledger(qs, name), t, t');
  }

  /**
    retry_after_s of check_all is neither too short nor too long: a client that comes back `wait` seconds after the
    denial is admitted by the denying layer if it waited at least as long as told, and denied again by check_all if it
    waited less and was told more than the 0.1 s floor.
   */
  lemma RetryAfterHolds(qs: seq<Query>, q: Query, retry: Query, name: KeyName, layer: Layer, wait: real)
    requires ComesBack(qs, q, retry, name)
    requires CheckFor(retry, name).request.now == (CheckFor(q, name).clock + wait * 1000.0).Floor
    ensures var hint := LayerResult(KeyOf(RunAll(qs), name), LimitsFor(q, name), layer, CheckFor(q, name)).retryAfter;
            && (wait >= hint ==>
                  Admits(LimitsFor(q, name), KeyOf(RunAll(qs + [q]), name), CheckFor(retry, name).request))
            && (hint > 0.1 && wait < hint ==> !Allows(RunAll(qs + [q]), retry))
  {
    hide RunAll, InOrder, FreshOn, Ledger, KeyAfter, Admits, Allows;
    var c := CheckFor(q, name);
    var resetAt := ReplyTo(LimitsFor(q, name), KeyOf(RunAll(qs), name), c.request).resetAt;
    ResetIsExact(qs, q, retry, name);
    RetryAfterIsExact(resetAt, c.clock);
    CallOnKey(RunAll(qs + [q]), retry, name);
  }

  // ---------- the quota is charged though the key layer denies ----------

  /** One request of API key "k", application 5, with its own random salt, quota 1000 and domain rate 100. */
  function FloodCall(salt: nat): Query {
    var c := Check(Request(0, [salt]), 0.0, true);
    Query("k", 5, "d", None, 100, 1000, c, c, c, c)
  }

  function Flood(n: nat): seq<Query> {
    seq(n, i requires 0 <= i => FloodCall(i))
  }

  function FloodMembers(n: nat): set<Member> {
    set i: nat | i < n :: Member(0, 1, i)
  }

  lemma {:induction false} FloodMembersCount(n: nat)
    ensures |FloodMembers(n)| == n
  {
    if n > 0 {
      FloodMembersCount(n - 1);
      assert FloodMembers(n) == FloodMembers(n - 1) + {Member(0, 1, n - 1)};
    }
  }

  /** One more request at the same instant is admitted below the limit and adds its member. */
  lemma FloodStep(l: Limits, k: Key, n: nat)
    requires k.members == FloodMembers(n) && (k.expiresAt.Some? ==> k.expiresAt.value > 0) && l.window > 0
    ensures var r := Request(0, [n]);
            && (Admits(l, k, r) <==> n < l.limit)
            && (n < l.limit ==> KeyAfter(l, k, r) == Key(FloodMembers(n + 1), Some((l.window + 1) * 1000)))
            && NewMembers(r) == {Member(0, 1, n)}
  {
    FloodMembersCount(n);
    var r := Request(0, [n]);
    assert Trimmed(l, k, 0) == FloodMembers(n);
    assert Member(0, 0 + 1, r.salts[0]) in NewMembers(r);
    assert NewMembers(r) == {Member(0, 1, n)};
    assert FloodMembers(n) + {Member(0, 1, n)} == FloodMembers(n + 1);
    assert Member(0, 1, n) in FloodMembers(n + 1);
  }

  lemma FloodGrows(n: nat)
    ensures RunAll(Flood(n + 1)) == KeyspaceAfter(RunAll(Flood(n)), FloodCall(n))
  {
    hide KeyspaceAfter;
    assert Flood(n + 1)[..n] == Flood(n);
  }

  lemma FloodStarts(name: KeyName)
    ensures KeyOf(RunAll(Flood(0)), name) == ABSENT && FloodMembers(0) == {} && Ledger(Flood(0), name) == {}
  {
    hide KeyspaceAfter, Charges;
    assert Flood(0) == [];
  }

  lemma FloodFillsOne(n: nat, name: KeyName)
    requires n < 60 && name in {ApiKey("k"), Application(5)}
    requires var k := KeyOf(RunAll(Flood(n)), name);
             k.members == FloodMembers(n) && (k.expiresAt.Some? ==> k.expiresAt.value > 0)
    ensures var k := KeyOf(RunAll(Flood(n + 1)), name);
            k.members == FloodMembers(n + 1) && (k.expiresAt.Some? ==> k.expiresAt.value > 0)
  {
    hide KeyspaceAfter, KeyAfter, Admits, NewMembers, FloodMembers, RunAll, Flood, KeyOf;
    FloodGrows(n);
    CallOnKey(RunAll(Flood(n)), FloodCall(n), name);
    FloodStep(LimitsFor(FloodCall(n), name), KeyOf(RunAll(Flood(n)), name), n);
  }

  /** After `n` requests the key and the application have been charged `n` units each. */
  lemma {:induction false} FloodFills(n: nat, name: KeyName)
    requires n <= 60 && name in {ApiKey("k"), Application(5)}
    ensures var k := KeyOf(RunAll(Flood(n)), name);
            k.members == FloodMembers(n) && (k.expiresAt.Some? ==> k.expiresAt.value > 0)
  {
    hide RunAll, Flood, FloodMembers, KeyOf;
    if n == 0 {
      FloodStarts(name);
    } else {
      FloodFills(n - 1, name);
      FloodFillsOne(n - 1, name);
    }
  }

  /**
    Against "the remaining layers are not charged": after 60 calls of check_all the next one is denied by the key layer
    and is still charged to the quota.
   */
  lemma QuotaChargedThoughKeyDenies() returns (qs: seq<Query>, q: Query)
    ensures forall x :: x in qs || x == q ==>
              x.c1.redisUp && x.c2.redisUp && |x.c1.request.salts| == 1 && |x.c2.request.salts| == 1
    ensures FreshOn(qs + [q], ApiKey(q.prefix)) && FreshOn(qs + [q], Application(q.app))
    ensures !Allows(RunAll(qs), q) && !Admits1(RunAll(qs), q)
    ensures !Charged(RunAll(qs), Application(q.app), q.c2) && Charged(RunAll(qs + [q]), Application(q.app), q.c2)
  {
    hide KeyspaceAfter, KeyAfter, Admits, NewMembers, FreshOn, RunAll, FloodMembers;
    qs, q := Flood(60), FloodCall(60);
    var ks := RunAll(qs);
    FloodFills(60, ApiKey("k"));
    FloodFills(60, Application(5));
    FloodStep(KEY_LIMITS, KeyOf(ks, ApiKey("k")), 60);
    FloodStep(AppLimits(1000), KeyOf(ks, Application(5)), 60);
    CallOnKey(ks, q, Application(5));
    assert qs + [q] == Flood(61);
    FloodGrows(60);
    FloodIsFresh(61, ApiKey("k"));
    FloodIsFresh(61, Application(5));
    FloodMemberIsNew(60);
  }

  lemma FloodMemberIsNew(n: nat)
    ensures Member(0, 1, n) in FloodMembers(n + 1) && Member(0, 1, n) !in FloodMembers(n)
  {
  }

  lemma {:induction false} FloodLedger(n: nat, name: KeyName)
    ensures Ledger(Flood(n), name) <= FloodMembers(n)
  {
    hide Charges, RunAll, NewMembers, Flood, Ledger;
    if n == 0 {
      FloodStarts(name);
    } else {
      FloodLedger(n - 1, name);
      FloodLedgerGrows(n - 1, name);
    }
  }

  lemma FloodLedgerGrows(n: nat, name: KeyName)
    ensures Ledger(Flood(n + 1), name) <= Ledger(Flood(n), name) + {Member(0, 1, n)}
  {
    hide Charges, RunAll, NewMembers;
    assert Flood(n + 1)[..n] == Flood(n);
    FloodCallAdds(n, name);
  }

  lemma FloodCallAdds(n: nat, name: KeyName)
    ensures NewMembers(CheckFor(FloodCall(n), name).request) == {Member(0, 1, n)}
  {
    var r := CheckFor(FloodCall(n), name).request;
    assert r == Request(0, [n]);
    assert Member(0, 0 + 1, r.salts[0]) in NewMembers(r);
  }

  lemma FloodIsFresh(n: nat, name: KeyName)
    ensures FreshOn(Flood(n), name)
  {
    hide Charges, RunAll, NewMembers, Ledger;
    forall i | 0 <= i < n
      ensures NewMembers(CheckFor(Flood(n)[i], name).request) !! Ledger(Flood(n)[..i], name)
    {
      assert Flood(n)[..i] == Flood(i);
      FloodLedger(i, name);
      FloodCallAdds(i, name);
    }
  }
}
