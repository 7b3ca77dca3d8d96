/**
  The per-domain circuit breaker: two Redis keys with a TTL
  (ProxyManager._increment_circuit_breaker, _reset_circuit_breaker, _is_circuit_open).
 */
module CircuitBreaker {
  import opened Common

  datatype Counter = Counter(value: nat, expiresAt: int)

  datatype EventType = CircuitOpen | CircuitClose

  /** `counter` is the failure key, `openUntil` the expiry of the state key, `log` the events of this domain. */
  datatype Breaker = Breaker(counter: Option<Counter>, openUntil: Option<int>, log: seq<EventType>)

  const FRESH: Breaker := Breaker(None, None, [])

  /** `timeout` is in seconds; both keys live for twice that long. */
  datatype Settings = Settings(threshold: int, timeout: int)

  /** An operation on the breaker: a failed report, a successful report, or the operator's reset. */
  datatype Op = Failure(at: int) | Success(at: int) | AdminReset(at: int)

  predicate IsOpen(b: Breaker, now: int) {
    b.openUntil.Some? && now < b.openUntil.value
  }

  function LiveCount(b: Breaker, now: int): nat {
    if b.counter.Some? && now < b.counter.value.expiresAt then b.counter.value.value else 0
  }

  function Increment(s: Settings, b: Breaker, now: int): Breaker {
    var count := LiveCount(b, now) + 1;
    var expiry := now + 2 * s.timeout;
    if count >= s.threshold then
      Breaker(Some(Counter(count, expiry)), Some(expiry), if IsOpen(b, now) then b.log else b.log + [CircuitOpen])
    else
      b.(counter := Some(Counter(count, expiry)))
  }

  /** `announce` is whether the caller turns the return value into a `circuit_close` event. */
  function Reset(b: Breaker, now: int, announce: bool): Breaker {
    Breaker(None, None, if announce && IsOpen(b, now) then b.log + [CircuitClose] else b.log)
  }

  function Apply(s: Settings, b: Breaker, op: Op): Breaker {
    match op
    case Failure(at) => Increment(s, b, at)
    case Success(at) => Reset(b, at, true)
    case AdminReset(at) => Reset(b, at, false)
  }

  function Replay(s: Settings, ops: seq<Op>): Breaker {
    if ops == [] then FRESH else Apply(s, Replay(s, ops[..|ops| - 1]), ops[|ops| - 1])
  }

  ghost predicate InOrder(ops: seq<Op>) {
    forall i, j :: 0 <= i < j < |ops| ==> ops[i].at <= ops[j].at
  }

  /** The last `k` operations are failures, each less than 2 * timeout after the one before it. */
  ghost predicate FailureStreak(s: Settings, ops: seq<Op>, k: nat) {
    && k <= |ops|
    && (forall i :: |ops| - k <= i < |ops| ==> ops[i].Failure?)
    && (forall i :: |ops| - k < i < |ops| ==> ops[i].at < ops[i - 1].at + 2 * s.timeout)
  }

  /** The streak has length at least `k >= 1` and its last failure is less than 2 * timeout old. */
  ghost predicate LiveStreak(s: Settings, ops: seq<Op>, k: nat, now: int) {
    && 1 <= k
    && FailureStreak(s, ops, k)
    && now < ops[|ops| - 1].at + 2 * s.timeout
  }

  /** The stored counter is a live streak of maximal length; the state key mirrors the counter key. */
  ghost predicate Represents(s: Settings, ops: seq<Op>, b: Breaker) {
    match b.counter
    case None => b.openUntil.None? && (ops == [] || !ops[|ops| - 1].Failure?)
    case Some(c) =>
      && 1 <= c.value
      && FailureStreak(s, ops, c.value)
      && !FailureStreak(s, ops, c.value + 1)
      && c.expiresAt == ops[|ops| - 1].at + 2 * s.timeout
      && (c.value >= s.threshold ==> b.openUntil == Some(c.expiresAt))
      && (c.value < s.threshold ==> b.openUntil.None? || b.openUntil.value <= ops[|ops| - 1].at)
  }

  lemma {:induction false} StreakShrinks(s: Settings, ops: seq<Op>, k: nat, j: nat)
    requires FailureStreak(s, ops, k) && j <= k
    ensures FailureStreak(s, ops, j)
  {
  }

  /** A streak of length k+1 ends in a failure and continues a streak of length k that was still live. */
  lemma StreakExtends(s: Settings, ops: seq<Op>, op: Op, k: nat)
    requires k <= |ops|
    ensures FailureStreak(s, ops + [op], k + 1) <==>
            op.Failure? && FailureStreak(s, ops, k) && (k > 0 ==> op.at < ops[|ops| - 1].at + 2 * s.timeout)
  {
    var all := ops + [op];
    assert all[|all| - 1] == op;
    assert forall i :: 0 <= i < |ops| ==> all[i] == ops[i];
    if FailureStreak(s, all, k + 1) {
      assert forall i :: |ops| - k <= i < |ops| ==> all[i].Failure?;
      assert forall i :: |ops| - k < i < |ops| ==> all[i].at < all[i - 1].at + 2 * s.timeout;
      if k > 0 { assert all[|ops|].at < all[|ops| - 1].at + 2 * s.timeout; }
    }
  }

  lemma StreakBasics(s: Settings, ops: seq<Op>, k: nat)
    ensures FailureStreak(s, ops, 0)
    ensures FailureStreak(s, ops, 1) <==> ops != [] && ops[|ops| - 1].Failure?
    ensures FailureStreak(s, ops, k) ==> k <= |ops|
  {
  }

  lemma FailureRepresents(s: Settings, ops: seq<Op>, b: Breaker, at: int)
    requires Represents(s, ops, b)
    requires ops != [] ==> ops[|ops| - 1].at <= at
    ensures Represents(s, ops + [Failure(at)], Increment(s, b, at))
  {
    hide FailureStreak;
    var op, count := Failure(at), LiveCount(b, at);
    var all := ops + [op];
    StreakBasics(s, ops, count);
    StreakBasics(s, all, count + 2);
    StreakExtends(s, ops, op, count);
    if count + 1 <= |ops| { StreakExtends(s, ops, op, count + 1); }
    if b.counter.Some? { StreakShrinks(s, ops, b.counter.value.value, 1); }
  }

  lemma ApplyRepresents(s: Settings, ops: seq<Op>, b: Breaker, op: Op)
    requires Represents(s, ops, b)
    requires InOrder(ops + [op])
    ensures Represents(s, ops + [op], Apply(s, b, op))
  {
    hide FailureStreak;
    var all := ops + [op];
    assert all[|all| - 1] == op;
    if op.Failure? {
      if ops != [] { assert all[|ops| - 1].at <= all[|ops|].at; }
      FailureRepresents(s, ops, b, op.at);
    }
  }

  lemma {:induction false} ReplayRepresents(s: Settings, ops: seq<Op>)
    requires InOrder(ops)
    ensures Represents(s, ops, Replay(s, ops))
  {
    if ops != [] {
      var prefix, last := ops[..|ops| - 1], ops[|ops| - 1];
      assert ops == prefix + [last];
      ReplayRepresents(s, prefix);
      ApplyRepresents(s, prefix, Replay(s, prefix), last);
    }
  }

  /**
    Main result: for every ordered history of reports and resets, the breaker is open at `now`
    exactly when the last max(1, threshold) operations form a live failure streak.
   */
  lemma {:induction false} OpenIffLiveStreak(s: Settings, ops: seq<Op>, now: int)
    requires InOrder(ops)
    requires ops != [] ==> ops[|ops| - 1].at <= now
    ensures IsOpen(Replay(s, ops), now) <==> LiveStreak(s, ops, Max(1, s.threshold), now)
  {
    ReplayRepresents(s, ops);
    var b, k := Replay(s, ops), Max(1, s.threshold);
    if b.counter.Some? {
      var c := b.counter.value.value;
      if k <= c {
        StreakShrinks(s, ops, c, k);
      } else if FailureStreak(s, ops, k) {
        StreakShrinks(s, ops, k, c + 1);
      }
    }
  }

  /** The live counter, too, is the streak: it has reached `k` iff the last `k` operations are a live failure streak. */
  lemma LiveCountIsStreak(s: Settings, ops: seq<Op>, k: nat, now: int)
    requires InOrder(ops) && k >= 1
    requires ops != [] ==> ops[|ops| - 1].at <= now
    ensures LiveCount(Replay(s, ops), now) >= k <==> LiveStreak(s, ops, k, now)
  {
    hide Replay;
    ReplayRepresents(s, ops);
    var b := Replay(s, ops);
    if b.counter.Some? {
      var c := b.counter.value.value;
      if k <= c {
        StreakShrinks(s, ops, c, k);
      } else if FailureStreak(s, ops, k) {
        StreakShrinks(s, ops, k, c + 1);
      }
    }
  }

  /**
    The event log, exactly. A success writes circuit_close iff the breaker was open, that is, its history ended in a
    live streak; an operator's reset writes nothing; a failure writes circuit_open iff it completes a streak of the
    threshold while no such streak was live.
   */
  lemma LogIsExact(s: Settings, ops: seq<Op>, op: Op)
    requires InOrder(ops + [op])
    ensures var log, log', k := Replay(s, ops).log, Replay(s, ops + [op]).log, Max(1, s.threshold);
            match op
            case Success(at) => log' == log + (if LiveStreak(s, ops, k, at) then [CircuitClose] else [])
            case AdminReset(_) => log' == log
            case Failure(at) =>
              log' == log + (if FailureStreak(s, ops + [op], k) && !LiveStreak(s, ops, k, at) then [CircuitOpen]
                             else [])
  {
    hide LiveStreak, FailureStreak, Represents, Replay;
    var all := ops + [op];
    ReplayAppend(s, ops, op);
    InOrderInit(ops, op);
    OpenIffLiveStreak(s, ops, op.at);
    if op.Failure? { CountReachesIff(s, ops, op.at); }
  }

  lemma ReplayAppend(s: Settings, ops: seq<Op>, op: Op)
    ensures Replay(s, ops + [op]) == Apply(s, Replay(s, ops), op)
  {
    assert (ops + [op])[..|ops + [op]| - 1] == ops;
  }

  lemma InOrderInit(ops: seq<Op>, op: Op)
    requires InOrder(ops + [op])
    ensures InOrder(ops) && (ops != [] ==> ops[|ops| - 1].at <= op.at)
  {
    var all := ops + [op];
    assert forall i :: 0 <= i < |ops| ==> all[i] == ops[i];
    if ops != [] { assert all[|ops| - 1].at <= all[|ops|].at; }
  }

  /** The count a failure brings the key to reaches the threshold iff the failure completes a streak of that length. */
  lemma CountReachesIff(s: Settings, ops: seq<Op>, at: int)
    requires InOrder(ops + [Failure(at)])
    ensures LiveCount(Replay(s, ops), at) + 1 >= s.threshold
            <==> FailureStreak(s, ops + [Failure(at)], Max(1, s.threshold))
  {
    hide Replay;
    var op, k := Failure(at), Max(1, s.threshold);
    InOrderInit(ops, op);
    if k - 1 <= |ops| {
      StreakExtends(s, ops, op, k - 1);
      if k > 1 { LiveCountIsStreak(s, ops, k - 1, at); }
    } else {
      LiveCountIsStreak(s, ops, k - 1, at);
    }
  }

  function Count(log: seq<EventType>, e: EventType): nat {
    if log == [] then 0 else Count(log[..|log| - 1], e) + (if log[|log| - 1] == e then 1 else 0)
  }

  /** Every close is preceded directly by an open. */
  ghost predicate ClosesFollowOpens(log: seq<EventType>) {
    forall i :: 0 <= i < |log| && log[i] == CircuitClose ==> i > 0 && log[i - 1] == CircuitOpen
  }

  /** Closes follow opens, and a breaker with a state key has logged its opening last. */
  ghost predicate Paired(b: Breaker) {
    ClosesFollowOpens(b.log) && (b.openUntil.Some? ==> b.log != [] && b.log[|b.log| - 1] == CircuitOpen)
  }

  lemma StepKeepsPaired(s: Settings, b: Breaker, op: Op)
    requires Paired(b)
    ensures Paired(Apply(s, b, op))
  {
  }

  lemma {:induction false} LogStaysPaired(s: Settings, ops: seq<Op>)
    ensures Paired(Replay(s, ops))
  {
    hide Apply, Paired;
    if ops != [] {
      LogStaysPaired(s, ops[..|ops| - 1]);
      StepKeepsPaired(s, Replay(s, ops[..|ops| - 1]), ops[|ops| - 1]);
    } else {
      FreshIsPaired();
    }
  }

  lemma FreshIsPaired()
    ensures Paired(FRESH)
  {
  }

  lemma {:induction false} PairedLogNeverOvercloses(log: seq<EventType>)
    requires ClosesFollowOpens(log)
    ensures Count(log, CircuitClose) <= Count(log, CircuitOpen)
    ensures log != [] && log[|log| - 1] == CircuitOpen ==> Count(log, CircuitClose) < Count(log, CircuitOpen)
    decreases |log|
  {
    if log != [] {
      PairedLogNeverOvercloses(log[..|log| - 1]);
    }
  }

  /** In every prefix of a domain's event log, closes never outnumber opens, and no two closes are adjacent. */
  lemma ClosesNeverOutnumberOpens(s: Settings, ops: seq<Op>, n: nat)
    requires n <= |Replay(s, ops).log|
    ensures var log := Replay(s, ops).log[..n];
            ClosesFollowOpens(log) && Count(log, CircuitClose) <= Count(log, CircuitOpen)
  {
    LogStaysPaired(s, ops);
    PairedLogNeverOvercloses(Replay(s, ops).log[..n]);
  }
}
