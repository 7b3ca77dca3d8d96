/** What a domain policy learns from one fetch (record_outcome, app/services/policy_learner.py). */
module PolicyLearner {
  import opened Common

  datatype PolicyRow = PolicyRow(
    escalationTier: int,
    tierLocked: bool,
    antibotType: Option<string>,
    consecutiveBlocks: nat,
    lastBlockReason: Option<string>,
    lastSuccessAt: Option<int>)

  /** The part of a fetch result the learner reads, with the vendor detected on the response and the clock. */
  datatype Lesson = Lesson(blocked: bool, reason: Option<string>, tierUsed: nat, vendor: Option<string>, now: int)

  function LearnedTier(row: PolicyRow, l: Lesson): int {
    if row.tierLocked then row.escalationTier
    else if l.blocked then Max(l.tierUsed, row.escalationTier)
    else Max(Max(l.tierUsed, row.escalationTier - 1), 0)
  }

  function Learn(row: PolicyRow, l: Lesson): PolicyRow {
    PolicyRow(
      LearnedTier(row, l),
      row.tierLocked,
      if l.vendor.Some? then l.vendor else row.antibotType,
      if l.blocked then row.consecutiveBlocks + 1 else 0,
      if l.blocked then l.reason else row.lastBlockReason,
      if l.blocked then row.lastSuccessAt else Some(l.now))
  }

  /** The live row that the learner updates in place. */
  class DomainPolicy {
    var escalationTier: int
    var tierLocked: bool
    var antibotType: Option<string>
    var consecutiveBlocks: nat
    var lastBlockReason: Option<string>
    var lastSuccessAt: Option<int>

    ghost function Row(): PolicyRow
      reads this
    {
      PolicyRow(escalationTier, tierLocked, antibotType, consecutiveBlocks, lastBlockReason, lastSuccessAt)
    }

    /** `found` is false when the row is gone or another worker holds its lock; the outcome is then skipped. */
    method RecordOutcome(l: Lesson, found: bool)
      modifies this
      ensures Row() == if found then Learn(old(Row()), l) else old(Row())
    {
      if !found { return; }
      if l.vendor.Some? && antibotType != l.vendor { antibotType := l.vendor; }
      if !tierLocked {
        if l.blocked {
          escalationTier := Max(l.tierUsed, escalationTier);
        } else {
          escalationTier := Max(Max(l.tierUsed, escalationTier - 1), 0);
        }
      }
      if l.blocked {
        lastBlockReason := l.reason;
        consecutiveBlocks := consecutiveBlocks + 1;
      } else {
        lastSuccessAt := Some(l.now);
        consecutiveBlocks := 0;
      }
    }
  }

  function LearnAll(row: PolicyRow, lessons: seq<Lesson>): PolicyRow {
    if lessons == [] then row else Learn(LearnAll(row, lessons[..|lessons| - 1]), lessons[|lessons| - 1])
  }

  /** An operator's lock holds the tier through any sequence of outcomes. */
  lemma {:induction false} LockHoldsTier(row: PolicyRow, lessons: seq<Lesson>)
    requires row.tierLocked
    ensures LearnAll(row, lessons).tierLocked && LearnAll(row, lessons).escalationTier == row.escalationTier
  {
    if lessons != [] { LockHoldsTier(row, lessons[..|lessons| - 1]); }
  }

  /** The last `k` outcomes were blocked. */
  ghost predicate EndsInBlocks(lessons: seq<Lesson>, k: nat) {
    k <= |lessons| && forall i :: |lessons| - k <= i < |lessons| ==> lessons[i].blocked
  }

  /** The block counter is the exact length of the trailing run of blocks, whatever happened before. */
  lemma {:induction false} CounterIsTrailingBlocks(row: PolicyRow, lessons: seq<Lesson>)
    requires row.consecutiveBlocks == 0
    ensures var k := LearnAll(row, lessons).consecutiveBlocks;
            EndsInBlocks(lessons, k) && !EndsInBlocks(lessons, k + 1)
  {
    if lessons != [] {
      var init, last := lessons[..|lessons| - 1], lessons[|lessons| - 1];
      CounterIsTrailingBlocks(row, init);
      var k := LearnAll(row, init).consecutiveBlocks;
      if last.blocked && k < |init| {
        assert !init[|init| - k - 1].blocked;
        assert lessons[|init| - k - 1] == init[|init| - k - 1];
      } else if !last.blocked {
        assert !lessons[|lessons| - 1].blocked;
      }
    }
  }

  /** The antibot type is the last vendor any response revealed; responses without a vendor never erase it. */
  lemma {:induction false} LastVendorWins(row: PolicyRow, lessons: seq<Lesson>, i: nat)
    requires i <= |lessons| && forall j :: i <= j < |lessons| ==> lessons[j].vendor.None?
    ensures LearnAll(row, lessons).antibotType ==
            (if i == 0 then row.antibotType
             else if lessons[i - 1].vendor.Some? then lessons[i - 1].vendor
             else LearnAll(row, lessons[..i]).antibotType)
    decreases |lessons|
  {
    if i < |lessons| {
      var init := lessons[..|lessons| - 1];
      LastVendorWins(row, init, i);
      assert init[..i] == lessons[..i];
    } else {
      assert lessons[..i] == lessons;
    }
  }

  /** Among the outcomes from number `i` on, the successes. */
  function SuccessesFrom(lessons: seq<Lesson>, i: nat): nat
    requires i <= |lessons|
    decreases |lessons| - i
  {
    if i == |lessons| then 0 else (if lessons[i].blocked then 0 else 1) + SuccessesFrom(lessons, i + 1)
  }

  lemma {:induction false} SuccessesAppend(lessons: seq<Lesson>, l: Lesson, i: nat)
    requires i <= |lessons|
    ensures SuccessesFrom(lessons + [l], i) == SuccessesFrom(lessons, i) + (if l.blocked then 0 else 1)
    decreases |lessons| - i
  {
    if i < |lessons| {
      SuccessesAppend(lessons, l, i + 1);
    } else {
      assert SuccessesFrom(lessons + [l], i + 1) == 0;
    }
  }

  /**
    What outcome `i` is still worth at the end: every outcome teaches the tier it ran on, and each later success takes
    one off. Number |lessons| stands for the tier the row started with.
   */
  function WorthOf(row: PolicyRow, lessons: seq<Lesson>, i: nat): int
    requires i <= |lessons|
  {
    if i == |lessons| then row.escalationTier - SuccessesFrom(lessons, 0)
    else lessons[i].tierUsed - SuccessesFrom(lessons, i + 1)
  }

  /**
    The learned tier in closed form, over any outcomes: the highest worth of the start tier and of the outcomes. Blocks
    ratchet up and never down; a success takes at most one off, but never below the tier it ran on.
   */
  lemma {:induction false} TierIsHighestWorth(row: PolicyRow, lessons: seq<Lesson>) returns (best: nat)
    requires !row.tierLocked
    ensures !LearnAll(row, lessons).tierLocked
    ensures best <= |lessons| && LearnAll(row, lessons).escalationTier == WorthOf(row, lessons, best)
    ensures forall i :: 0 <= i <= |lessons| ==> WorthOf(row, lessons, i) <= LearnAll(row, lessons).escalationTier
  {
    if lessons == [] {
      best := 0;
    } else {
      var init, l := lessons[..|lessons| - 1], lessons[|lessons| - 1];
      var before := TierIsHighestWorth(row, init);
      assert lessons == init + [l];
      var fall := if l.blocked then 0 else 1;
      forall i | 0 <= i <= |init|
        ensures (if i < |init| then WorthOf(row, lessons, i) else WorthOf(row, lessons, |lessons|))
                == WorthOf(row, init, i) - fall
      {
        WorthFalls(row, init, l, i);
      }
      assert WorthOf(row, lessons, |init|) == l.tierUsed;
      best := if l.tierUsed > LearnAll(row, init).escalationTier - fall then |init|
              else if before < |init| then before else |lessons|;
    }
  }

  lemma WorthFalls(row: PolicyRow, lessons: seq<Lesson>, l: Lesson, i: nat)
    requires i <= |lessons|
    ensures WorthOf(row, lessons + [l], if i < |lessons| then i else |lessons| + 1)
            == WorthOf(row, lessons, i) - (if l.blocked then 0 else 1)
  {
    SuccessesAppend(lessons, l, 0);
    if i < |lessons| { SuccessesAppend(lessons, l, i + 1); }
  }

  /** Since the last success the tier is at least that of every block. */
  lemma BlocksTeach(row: PolicyRow, lessons: seq<Lesson>, i: nat)
    requires !row.tierLocked && i < |lessons| && forall j :: i <= j < |lessons| ==> lessons[j].blocked
    ensures LearnAll(row, lessons).escalationTier >= lessons[i].tierUsed
  {
    var best := TierIsHighestWorth(row, lessons);
    NoSuccessesFrom(lessons, i + 1);
    assert WorthOf(row, lessons, i) == lessons[i].tierUsed;
  }

  lemma {:induction false} NoSuccessesFrom(lessons: seq<Lesson>, i: nat)
    requires i <= |lessons| && forall j :: i <= j < |lessons| ==> lessons[j].blocked
    ensures SuccessesFrom(lessons, i) == 0
    decreases |lessons| - i
  {
    if i < |lessons| { NoSuccessesFrom(lessons, i + 1); }
  }

  /** The stored reason is that of the last block, and the stored time that of the last success, locked or not. */
  lemma {:induction false} LastOutcomesRemembered(row: PolicyRow, lessons: seq<Lesson>, i: nat)
    requires i <= |lessons|
    ensures (forall j :: i <= j < |lessons| ==> !lessons[j].blocked) ==>
              LearnAll(row, lessons).lastBlockReason ==
              (if i == 0 then row.lastBlockReason
               else if lessons[i - 1].blocked then lessons[i - 1].reason
               else LearnAll(row, lessons[..i]).lastBlockReason)
    ensures (forall j :: i <= j < |lessons| ==> lessons[j].blocked) ==>
              LearnAll(row, lessons).lastSuccessAt ==
              (if i == 0 then row.lastSuccessAt
               else if !lessons[i - 1].blocked then Some(lessons[i - 1].now)
               else LearnAll(row, lessons[..i]).lastSuccessAt)
    decreases |lessons|
  {
    if i < |lessons| {
      var init := lessons[..|lessons| - 1];
      LastOutcomesRemembered(row, init, i);
      assert init[..i] == lessons[..i];
      assert forall j :: i <= j < |init| ==> init[j] == lessons[j];
    } else {
      assert lessons[..i] == lessons;
    }
  }

  /** Against its own comment, a success ratchets the tier up exactly when it was produced above the learned tier. */
  lemma SuccessRaisesIff(row: PolicyRow, l: Lesson)
    requires !row.tierLocked && !l.blocked && row.escalationTier >= 0
    ensures LearnedTier(row, l) > row.escalationTier <==> l.tierUsed > row.escalationTier
    ensures LearnedTier(row, l) >= row.escalationTier - 1
  {
  }
}
