/**
  Deduplication and the archive index (app/services/warc/dedup.py), with the revisit lookup of the read endpoint
  (app/api/v1/endpoints/archive.py). The duplicate check and the insert of one archive call are separate database steps,
  so calls of different workers interleave between them.
 */
module WarcDedup {
  import opened Common

  datatype IndexRow = IndexRow(
    url: string, file: string, offset: nat, length: nat, sha: string, isRevisit: bool, capturedAt: int)

  /** The most recently captured row of the (url, digest) pair. */
  function CheckDuplicate(rows: seq<IndexRow>, url: string, sha: string): (found: Option<IndexRow>)
    ensures found.None? <==> forall r :: r in rows ==> r.url != url || r.sha != sha
    ensures found.Some? ==> found.value in rows && found.value.url == url && found.value.sha == sha
    ensures found.Some? ==>
              forall r :: r in rows && r.url == url && r.sha == sha ==> r.capturedAt <= found.value.capturedAt
  {
    if rows == [] then None
    else
      var rest, r := CheckDuplicate(rows[1..], url, sha), rows[0];
      if r.url == url && r.sha == sha && (rest.None? || rest.value.capturedAt <= r.capturedAt) then Some(r) else rest
  }

  /** The read endpoint's lookup: the earliest captured non-revisit row with the digest, of any URL. */
  function OriginalOf(rows: seq<IndexRow>, sha: string): (found: Option<IndexRow>)
    ensures found.None? <==> forall r :: r in rows ==> r.isRevisit || r.sha != sha
    ensures found.Some? ==> found.value in rows && found.value.sha == sha && !found.value.isRevisit
    ensures found.Some? ==>
              forall r :: r in rows && r.sha == sha && !r.isRevisit ==> found.value.capturedAt <= r.capturedAt
  {
    if rows == [] then None
    else
      var rest, r := OriginalOf(rows[1..], sha), rows[0];
      if r.sha == sha && !r.isRevisit && (rest.None? || r.capturedAt <= rest.value.capturedAt) then Some(r) else rest
  }

  /** What an archive call has decided after its duplicate check. */
  datatype Draft = Draft(url: string, sha: string, isRevisit: bool)

  datatype System = System(rows: seq<IndexRow>, drafts: map<nat, Draft>)

  /** `dbFails` is a failed duplicate query, which falls back to a full record. */
  datatype Step =
    | Check(task: nat, url: string, sha: string, dbFails: bool)
    | Insert(task: nat, file: string, offset: nat, length: nat, capturedAt: int)

  function Apply(s: System, step: Step): System {
    match step
    case Check(t, url, sha, dbFails) =>
      s.(drafts := s.drafts[t := Draft(url, sha, !dbFails && CheckDuplicate(s.rows, url, sha).Some?)])
    case Insert(t, file, offset, length, capturedAt) =>
      if t !in s.drafts then s
      else
        var d := s.drafts[t];
        System(s.rows + [IndexRow(d.url, file, offset, length, d.sha, d.isRevisit, capturedAt)], s.drafts - {t})
  }

  function Run(steps: seq<Step>): System {
    if steps == [] then System([], map[]) else Apply(Run(steps[..|steps| - 1]), steps[|steps| - 1])
  }

  /** Some row among the first `n` is a full record of the pair. */
  ghost predicate HasOriginal(rows: seq<IndexRow>, n: nat, url: string, sha: string) {
    exists i :: 0 <= i < n && i < |rows| && rows[i].url == url && rows[i].sha == sha && !rows[i].isRevisit
  }

  ghost predicate Resolved(s: System) {
    && (forall j :: 0 <= j < |s.rows| && s.rows[j].isRevisit ==> HasOriginal(s.rows, j, s.rows[j].url, s.rows[j].sha))
    && (forall t :: t in s.drafts && s.drafts[t].isRevisit ==>
          HasOriginal(s.rows, |s.rows|, s.drafts[t].url, s.drafts[t].sha))
  }

  /** Any row of a pair, revisit or not, implies an original of the pair. */
  lemma AnyRowHasOriginal(s: System, j: nat)
    requires Resolved(s) && j < |s.rows|
    ensures HasOriginal(s.rows, |s.rows|, s.rows[j].url, s.rows[j].sha)
  {
    if s.rows[j].isRevisit {
      var i :| 0 <= i < j && s.rows[i].url == s.rows[j].url && s.rows[i].sha == s.rows[j].sha && !s.rows[i].isRevisit;
    }
  }

  lemma HasOriginalGrows(rows: seq<IndexRow>, r: IndexRow, n: nat, m: nat, url: string, sha: string)
    requires HasOriginal(rows, n, url, sha) && n <= m
    ensures HasOriginal(rows + [r], m, url, sha)
  {
    var i :| 0 <= i < n && i < |rows| && rows[i].url == url && rows[i].sha == sha && !rows[i].isRevisit;
    assert (rows + [r])[i] == rows[i];
  }

  lemma CheckKeepsResolved(s: System, step: Step)
    requires Resolved(s) && step.Check?
    ensures Resolved(Apply(s, step))
  {
    var found := CheckDuplicate(s.rows, step.url, step.sha);
    if found.Some? {
      var j :| 0 <= j < |s.rows| && s.rows[j] == found.value;
      AnyRowHasOriginal(s, j);
    }
  }

  lemma InsertKeepsResolved(s: System, step: Step)
    requires Resolved(s) && step.Insert?
    ensures Resolved(Apply(s, step))
  {
    hide HasOriginal;
    var s' := Apply(s, step);
    if step.task in s.drafts {
      var r := s'.rows[|s.rows|];
      assert s'.rows == s.rows + [r];
      forall j | 0 <= j < |s'.rows| && s'.rows[j].isRevisit
        ensures HasOriginal(s'.rows, j, s'.rows[j].url, s'.rows[j].sha)
      {
        HasOriginalGrows(s.rows, r, j, j, s'.rows[j].url, s'.rows[j].sha);
      }
      forall t | t in s'.drafts && s'.drafts[t].isRevisit
        ensures HasOriginal(s'.rows, |s'.rows|, s'.drafts[t].url, s'.drafts[t].sha)
      {
        HasOriginalGrows(s.rows, r, |s.rows|, |s'.rows|, s'.drafts[t].url, s'.drafts[t].sha);
      }
    }
  }

  lemma {:induction false} RunResolved(steps: seq<Step>)
    ensures Resolved(Run(steps))
  {
    hide Apply;
    if steps != [] {
      RunResolved(steps[..|steps| - 1]);
      if steps[|steps| - 1].Check? {
        CheckKeepsResolved(Run(steps[..|steps| - 1]), steps[|steps| - 1]);
      } else {
        InsertKeepsResolved(Run(steps[..|steps| - 1]), steps[|steps| - 1]);
      }
    }
  }

  /**
    In every interleaving of archive calls, each revisit row has an earlier indexed full record of the same URL and
    digest, so the read endpoint's lookup never misses and returns a full record of the same digest captured no later
    than it.
   */
  lemma RevisitsAlwaysResolve(steps: seq<Step>, j: nat)
    requires j < |Run(steps).rows| && Run(steps).rows[j].isRevisit
    ensures var rows := Run(steps).rows;
            && HasOriginal(rows, j, rows[j].url, rows[j].sha)
            && OriginalOf(rows, rows[j].sha).Some?
            && exists i :: 0 <= i < j && rows[i].url == rows[j].url && rows[i].sha == rows[j].sha && !rows[i].isRevisit
                 && OriginalOf(rows, rows[j].sha).value.capturedAt <= rows[i].capturedAt
  {
    hide Run, Apply;
    RunResolved(steps);
    var rows := Run(steps).rows;
    var i :| 0 <= i < j && rows[i].url == rows[j].url && rows[i].sha == rows[j].sha && !rows[i].isRevisit;
    assert rows[i] in rows;
  }

  // ---------- which rows are revisits, in every interleaving ----------

  /**
    What an archive call's duplicate check ran on: the number of rows indexed at that moment, and whether it failed.
   */
  datatype Query = Query(seen: nat, failed: bool)

  /** The query of each call in flight and of the call behind each row. */
  datatype Origins = Origins(pending: map<nat, Query>, ofRow: seq<Query>)

  function NoteStep(s: System, o: Origins, step: Step): Origins {
    match step
    case Check(t, _, _, dbFails) => o.(pending := o.pending[t := Query(|s.rows|, dbFails)])
    case Insert(t, _, _, _, _) =>
      if t in o.pending then Origins(o.pending - {t}, o.ofRow + [o.pending[t]]) else o
  }

  function OriginsOf(steps: seq<Step>): Origins {
    if steps == [] then Origins(map[], [])
    else
      var init := steps[..|steps| - 1];
      NoteStep(Run(init), OriginsOf(init), steps[|steps| - 1])
  }

  /** The pair occurs among the first `n` rows. */
  ghost predicate IndexedBefore(rows: seq<IndexRow>, n: nat, url: string, sha: string) {
    exists i :: 0 <= i < n && i < |rows| && rows[i].url == url && rows[i].sha == sha
  }

  /** The decision `isRevisit` is the one query `q` calls for. */
  ghost predicate Decides(rows: seq<IndexRow>, q: Query, url: string, sha: string, isRevisit: bool) {
    isRevisit <==> !q.failed && IndexedBefore(rows, q.seen, url, sha)
  }

  ghost predicate OriginsExplain(s: System, o: Origins) {
    && o.pending.Keys == s.drafts.Keys
    && (forall t :: t in s.drafts ==>
          && o.pending[t].seen <= |s.rows|
          && Decides(s.rows, o.pending[t], s.drafts[t].url, s.drafts[t].sha, s.drafts[t].isRevisit))
    && |o.ofRow| == |s.rows|
    && (forall j :: 0 <= j < |s.rows| ==>
          && o.ofRow[j].seen <= j
          && Decides(s.rows, o.ofRow[j], s.rows[j].url, s.rows[j].sha, s.rows[j].isRevisit))
  }

  lemma CheckDecides(rows: seq<IndexRow>, url: string, sha: string, dbFails: bool)
    ensures Decides(rows, Query(|rows|, dbFails), url, sha, !dbFails && CheckDuplicate(rows, url, sha).Some?)
  {
    if IndexedBefore(rows, |rows|, url, sha) {
      var i :| 0 <= i < |rows| && rows[i].url == url && rows[i].sha == sha;
      assert rows[i] in rows;
    }
  }

  /** Rows indexed after a query do not change what it decided. */
  lemma DecidesGrows(rows: seq<IndexRow>, r: IndexRow, q: Query, url: string, sha: string, isRevisit: bool)
    requires Decides(rows, q, url, sha, isRevisit) && q.seen <= |rows|
    ensures Decides(rows + [r], q, url, sha, isRevisit)
  {
    assert forall i :: 0 <= i < |rows| ==> (rows + [r])[i] == rows[i];
  }

  lemma NoteStepExplains(s: System, o: Origins, step: Step)
    requires OriginsExplain(s, o)
    ensures OriginsExplain(Apply(s, step), NoteStep(s, o, step))
  {
    hide Decides, CheckDuplicate;
    var s' := Apply(s, step);
    match step
    case Check(_, url, sha, dbFails) => CheckDecides(s.rows, url, sha, dbFails);
    case Insert(t, _, _, _, _) =>
      if t in s.drafts {
        var r := s'.rows[|s.rows|];
        assert s'.rows == s.rows + [r];
        forall u | u in s.drafts {
          DecidesGrows(s.rows, r, o.pending[u], s.drafts[u].url, s.drafts[u].sha, s.drafts[u].isRevisit);
        }
        forall j | 0 <= j < |s.rows| {
          DecidesGrows(s.rows, r, o.ofRow[j], s.rows[j].url, s.rows[j].sha, s.rows[j].isRevisit);
        }
      }
  }

  lemma {:induction false} RunExplained(steps: seq<Step>)
    ensures OriginsExplain(Run(steps), OriginsOf(steps))
  {
    hide Apply, NoteStep, Decides;
    if steps != [] {
      RunExplained(steps[..|steps| - 1]);
      NoteStepExplains(Run(steps[..|steps| - 1]), OriginsOf(steps[..|steps| - 1]), steps[|steps| - 1]);
    }
  }

  /**
    Exactly which captures are stored as revisits in an arbitrary interleaving: those whose own duplicate query worked
    and found a row of the same URL and digest indexed before the query, which is before the row itself.
   */
  lemma RevisitIffIndexedAtCheck(steps: seq<Step>, j: nat)
    requires j < |Run(steps).rows|
    ensures |OriginsOf(steps).ofRow| == |Run(steps).rows|
    ensures var rows, q := Run(steps).rows, OriginsOf(steps).ofRow[j];
            && q.seen <= j
            && (rows[j].isRevisit <==> !q.failed && IndexedBefore(rows, q.seen, rows[j].url, rows[j].sha))
  {
    hide Run, OriginsOf;
    RunExplained(steps);
  }

  /**
    A pair is stored in full once in an interleaving exactly when every later capture of it had its query answered
    after the first one was indexed.
   */
  lemma StoredOnceIff(steps: seq<Step>, i: nat)
    requires i < |Run(steps).rows|
    requires !IndexedBefore(Run(steps).rows, i, Run(steps).rows[i].url, Run(steps).rows[i].sha)
    ensures |OriginsOf(steps).ofRow| == |Run(steps).rows|
    ensures var rows, ofRow := Run(steps).rows, OriginsOf(steps).ofRow;
            && !rows[i].isRevisit
            && ((forall j :: i < j < |rows| && rows[j].url == rows[i].url && rows[j].sha == rows[i].sha ==>
                   rows[j].isRevisit)
                <==> (forall j :: i < j < |rows| && rows[j].url == rows[i].url && rows[j].sha == rows[i].sha ==>
                        !ofRow[j].failed && i < ofRow[j].seen))
  {
    hide Run, OriginsOf, Apply;
    var rows := Run(steps).rows;
    RevisitIffIndexedAtCheck(steps, i);
    forall j | i < j < |rows| && rows[j].url == rows[i].url && rows[j].sha == rows[i].sha
      ensures rows[j].isRevisit <==> !OriginsOf(steps).ofRow[j].failed && i < OriginsOf(steps).ofRow[j].seen
    {
      RevisitIffIndexedAtCheck(steps, j);
      FirstRowDecides(rows, i, OriginsOf(steps).ofRow[j].seen);
    }
  }

  lemma FirstRowDecides(rows: seq<IndexRow>, i: nat, n: nat)
    requires i < |rows| && !IndexedBefore(rows, i, rows[i].url, rows[i].sha)
    ensures IndexedBefore(rows, n, rows[i].url, rows[i].sha) <==> i < n
  {
  }

  // ---------- archive calls that do not overlap ----------

  datatype Call = Call(url: string, sha: string, file: string, offset: nat, length: nat, at: int)

  function Serial(calls: seq<Call>): seq<Step> {
    if calls == [] then []
    else
      var c := calls[|calls| - 1];
      Serial(calls[..|calls| - 1]) + [Check(0, c.url, c.sha, false), Insert(0, c.file, c.offset, c.length, c.at)]
  }

  lemma RunTwo(steps: seq<Step>, a: Step, b: Step)
    ensures Run(steps + [a, b]) == Apply(Apply(Run(steps), a), b)
  {
    var one, two := steps + [a], steps + [a, b];
    assert two[..|two| - 1] == one && one[..|one| - 1] == steps;
  }

  ghost predicate Repeats(calls: seq<Call>, j: nat)
    requires j < |calls|
  {
    exists i :: 0 <= i < j && calls[i].url == calls[j].url && calls[i].sha == calls[j].sha
  }

  /** On an index that mirrors the calls so far, the query finds the next call's pair iff that call repeats one. */
  lemma QueryFindsRepeat(rows: seq<IndexRow>, calls: seq<Call>)
    requires |calls| == |rows| + 1
    requires forall i :: 0 <= i < |rows| ==> rows[i].url == calls[i].url && rows[i].sha == calls[i].sha
    ensures CheckDuplicate(rows, calls[|rows|].url, calls[|rows|].sha).Some? <==> Repeats(calls, |rows|)
  {
    var c := calls[|rows|];
    if Repeats(calls, |rows|) {
      var i :| 0 <= i < |rows| && calls[i].url == c.url && calls[i].sha == c.sha;
      assert rows[i] in rows;
    }
    var found := CheckDuplicate(rows, c.url, c.sha);
    if found.Some? {
      var i :| 0 <= i < |rows| && rows[i] == found.value;
    }
  }

  lemma RepeatsInPrefix(calls: seq<Call>, j: nat)
    requires j < |calls| - 1
    ensures Repeats(calls, j) <==> Repeats(calls[..|calls| - 1], j)
  {
    assert forall i :: 0 <= i <= j ==> calls[i] == calls[..|calls| - 1][i];
  }

  /** One call that does not overlap another appends one row. */
  lemma SerialCall(s: System, c: Call)
    requires s.drafts == map[]
    ensures var s' := Apply(Apply(s, Check(0, c.url, c.sha, false)), Insert(0, c.file, c.offset, c.length, c.at));
            && s'.drafts == map[]
            && s'.rows == s.rows + [IndexRow(c.url, c.file, c.offset, c.length, c.sha,
                                             CheckDuplicate(s.rows, c.url, c.sha).Some?, c.at)]
  {
    hide CheckDuplicate;
  }

  /** The index has one row per call, in order, and a row is a revisit exactly when its call repeats an earlier pair. */
  ghost predicate Mirrors(s: System, calls: seq<Call>) {
    && s.drafts == map[] && |s.rows| == |calls|
    && (forall j :: 0 <= j < |calls| ==> s.rows[j].url == calls[j].url && s.rows[j].sha == calls[j].sha)
    && (forall j :: 0 <= j < |calls| ==> (s.rows[j].isRevisit <==> Repeats(calls, j)))
  }

  lemma SerialCallMirrors(s: System, calls: seq<Call>)
    requires calls != [] && Mirrors(s, calls[..|calls| - 1])
    ensures var c := calls[|calls| - 1];
            Mirrors(Apply(Apply(s, Check(0, c.url, c.sha, false)), Insert(0, c.file, c.offset, c.length, c.at)), calls)
  {
    hide Apply, Repeats, CheckDuplicate;
    SerialCall(s, calls[|calls| - 1]);
    QueryFindsRepeat(s.rows, calls);
    forall j | 0 <= j < |calls| - 1 { RepeatsInPrefix(calls, j); }
  }

  /**
    Without overlap and with a working database the index mirrors the calls: every distinct capture is stored in full
    once.
   */
  lemma {:induction false} SerialStoresOnce(calls: seq<Call>)
    ensures Mirrors(Run(Serial(calls)), calls)
  {
    if calls != [] {
      hide Run, Apply, Mirrors;
      var init, c := calls[..|calls| - 1], calls[|calls| - 1];
      SerialStoresOnce(init);
      RunTwo(Serial(init), Check(0, c.url, c.sha, false), Insert(0, c.file, c.offset, c.length, c.at));
      SerialCallMirrors(Run(Serial(init)), calls);
    }
  }

  /** Two overlapping first captures of one page both become full records; without overlap the second is a revisit. */
  lemma OverlapStoresTwice(url: string, sha: string)
    ensures var a, b := Insert(1, "f", 0, 1, 0), Insert(2, "f", 1, 1, 0);
            var x, y := Check(1, url, sha, false), Check(2, url, sha, false);
            var rows := Run([x, y, a, b]).rows;
            |rows| == 2 && forall i :: 0 <= i < 2 ==> rows[i].url == url && rows[i].sha == sha && !rows[i].isRevisit
  {
    var a, b := Insert(1, "f", 0, 1, 0), Insert(2, "f", 1, 1, 0);
    var x, y := Check(1, url, sha, false), Check(2, url, sha, false);
    assert [x, y, a, b][..3] == [x, y, a] && [x, y, a][..2] == [x, y] && [x, y][..1] == [x] && [x][..0] == [];
    var d := Draft(url, sha, false);
    assert Run([x]) == System([], map[1 := d]);
    assert Run([x, y]) == System([], map[1 := d, 2 := d]);
    assert map[1 := d, 2 := d] - {1} == map[2 := d];
  }
}
