/**
  WARC buffers, rotation and upload as a state machine (app/services/warc/writer.py and storage.py).
  `_rotate` captures the buffer, awaits the upload and only then installs a new writer, so other archive calls may write
  between `BeginRotate` and `EndRotate`.
 */
module WarcBuffer {
  type Bytes = seq<bv8>

  /** One record as written: the file, the buffer position before the write and the bytes appended. */
  datatype Record = Record(file: string, offset: nat, bytes: Bytes)

  datatype Upload = Upload(file: string, data: Bytes)

  /** `streams` is everything ever written to each file's buffer; `objects` is the bucket. */
  datatype System = System(
    current: string, streams: map<string, Bytes>, records: seq<Record>,
    inFlight: map<nat, Upload>, objects: map<string, Bytes>)

  datatype Step =
    | Write(bytes: Bytes)
    | BeginRotate(task: nat)
    | EndRotate(task: nat, uploaded: bool, newFile: string)

  function Start(file: string): System {
    System(file, map[file := []], [], map[], map[])
  }

  /** New file names are distinct from all earlier ones; a rotation ends once. */
  predicate Enabled(s: System, step: Step) {
    match step
    case Write(_) => s.current in s.streams
    case BeginRotate(t) => s.current in s.streams && t !in s.inFlight
    case EndRotate(t, _, newFile) => t in s.inFlight && newFile !in s.streams
  }

  function Apply(s: System, step: Step): System
    requires Enabled(s, step)
  {
    match step
    case Write(bytes) =>
      var stream := s.streams[s.current];
      s.(streams := s.streams[s.current := stream + bytes], records := s.records + [Record(s.current, |stream|, bytes)])
    case BeginRotate(t) =>
      s.(inFlight := s.inFlight[t := Upload(s.current, s.streams[s.current])])
    case EndRotate(t, uploaded, newFile) =>
      var u := s.inFlight[t];
      System(newFile, s.streams[newFile := []], s.records, s.inFlight - {t},
             if uploaded then s.objects[u.file := u.data] else s.objects)
  }

  /** Runs a schedule; a step that is not enabled does nothing. */
  function Run(file: string, steps: seq<Step>): System {
    if steps == [] then Start(file)
    else
      var s, last := Run(file, steps[..|steps| - 1]), steps[|steps| - 1];
      if Enabled(s, last) then Apply(s, last) else s
  }

  /** The records of one file, back to back. */
  function StreamOf(records: seq<Record>, file: string): Bytes {
    if records == [] then []
    else
      var last := records[|records| - 1];
      StreamOf(records[..|records| - 1], file) + (if last.file == file then last.bytes else [])
  }

  lemma StreamAppend(records: seq<Record>, r: Record, file: string)
    ensures StreamOf(records + [r], file) == StreamOf(records, file) + (if r.file == file then r.bytes else [])
  {
    assert (records + [r])[..|records + [r]| - 1] == records;
  }

  /** Each record starts where the earlier records of its file end. */
  ghost predicate Tiled(records: seq<Record>) {
    forall i :: 0 <= i < |records| ==> records[i].offset == |StreamOf(records[..i], records[i].file)|
  }

  ghost predicate Consistent(s: System) {
    && s.current in s.streams
    && (forall f :: f in s.streams ==> s.streams[f] == StreamOf(s.records, f))
    && (forall i :: 0 <= i < |s.records| ==> s.records[i].file in s.streams)
    && Tiled(s.records)
    && (forall t :: t in s.inFlight ==>
          s.inFlight[t].file in s.streams && s.inFlight[t].data <= s.streams[s.inFlight[t].file])
    && (forall f :: f in s.objects ==> f in s.streams && s.objects[f] <= s.streams[f])
  }

  lemma {:induction false} UnwrittenIsEmpty(records: seq<Record>, file: string)
    requires forall i :: 0 <= i < |records| ==> records[i].file != file
    ensures StreamOf(records, file) == []
  {
    if records != [] { UnwrittenIsEmpty(records[..|records| - 1], file); }
  }

  lemma WriteKeepsConsistent(s: System, bytes: Bytes)
    requires Consistent(s)
    ensures Consistent(Apply(s, Write(bytes)))
  {
    var s', r := Apply(s, Write(bytes)), Record(s.current, |s.streams[s.current]|, bytes);
    forall f { StreamAppend(s.records, r, f); }
    forall i | 0 <= i < |s'.records| ensures s'.records[i].offset == |StreamOf(s'.records[..i], s'.records[i].file)| {
      if i < |s.records| { assert s'.records[..i] == s.records[..i]; } else { assert s'.records[..i] == s.records; }
    }
  }

  lemma StepKeepsConsistent(s: System, step: Step)
    requires Consistent(s) && Enabled(s, step)
    ensures Consistent(Apply(s, step))
  {
    match step
    case Write(bytes) => WriteKeepsConsistent(s, bytes);
    case BeginRotate(_) =>
    case EndRotate(_, _, newFile) => UnwrittenIsEmpty(s.records, newFile);
  }

  /**
    In every interleaving, records tile each buffer from 0 without gap or overlap, and every object is a prefix of its
    stream.
   */
  lemma {:induction false} RunConsistent(file: string, steps: seq<Step>)
    ensures Consistent(Run(file, steps))
  {
    hide Consistent, Apply, Enabled;
    if steps == [] {
      StartConsistent(file);
    } else {
      var init := steps[..|steps| - 1];
      RunConsistent(file, init);
      if Enabled(Run(file, init), steps[|steps| - 1]) {
        StepKeepsConsistent(Run(file, init), steps[|steps| - 1]);
      }
    }
  }

  lemma StartConsistent(file: string)
    ensures Consistent(Start(file))
  {
  }

  /** A record occupies its slice of the stream of its file. */
  lemma {:induction false} RecordFillsItsSlice(records: seq<Record>, i: nat)
    requires Tiled(records) && i < |records|
    ensures var r := records[i];
            var stream := StreamOf(records, r.file);
            r.offset + |r.bytes| <= |stream| && stream[r.offset..r.offset + |r.bytes|] == r.bytes
    decreases |records|
  {
    hide StreamOf;
    var init, last := records[..|records| - 1], records[|records| - 1];
    assert records == init + [last];
    StreamAppend(init, last, records[i].file);
    if i == |init| {
      assert records[..i] == init;
    } else {
      assert forall j :: 0 <= j < |init| ==> init[..j] == records[..j];
      RecordFillsItsSlice(init, i);
    }
  }

  /** The bytes at (offset, length) of the stored object are exactly the record. */
  ghost predicate Readable(s: System, i: nat)
    requires i < |s.records|
  {
    var r := s.records[i];
    && r.file in s.objects
    && r.offset + |r.bytes| <= |s.objects[r.file]|
    && s.objects[r.file][r.offset..r.offset + |r.bytes|] == r.bytes
  }

  /** A captured buffer covers the record. */
  predicate Covers(r: Record, data: Bytes) {
    r.offset + |r.bytes| <= |data|
  }

  /** A stored object reads back the records its bytes reach. */
  lemma ReadableIffCovered(file: string, steps: seq<Step>, i: nat)
    requires i < |Run(file, steps).records|
    ensures var s := Run(file, steps);
            var r := s.records[i];
            Readable(s, i) <==> r.file in s.objects && Covers(r, s.objects[r.file])
  {
    hide Run;
    var s := Run(file, steps);
    RunConsistent(file, steps);
    RecordFillsItsSlice(s.records, i);
    var r := s.records[i];
    if r.file in s.objects && Covers(r, s.objects[r.file]) {
      assert s.objects[r.file] == s.streams[r.file][..|s.objects[r.file]|];
    }
  }

  // ---------- which records survive, read off the schedule ----------

  /**
    What an observer of the schedule notes: how many records existed when each upload in flight was captured, and how
    many existed at the capture of the upload that stored each file last.
   */
  datatype Notes = Notes(captured: map<nat, nat>, stored: map<string, nat>)

  function NoteStep(s: System, n: Notes, step: Step): Notes
    requires Enabled(s, step)
  {
    match step
    case Write(_) => n
    case BeginRotate(t) => n.(captured := n.captured[t := |s.records|])
    case EndRotate(t, uploaded, _) =>
      Notes(n.captured - {t},
            if uploaded && t in n.captured then n.stored[s.inFlight[t].file := n.captured[t]] else n.stored)
  }

  function Observe(file: string, steps: seq<Step>): Notes {
    if steps == [] then Notes(map[], map[])
    else
      var init, last := steps[..|steps| - 1], steps[|steps| - 1];
      var s, n := Run(file, init), Observe(file, init);
      if Enabled(s, last) then NoteStep(s, n, last) else n
  }

  /** The bytes are those of the file's records among the first `count`. */
  ghost predicate Holds(data: Bytes, records: seq<Record>, count: nat, file: string) {
    count <= |records| && data == StreamOf(records[..count], file)
  }

  /** Captures and objects hold exactly the records the notes say. */
  ghost predicate NotesExplain(s: System, n: Notes) {
    && n.captured.Keys == s.inFlight.Keys
    && (forall t :: t in s.inFlight ==> Holds(s.inFlight[t].data, s.records, n.captured[t], s.inFlight[t].file))
    && n.stored.Keys == s.objects.Keys
    && (forall f :: f in s.objects ==> Holds(s.objects[f], s.records, n.stored[f], f))
  }

  lemma HoldsGrows(data: Bytes, records: seq<Record>, r: Record, count: nat, file: string)
    requires Holds(data, records, count, file)
    ensures Holds(data, records + [r], count, file)
  {
    assert (records + [r])[..count] == records[..count];
  }

  lemma CurrentHolds(s: System)
    requires Consistent(s)
    ensures Holds(s.streams[s.current], s.records, |s.records|, s.current)
  {
    assert s.records[..|s.records|] == s.records;
  }

  lemma NoteStepExplains(s: System, n: Notes, step: Step)
    requires Consistent(s) && NotesExplain(s, n) && Enabled(s, step)
    ensures NotesExplain(Apply(s, step), NoteStep(s, n, step))
  {
    hide Holds, Tiled;
    match step
    case Write(bytes) =>
      var r := Record(s.current, |s.streams[s.current]|, bytes);
      forall t | t in s.inFlight {
        HoldsGrows(s.inFlight[t].data, s.records, r, n.captured[t], s.inFlight[t].file);
      }
      forall f | f in s.objects {
        HoldsGrows(s.objects[f], s.records, r, n.stored[f], f);
      }
    case BeginRotate(_) =>
      CurrentHolds(s);
    case EndRotate(_, _, _) =>
  }

  lemma {:induction false} RunExplained(file: string, steps: seq<Step>)
    ensures NotesExplain(Run(file, steps), Observe(file, steps))
  {
    hide Consistent, Apply, NoteStep, Enabled, Holds;
    if steps != [] {
      var init := steps[..|steps| - 1];
      RunExplained(file, init);
      RunConsistent(file, init);
      if Enabled(Run(file, init), steps[|steps| - 1]) {
        NoteStepExplains(Run(file, init), Observe(file, init), steps[|steps| - 1]);
      }
    }
  }

  /** All records of the file from number `a` up to but not including `b` are empty. */
  ghost predicate NothingBetween(records: seq<Record>, file: string, a: nat, b: nat) {
    forall k :: a <= k < b && k < |records| && records[k].file == file ==> records[k].bytes == []
  }

  /**
    A file's stream only grows, and it grows between two points iff a non-empty record of the file lies between them.
   */
  lemma {:induction false} StreamGrows(records: seq<Record>, file: string, a: nat, b: nat)
    requires a <= b <= |records|
    ensures |StreamOf(records[..a], file)| <= |StreamOf(records[..b], file)|
    ensures |StreamOf(records[..a], file)| == |StreamOf(records[..b], file)| <==> NothingBetween(records, file, a, b)
  {
    if a < b {
      hide StreamOf;
      StreamGrows(records, file, a, b - 1);
      assert records[..b] == records[..b - 1] + [records[b - 1]];
      StreamAppend(records[..b - 1], records[b - 1], file);
    }
  }

  /**
    Exactly which records survive an arbitrary interleaving: a record with content reads back iff its file was stored
    and the upload that stored it last was captured after the record was written. (An empty record also reads back
    when only empty records of its file lie between the capture and itself.)
   */
  lemma ReadableIffCapturedAfter(file: string, steps: seq<Step>, i: nat)
    requires i < |Run(file, steps).records|
    ensures var s, stored := Run(file, steps), Observe(file, steps).stored;
            var r := s.records[i];
            && (r.bytes != [] ==> (Readable(s, i) <==> r.file in stored && i < stored[r.file]))
            && (Readable(s, i) <==> r.file in stored && NothingBetween(s.records, r.file, stored[r.file], i + 1))
  {
    hide Run, Observe, StreamOf;
    var s, stored := Run(file, steps), Observe(file, steps).stored;
    var r := s.records[i];
    ReadableIffCovered(file, steps, i);
    RunConsistent(file, steps);
    RunExplained(file, steps);
    if r.file in stored {
      assert s.records[..i + 1] == s.records[..i] + [r];
      StreamAppend(s.records[..i], r, r.file);
      if i < stored[r.file] {
        StreamGrows(s.records, r.file, i + 1, stored[r.file]);
      } else {
        StreamGrows(s.records, r.file, stored[r.file], i + 1);
      }
    }
  }

  /** Some rotation of the schedule stored the file. */
  ghost predicate Uploaded(file: string, steps: seq<Step>, f: string) {
    exists k :: 0 <= k < |steps| && StoresAt(Run(file, steps[..k]), steps[k], f)
  }

  predicate StoresAt(s: System, step: Step, f: string) {
    step.EndRotate? && step.uploaded && Enabled(s, step) && s.inFlight[step.task].file == f
  }

  /** The bucket holds exactly the files some rotation stored. */
  lemma {:induction false} ObjectsAreUploads(file: string, steps: seq<Step>, f: string)
    ensures f in Run(file, steps).objects <==> Uploaded(file, steps, f)
  {
    if steps != [] {
      var init, n := steps[..|steps| - 1], |steps| - 1;
      ObjectsAreUploads(file, init, f);
      assert forall k :: 0 <= k <= n ==> init[..k] == steps[..k];
      if Uploaded(file, init, f) {
        var k :| 0 <= k < n && StoresAt(Run(file, init[..k]), init[k], f);
        assert StoresAt(Run(file, steps[..k]), steps[k], f);
      }
      if StoresAt(Run(file, init), steps[n], f) { assert StoresAt(Run(file, steps[..n]), steps[n], f); }
      if Uploaded(file, steps, f) {
        var k :| 0 <= k < |steps| && StoresAt(Run(file, steps[..k]), steps[k], f);
        if k < n { assert StoresAt(Run(file, init[..k]), init[k], f); }
      }
    }
  }

  /** The file is closed, not stored, and no upload of it is in flight. */
  ghost predicate Lost(s: System, f: string) {
    && f in s.streams && f != s.current && f !in s.objects
    && forall t :: t in s.inFlight ==> s.inFlight[t].file != f
  }

  /** A file whose upload failed is lost for good, whatever happens later. */
  lemma {:induction false} LostStaysLost(file: string, steps: seq<Step>, more: seq<Step>, f: string)
    requires Lost(Run(file, steps), f)
    ensures Lost(Run(file, steps + more), f)
    decreases |more|
  {
    if more == [] {
      assert steps + more == steps;
    } else {
      var all, init := steps + more, steps + more[..|more| - 1];
      LostStaysLost(file, steps, more[..|more| - 1], f);
      assert all[..|all| - 1] == init;
      RunConsistent(file, init);
    }
  }

  // ---------- archive calls that do not overlap a rotation ----------

  /** No write takes place while an upload is in flight. */
  ghost predicate NoWriteInFlight(file: string, steps: seq<Step>) {
    forall i :: 0 <= i < |steps| && steps[i].Write? ==> Run(file, steps[..i]).inFlight == map[]
  }

  ghost predicate UploadsSucceed(steps: seq<Step>) {
    forall i :: 0 <= i < |steps| && steps[i].EndRotate? ==> steps[i].uploaded
  }

  /** Captures in flight are complete, stored objects are complete, and the open file is not stored yet. */
  ghost predicate Complete(s: System) {
    && (forall t :: t in s.inFlight ==>
          s.inFlight[t].file in s.streams && s.inFlight[t].data == s.streams[s.inFlight[t].file])
    && (forall f :: f in s.objects ==> f in s.streams && s.objects[f] == s.streams[f])
    && s.current !in s.objects
  }

  /** Every record is in the open file or in a stored object. */
  ghost predicate NothingLost(s: System) {
    forall i :: 0 <= i < |s.records| ==> s.records[i].file == s.current || s.records[i].file in s.objects
  }

  /** An upload in flight is the open file's, unless the open file is still without records. */
  ghost predicate CapturesOpenFile(s: System) {
    forall t, i :: t in s.inFlight && 0 <= i < |s.records| && s.records[i].file == s.current ==>
      s.inFlight[t].file == s.current
  }

  lemma StepKeepsComplete(s: System, step: Step)
    requires Consistent(s) && Complete(s) && Enabled(s, step)
    requires step.Write? ==> s.inFlight == map[]
    ensures Complete(Apply(s, step))
  {
  }

  lemma {:induction false} SerialRunComplete(file: string, steps: seq<Step>)
    requires NoWriteInFlight(file, steps)
    ensures Complete(Run(file, steps))
  {
    hide Consistent, Enabled, Apply;
    if steps != [] {
      var init := steps[..|steps| - 1];
      assert forall i :: 0 <= i < |init| ==> init[..i] == steps[..i];
      SerialRunComplete(file, init);
      RunConsistent(file, init);
      if Enabled(Run(file, init), steps[|steps| - 1]) {
        StepKeepsComplete(Run(file, init), steps[|steps| - 1]);
      }
    } else {
      assert Complete(Start(file));
    }
  }

  /**
    If no write overlaps an upload, every record of every stored file reads back exactly, even when other uploads
    fail.
   */
  lemma SerialRecordsReadable(file: string, steps: seq<Step>, i: nat)
    requires NoWriteInFlight(file, steps)
    requires i < |Run(file, steps).records|
    requires Run(file, steps).records[i].file in Run(file, steps).objects
    ensures Readable(Run(file, steps), i)
  {
    hide Run;
    SerialRunComplete(file, steps);
    RunConsistent(file, steps);
    RecordFillsItsSlice(Run(file, steps).records, i);
    ReadableIffCovered(file, steps, i);
  }

  lemma StepLosesNothing(s: System, step: Step)
    requires Consistent(s) && NothingLost(s) && CapturesOpenFile(s) && Enabled(s, step)
    requires step.Write? ==> s.inFlight == map[]
    requires step.EndRotate? ==> step.uploaded
    ensures NothingLost(Apply(s, step)) && CapturesOpenFile(Apply(s, step))
  {
  }

  /**
    If in addition every upload succeeds, no record is ever lost: it is in the open buffer or readable in the bucket.
   */
  lemma {:induction false} SerialRunLosesNothing(file: string, steps: seq<Step>)
    requires NoWriteInFlight(file, steps) && UploadsSucceed(steps)
    ensures NothingLost(Run(file, steps)) && CapturesOpenFile(Run(file, steps))
  {
    hide Consistent, Enabled, Apply;
    if steps != [] {
      var init := steps[..|steps| - 1];
      assert forall i :: 0 <= i < |init| ==> init[..i] == steps[..i];
      SerialRunLosesNothing(file, init);
      RunConsistent(file, init);
      if Enabled(Run(file, init), steps[|steps| - 1]) {
        StepLosesNothing(Run(file, init), steps[|steps| - 1]);
      }
    }
  }

  /** Overlap loses data: a record written during the upload is indexed in a stored file that does not contain it. */
  lemma OverlappingWriteIsLost(a: Bytes, b: Bytes)
    requires b != []
    ensures var s := Run("f", [Write(a), BeginRotate(1), Write(b), EndRotate(1, true, "g")]);
            && |s.records| == 2 && s.records[1] == Record("f", |a|, b)
            && "f" in s.objects && s.current == "g" && s.inFlight == map[] && !Readable(s, 1)
  {
    var w, x, y, z := Write(a), BeginRotate(1), Write(b), EndRotate(1, true, "g");
    assert [w, x, y, z][..3] == [w, x, y] && [w, x, y][..2] == [w, x] && [w, x][..1] == [w] && [w][..0] == [];
    var s1 := System("f", map["f" := a], [Record("f", 0, a)], map[], map[]);
    assert [] + a == a;
    assert Run("f", [w]) == s1;
    var s2 := s1.(inFlight := map[1 := Upload("f", a)]);
    assert Run("f", [w, x]) == s2;
    var s3 := Apply(s2, y);
    assert Run("f", [w, x, y]) == s3;
    assert s3.inFlight - {1} == map[];
    assert Run("f", [w, x, y, z]) == Apply(s3, z);
  }
}
