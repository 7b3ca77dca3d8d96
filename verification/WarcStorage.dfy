/** The archive objects in the source's own form: WarcWriter and WarcStorage (app/services/warc/). */
module WarcStorage {
  import opened Common
  import B = WarcBuffer
  import opened WarcDedup

  datatype WarcRecord = WarcRecord(
    isRevisit: bool, url: string, date: int, sha: string, refersTo: Option<string>, offset: nat, length: nat)

  /** When a buffer is rotated: after each write if configured so, by size, or by age. */
  predicate RotationDue(size: nat, maxSize: nat, age: int, maxAge: int, forceEachWrite: bool) {
    (forceEachWrite && size > 0) || size >= maxSize || age >= maxAge
  }

  /** The in-memory file builder. `encoded` is what warcio appends to the buffer for one record. */
  class WarcWriter {
    const filename: string
    const createdAt: int
    const maxSize: nat
    const maxAge: int
    var buf: B.Bytes
    var records: seq<WarcRecord>

    constructor (filename: string, createdAt: int, maxSize: nat, maxAge: int)
      ensures this.filename == filename && this.createdAt == createdAt
      ensures this.maxSize == maxSize && this.maxAge == maxAge
      ensures buf == [] && records == []
    {
      this.filename, this.createdAt, this.maxSize, this.maxAge := filename, createdAt, maxSize, maxAge;
      buf, records := [], [];
    }

    method WriteResponse(url: string, sha: string, encoded: B.Bytes, now: int) returns (rec: WarcRecord)
      modifies this
      ensures rec == WarcRecord(false, url, now, sha, None, |old(buf)|, |encoded|)
      ensures buf == old(buf) + encoded && records == old(records) + [rec]
    {
      var offset := |buf|;
      buf := buf + encoded;
      rec := WarcRecord(false, url, now, sha, None, offset, |buf| - offset);
      records := records + [rec];
    }

    method WriteRevisit(url: string, original: string, sha: string, encoded: B.Bytes, now: int)
      returns (rec: WarcRecord)
      modifies this
      ensures rec == WarcRecord(true, url, now, sha, Some(original), |old(buf)|, |encoded|)
      ensures buf == old(buf) + encoded && records == old(records) + [rec]
    {
      var offset := |buf|;
      buf := buf + encoded;
      rec := WarcRecord(true, url, now, sha, Some(original), offset, |buf| - offset);
      records := records + [rec];
    }

    predicate NeedsRotation(now: int, forceEachWrite: bool)
      reads this
    {
      RotationDue(|buf|, maxSize, now - createdAt, maxAge, forceEachWrite)
    }
  }

  /** The index row points at a record of the buffer machine whose bytes are `payload`. */
  ghost predicate PointsAt(row: IndexRow, payload: B.Bytes, r: B.Record) {
    row.file == r.file && row.offset == r.offset && row.length == |payload| && r.bytes == payload
  }

  ghost predicate Indexed(row: IndexRow, payload: B.Bytes, records: seq<B.Record>) {
    exists i :: 0 <= i < |records| && PointsAt(row, payload, records[i])
  }

  lemma IndexedGrows(row: IndexRow, payload: B.Bytes, records: seq<B.Record>, r: B.Record)
    ensures Indexed(row, payload, records) ==> Indexed(row, payload, records + [r])
    ensures PointsAt(row, payload, r) ==> Indexed(row, payload, records + [r])
  {
    if Indexed(row, payload, records) {
      var i :| 0 <= i < |records| && PointsAt(row, payload, records[i]);
      assert PointsAt(row, payload, (records + [r])[i]);
    }
    assert (records + [r])[|records|] == r;
  }

  class WarcStorage {
    var writer: WarcWriter
    var rows: seq<IndexRow>
    var objects: map<string, B.Bytes>
    const forceEachWrite: bool
    const s3Configured: bool
    ghost var payloads: seq<B.Bytes>
    ghost var first: string
    ghost var steps: seq<B.Step>

    /**
      The object is the state of the buffer machine after `steps`, between two archive calls, and row `i` points at
      the bytes `payloads[i]` that its archive call was given.
     */
    ghost predicate Valid()
      reads this, writer
    {
      var s := B.Run(first, steps);
      && B.NoWriteInFlight(first, steps)
      && s.inFlight == map[]
      && s.current == writer.filename && writer.filename in s.streams && s.streams[writer.filename] == writer.buf
      && s.objects == objects
      && |payloads| == |rows|
      && (forall i :: 0 <= i < |rows| ==> Indexed(rows[i], payloads[i], s.records))
      && Resolved(System(rows, map[]))
    }

    constructor (filename: string, now: int, maxSize: nat, maxAge: int, forceEachWrite: bool, s3Configured: bool)
      ensures first == filename && steps == [] && writer.filename == filename && writer.buf == []
      ensures Valid() && fresh(writer) && rows == [] && payloads == [] && objects == map[]
      ensures this.forceEachWrite == forceEachWrite && this.s3Configured == s3Configured
    {
      this.forceEachWrite, this.s3Configured := forceEachWrite, s3Configured;
      writer := new WarcWriter(filename, now, maxSize, maxAge);
      rows, objects := [], map[];
      payloads, first, steps := [], filename, [];
    }

    /** Uploads the buffer (or discards it) and installs an empty writer. `putOk` is whether S3 accepts the object. */
    method Rotate(newFile: string, now: int, putOk: bool)
      requires Valid() && newFile !in B.Run(first, steps).streams
      modifies this
      ensures Valid() && fresh(writer) && first == old(first)
      ensures rows == old(rows) && payloads == old(payloads)
      ensures B.Run(first, steps).records == old(B.Run(first, steps).records)
      ensures objects == if s3Configured && putOk then old(objects)[old(writer.filename) := old(writer.buf)]
                         else old(objects)
      ensures writer.filename == newFile && writer.buf == [] && writer.createdAt == now
      ensures writer.maxSize == old(writer.maxSize) && writer.maxAge == old(writer.maxAge)
      ensures steps == old(steps) + RotationOf(s3Configured && putOk, newFile)
    {
      hide B.NoWriteInFlight, B.Run, Indexed, Resolved;
      var data := writer.buf;
      if s3Configured && putOk { objects := objects[writer.filename := data]; }
      RotationSteps(first, steps, s3Configured && putOk, newFile);
      steps := steps + RotationOf(s3Configured && putOk, newFile);
      writer := new WarcWriter(newFile, now, writer.maxSize, writer.maxAge);
    }

    /**
      One archive call: the new row is a revisit iff the pair was indexed before (and the query worked), and it points
      at the bytes just written, in the file they were written to even when the call rotates. When the insert fails
      the bytes stay written without a row. The call rotates when the buffer is full or too old (or always, if so
      configured), so an open buffer is below both bounds.
     */
    method Archive(url: string, sha: string, encoded: B.Bytes, now: int, dbFails: bool, newFile: string, putOk: bool,
                   insertFails: bool)
      returns (row: Option<IndexRow>)
      requires Valid() && newFile !in B.Run(first, steps).streams
      modifies this, writer
      ensures Valid() && first == old(first)
      ensures row.None? <==> insertFails
      ensures row.None? ==> rows == old(rows) && payloads == old(payloads)
      ensures row.Some? ==>
                && rows == old(rows) + [row.value] && payloads == old(payloads) + [encoded]
                && row.value.url == url && row.value.sha == sha && row.value.capturedAt == now
                && (row.value.isRevisit <==> !dbFails && exists r :: r in old(rows) && r.url == url && r.sha == sha)
                && row.value.file == old(writer.filename)
                && row.value.offset == |old(writer.buf)| && row.value.length == |encoded|
      ensures var w := old(writer);
              var size, age := |old(writer.buf) + encoded|, now - w.createdAt;
              var due := size >= w.maxSize || age >= w.maxAge || (forceEachWrite && size > 0);
              && steps == old(steps) + [B.Write(encoded)]
                          + (if due then RotationOf(s3Configured && putOk, newFile) else [])
              && objects == (if due && s3Configured && putOk
                             then old(objects)[old(writer.filename) := old(writer.buf) + encoded] else old(objects))
              && writer.filename == (if due then newFile else old(writer.filename))
              && writer.buf == (if due then [] else old(writer.buf) + encoded)
              && (if due then fresh(writer) else writer == old(writer))
      ensures writer.maxSize == old(writer.maxSize) && writer.maxAge == old(writer.maxAge)
      ensures writer.maxSize > 0 ==> |writer.buf| < writer.maxSize
      ensures writer.maxAge > 0 ==> now - writer.createdAt < writer.maxAge
      ensures forceEachWrite ==> writer.buf == []
    {
      hide B.NoWriteInFlight, B.Run, Indexed, Resolved;
      var existing := if dbFails then None else CheckDuplicate(rows, url, sha);
      var made := WriteRecord(url, sha, encoded, now, existing);
      if writer.NeedsRotation(now, forceEachWrite) {
        Rotate(newFile, now, putOk);
      }
      if insertFails { return None; }
      NewRowResolves(rows, made, dbFails);
      AppendRow(made, encoded);
      return Some(made);
    }

    /** The write of one archive call: a revisit of `existing` or a full record, and the row that will point at it. */
    method WriteRecord(url: string, sha: string, encoded: B.Bytes, now: int, existing: Option<IndexRow>)
      returns (made: IndexRow)
      requires Valid() && (existing.Some? ==> existing.value.sha == sha)
      modifies this`steps, writer
      ensures Valid() && Indexed(made, encoded, B.Run(first, steps).records)
      ensures made == IndexRow(url, writer.filename, |old(writer.buf)|, |encoded|, sha, existing.Some?, now)
      ensures writer.buf == old(writer.buf) + encoded && steps == old(steps) + [B.Write(encoded)]
      ensures var refersTo := if existing.Some? then Some(existing.value.file) else None;
              writer.records == old(writer.records)
                                + [WarcRecord(existing.Some?, url, now, sha, refersTo, |old(writer.buf)|, |encoded|)]
      ensures B.Run(first, steps).streams.Keys == old(B.Run(first, steps).streams.Keys)
    {
      hide B.NoWriteInFlight, B.Run, Indexed, Resolved;
      WriteStep(first, steps, encoded);
      var rec;
      if existing.Some? {
        rec := writer.WriteRevisit(url, existing.value.file, existing.value.sha, encoded, now);
      } else {
        rec := writer.WriteResponse(url, sha, encoded, now);
      }
      steps := steps + [B.Write(encoded)];
      made := IndexRow(url, writer.filename, rec.offset, rec.length, rec.sha, rec.isRevisit, rec.date);
      ghost var last := B.Record(writer.filename, rec.offset, encoded);
      assert B.Run(first, steps).records == B.Run(first, old(steps)).records + [last];
      forall i | 0 <= i < |rows| ensures Indexed(rows[i], payloads[i], B.Run(first, steps).records) {
        IndexedGrows(rows[i], payloads[i], B.Run(first, old(steps)).records, last);
      }
      IndexedGrows(made, encoded, B.Run(first, old(steps)).records, last);
    }

    method AppendRow(row: IndexRow, ghost payload: B.Bytes)
      requires Valid() && Indexed(row, payload, B.Run(first, steps).records)
      requires Resolved(System(rows + [row], map[]))
      modifies this`rows, this`payloads
      ensures Valid() && rows == old(rows) + [row] && payloads == old(payloads) + [payload]
    {
      rows, payloads := rows + [row], payloads + [payload];
    }

    /** The slice the row points at holds the bytes its archive call was given. */
    ghost predicate ReadsBack(i: nat)
      requires i < |rows| == |payloads|
      reads this
    {
      var row := rows[i];
      && row.file in objects
      && row.offset + row.length <= |objects[row.file]|
      && objects[row.file][row.offset..row.offset + row.length] == payloads[i]
    }

    /** Every row of a stored file reads back exactly the bytes its archive call was given. */
    lemma StoredRowsReadable(i: nat)
      requires Valid() && i < |rows| && rows[i].file in objects
      ensures i < |payloads| && rows[i].length == |payloads[i]| && ReadsBack(i)
    {
      hide B.Run;
      var s := B.Run(first, steps);
      assert Indexed(rows[i], payloads[i], s.records);
      var j :| 0 <= j < |s.records| && PointsAt(rows[i], payloads[i], s.records[j]);
      B.SerialRecordsReadable(first, steps, j);
    }

    /**
      What a reader of a revisit gets: the lookup finds the full record `i` of the same digest, and its bytes read
      back iff some rotation stored its file.
     */
    lemma RevisitReadsBackIff(j: nat) returns (i: nat)
      requires Valid() && j < |rows| && rows[j].isRevisit
      ensures i < |rows| == |payloads| && OriginalOf(rows, rows[j].sha) == Some(rows[i])
      ensures !rows[i].isRevisit && rows[i].sha == rows[j].sha
      ensures ReadsBack(i) <==> B.Uploaded(first, steps, rows[i].file)
    {
      hide B.Run, Indexed;
      var o :| 0 <= o < j && rows[o].sha == rows[j].sha && !rows[o].isRevisit;
      assert rows[o] in rows;
      var found := OriginalOf(rows, rows[j].sha).value;
      i :| 0 <= i < |rows| && rows[i] == found;
      B.ObjectsAreUploads(first, steps, rows[i].file);
      if rows[i].file in objects { StoredRowsReadable(i); }
    }

    /** A row whose file was discarded never reads back again, whatever the archive does afterwards. */
    lemma LostRowStaysLost(i: nat, more: seq<B.Step>)
      requires Valid() && i < |rows| && B.Lost(B.Run(first, steps), rows[i].file)
      ensures !ReadsBack(i) && rows[i].file !in B.Run(first, steps + more).objects
    {
      hide B.Run;
      B.LostStaysLost(first, steps, more, rows[i].file);
    }
  }

  /**
    One discarded upload poisons a page: the first capture is lost, and the next capture of the same content is stored
    as a revisit that resolves to it.
   */
  method ArchiveAfterLostUpload(url: string, sha: string, a: B.Bytes, b: B.Bytes) returns (w: WarcStorage)
    requires a != []
    ensures fresh(w) && w.Valid() && |w.rows| == 2 && w.payloads == [a, b]
    ensures w.rows[0].url == w.rows[1].url == url && w.rows[0].sha == w.rows[1].sha == sha
    ensures w.rows[1].isRevisit && OriginalOf(w.rows, sha) == Some(w.rows[0]) && !w.ReadsBack(0)
    ensures B.Lost(B.Run(w.first, w.steps), w.rows[0].file)
  {
    hide *;
    w := ArchiveWithoutUpload(url, sha, a);
    ghost var steps := w.steps;
    assert w.rows[0] in w.rows;
    var two := w.Archive(url, sha, b, 1, false, "h", true, false);
    OnlyOriginal(w.rows);
    assert w.steps == steps + w.steps[|steps|..];
    B.LostStaysLost("f", steps, w.steps[|steps|..], "f");
    w.LostRowStaysLost(0, []);
  }

  /** A new archive whose first capture is discarded by a failing upload. */
  method ArchiveWithoutUpload(url: string, sha: string, a: B.Bytes) returns (w: WarcStorage)
    requires a != []
    ensures fresh(w) && fresh(w.writer) && w.Valid() && w.first == "f" && w.payloads == [a]
    ensures |w.rows| == 1 && w.rows[0].url == url && w.rows[0].sha == sha && w.rows[0].file == "f"
    ensures !w.rows[0].isRevisit
    ensures B.Lost(B.Run("f", w.steps), "f") && B.Run("f", w.steps).streams.Keys == {"f", "g"}
  {
    hide B.NoWriteInFlight, Indexed, Resolved, B.Run, B.Lost, OriginalOf, CheckDuplicate;
    w := new WarcStorage("f", 0, 100, 100, true, true);
    StartStreams("f");
    var one := w.Archive(url, sha, a, 0, false, "g", false, false);
    assert w.steps == [B.Write(a)] + RotationOf(false, "g");
    FirstUploadFails(a);
  }

  lemma OnlyOriginal(rows: seq<IndexRow>)
    requires |rows| == 2 && !rows[0].isRevisit && rows[1].isRevisit
    ensures OriginalOf(rows, rows[0].sha) == Some(rows[0])
  {
    assert rows[0] in rows;
  }

  lemma StartStreams(file: string)
    ensures B.Run(file, []).streams.Keys == {file}
  {
  }

  lemma FirstUploadFails(a: B.Bytes)
    ensures var s := B.Run("f", [B.Write(a)] + RotationOf(false, "g"));
            B.Lost(s, "f") && s.streams.Keys == {"f", "g"}
  {
    hide B.NoWriteInFlight;
    RunOne("f", [], B.Write(a));
    assert [] + [B.Write(a)] == [B.Write(a)];
    assert B.Run("f", []).inFlight == map[];
    WriteStep("f", [], a);
    RotationSteps("f", [B.Write(a)], false, "g");
  }

  /** The steps of one rotation that nothing interrupts. */
  ghost function RotationOf(uploaded: bool, newFile: string): seq<B.Step> {
    [B.BeginRotate(0), B.EndRotate(0, uploaded, newFile)]
  }

  /** A row that is a revisit only when its pair is indexed keeps every revisit resolvable. */
  lemma NewRowResolves(rows: seq<IndexRow>, row: IndexRow, dbFails: bool)
    requires Resolved(System(rows, map[]))
    requires row.isRevisit <==> !dbFails && CheckDuplicate(rows, row.url, row.sha).Some?
    ensures Resolved(System(rows + [row], map[]))
  {
    hide CheckDuplicate, HasOriginal;
    var s := System(rows, map[]);
    var check := Check(0, row.url, row.sha, dbFails);
    var insert := Insert(0, row.file, row.offset, row.length, row.capturedAt);
    CheckKeepsResolved(s, check);
    InsertKeepsResolved(Apply(s, check), insert);
    assert Apply(Apply(s, check), insert).rows == rows + [row];
  }

  lemma RunOne(first: string, steps: seq<B.Step>, step: B.Step)
    ensures var s := B.Run(first, steps);
            B.Run(first, steps + [step]) == if B.Enabled(s, step) then B.Apply(s, step) else s
  {
    assert (steps + [step])[..|steps + [step]| - 1] == steps;
  }

  lemma WriteStep(first: string, steps: seq<B.Step>, bytes: B.Bytes)
    requires B.NoWriteInFlight(first, steps) && B.Run(first, steps).inFlight == map[]
    requires B.Run(first, steps).current in B.Run(first, steps).streams
    ensures B.NoWriteInFlight(first, steps + [B.Write(bytes)])
    ensures B.Run(first, steps + [B.Write(bytes)]) == B.Apply(B.Run(first, steps), B.Write(bytes))
  {
    var all := steps + [B.Write(bytes)];
    RunOne(first, steps, B.Write(bytes));
    assert forall i :: 0 <= i <= |steps| ==> all[..i] == steps[..i];
    assert steps[..|steps|] == steps;
  }

  lemma RotationSteps(first: string, steps: seq<B.Step>, uploaded: bool, newFile: string)
    requires B.NoWriteInFlight(first, steps) && B.Run(first, steps).inFlight == map[]
    requires B.Run(first, steps).current in B.Run(first, steps).streams && newFile !in B.Run(first, steps).streams
    ensures var s, all := B.Run(first, steps), steps + RotationOf(uploaded, newFile);
            && B.NoWriteInFlight(first, all)
            && B.Run(first, all)
               == B.System(newFile, s.streams[newFile := []], s.records, map[],
                           if uploaded then s.objects[s.current := s.streams[s.current]] else s.objects)
  {
    var begin, end := B.BeginRotate(0), B.EndRotate(0, uploaded, newFile);
    var all := steps + [begin, end];
    assert all == steps + [begin] + [end];
    RunOne(first, steps, begin);
    RunOne(first, steps + [begin], end);
    assert forall i :: 0 <= i < |steps| ==> all[..i] == steps[..i];
    assert B.Run(first, steps + [begin]).inFlight - {0} == map[];
  }
}
