/** The record encoding of the store (internal/store/serialization.go): signed
    little-endian integers and length-prefixed strings, written to a growing
    buffer and read back with a cursor. */
module Codec {
  import opened Types

  type byte = x: int | 0 <= x < 256
  type Bytes = seq<byte>

  type int32 = x: int | -0x8000_0000 <= x < 0x8000_0000
  type int64 = x: int | -0x8000_0000_0000_0000 <= x < 0x8000_0000_0000_0000

  datatype TaskStateRecord = TaskStateRecord(
    taskId: Bytes,
    workflowId: Bytes,
    state: int32,
    executionId: Bytes,
    attemptCount: int32,
    lastUpdated: int64,
    output: Bytes,
    error: Bytes,
    inDegree: int32,
    downstream: seq<Bytes>)

  datatype WorkflowStateRecord = WorkflowStateRecord(workflowId: Bytes, state: int32, submittedAtMs: int64,
                                                     completedAtMs: int64)

  datatype WorkerRecord = WorkerRecord(
    workerId: Bytes,
    lastHeartbeat: int64,
    runningTaskIds: seq<Bytes>,
    queuedTaskIds: seq<Bytes>,
    lastUpdated: int64)

  // ---- Integers -------------------------------------------------------------------------------

  const TWO32 := 0x1_0000_0000
  const TWO64 := 0x1_0000_0000_0000_0000

  /** `u` in `k` bytes, least significant first. */
  function LittleEndian(u: nat, k: nat): Bytes {
    if k == 0 then [] else [u % 256] + LittleEndian(u / 256, k - 1)
  }

  function Unsigned(b: Bytes): nat {
    if b == [] then 0 else b[0] + 256 * Unsigned(b[1..])
  }

  function Pow256(k: nat): nat {
    if k == 0 then 1 else 256 * Pow256(k - 1)
  }

  lemma {:induction false} LittleEndianRoundTrip(u: nat, k: nat)
    requires u < Pow256(k)
    ensures |LittleEndian(u, k)| == k && Unsigned(LittleEndian(u, k)) == u
  {
    if k > 0 {
      LittleEndianRoundTrip(u / 256, k - 1);
      assert LittleEndian(u, k)[1..] == LittleEndian(u / 256, k - 1);
    }
  }

  lemma Widths()
    ensures Pow256(4) == TWO32 && Pow256(8) == TWO64
  {
    assert Pow256(2) == 0x1_0000;
    assert Pow256(4) == 0x1_0000 * Pow256(2);
    assert Pow256(6) == 0x1_0000 * Pow256(4);
    assert Pow256(8) == 0x1_0000 * Pow256(6);
  }

  /** Two's complement, least significant byte first. */
  function WriteInt32(x: int32): Bytes {
    LittleEndian(if x < 0 then x + TWO32 else x, 4)
  }

  function WriteInt64(x: int64): Bytes {
    LittleEndian(if x < 0 then x + TWO64 else x, 8)
  }

  function Signed32(u: nat): int32
    requires u < TWO32
  {
    if u < 0x8000_0000 then u else u - TWO32
  }

  function Signed64(u: nat): int64
    requires u < TWO64
  {
    if u < 0x8000_0000_0000_0000 then u else u - TWO64
  }

  lemma {:induction false} UnsignedBound(b: Bytes)
    ensures Unsigned(b) < Pow256(|b|)
  {
    if b != [] { UnsignedBound(b[1..]); }
  }

  /** The conversion int32(n) of a length. */
  function Wrap32(n: nat): int32 {
    var m := n % TWO32;
    if m < 0x8000_0000 then m else m - TWO32
  }

  // ---- Reading with a cursor --------------------------------------------------------------------

  /** A read from the remaining input: a value, an end-of-input error, or a panic
      (a slice of negative length). */
  datatype Read<+T> = Got(value: T, rest: Bytes) | Eof(rest: Bytes) | Panic

  function ReadInt32(input: Bytes): Read<int32> {
    if |input| < 4 then Eof([])
    else
      UnsignedBound(input[..4]); Widths();
      Got(Signed32(Unsigned(input[..4])), input[4..])
  }

  function ReadInt64(input: Bytes): Read<int64> {
    if |input| < 8 then Eof([])
    else
      UnsignedBound(input[..8]); Widths();
      Got(Signed64(Unsigned(input[..8])), input[8..])
  }

  function Zeros(n: nat): Bytes {
    seq(n, i => 0)
  }

  /** Fills a slice of length `n` from the input; a short input leaves zero bytes. */
  function Fill(input: Bytes, n: nat): (Bytes, Bytes) {
    if n <= |input| then (input[..n], input[n..]) else (input + Zeros(n - |input|), [])
  }

  /** readString: at the end of the input even an empty slice reports EOF. */
  function ReadString(input: Bytes): Read<Bytes> {
    var l := ReadInt32(input);
    if !l.Got? then Eof([])
    else if l.value < 0 then Panic
    else if l.rest == [] then Eof([])
    else var f := Fill(l.rest, l.value); Got(f.0, f.1)
  }

  function WriteString(s: Bytes): Bytes {
    WriteInt32(Wrap32(|s|)) + s
  }

  lemma Int32RoundTrip(x: int32, rest: Bytes)
    ensures ReadInt32(WriteInt32(x) + rest) == Got(x, rest) && |WriteInt32(x)| == 4
  {
    Widths();
    LittleEndianRoundTrip(if x < 0 then x + TWO32 else x, 4);
    assert (WriteInt32(x) + rest)[..4] == WriteInt32(x) && (WriteInt32(x) + rest)[4..] == rest;
  }

  lemma Int64RoundTrip(x: int64, rest: Bytes)
    ensures ReadInt64(WriteInt64(x) + rest) == Got(x, rest) && |WriteInt64(x)| == 8
  {
    Widths();
    LittleEndianRoundTrip(if x < 0 then x + TWO64 else x, 8);
    assert (WriteInt64(x) + rest)[..8] == WriteInt64(x) && (WriteInt64(x) + rest)[8..] == rest;
  }

  /** A string survives unless it is empty and nothing follows it. */
  lemma StringRoundTrip(s: Bytes, rest: Bytes)
    requires |s| < 0x8000_0000
    ensures ReadString(WriteString(s) + rest) == if s + rest == [] then Eof([]) else Got(s, rest)
  {
    hide ReadInt32, WriteInt32;
    Int32RoundTrip(|s|, s + rest);
    Assoc(WriteInt32(|s|), s, rest);
    if s + rest != [] {
      assert (s + rest)[..|s|] == s && (s + rest)[|s|..] == rest;
    }
  }

  // ---- Task records -------------------------------------------------------------------------------

  function WriteStrings(ids: seq<Bytes>): Bytes {
    if ids == [] then [] else WriteStrings(ids[..|ids| - 1]) + WriteString(ids[|ids| - 1])
  }

  /** Everything before the downstream list. */
  function EncodeHead(r: TaskStateRecord): Bytes {
    WriteString(r.taskId) + WriteString(r.workflowId) + WriteInt32(r.state) + WriteString(r.executionId) +
    WriteInt32(r.attemptCount) + WriteInt64(r.lastUpdated) + WriteString(r.output) + WriteString(r.error) +
    WriteInt32(r.inDegree)
  }

  function EncodeTask(r: TaskStateRecord): Bytes {
    EncodeHead(r) + WriteInt32(Wrap32(|r.downstream|)) + WriteStrings(r.downstream)
  }

  datatype Decoded<+T> = Record(value: T) | Malformed | Panicked

  /** Reads at most `n` strings, stopping at the end of the input; None on a panic. */
  function ReadStrings(input: Bytes, n: nat): Option<seq<Bytes>>
    decreases n
  {
    if n == 0 then Some([])
    else
      match ReadString(input)
      case Panic => None
      case Eof(_) => Some([])
      case Got(id, rest) =>
        var tail := ReadStrings(rest, n - 1);
        if tail.None? then None else Some([id] + tail.value)
  }

  /** The downstream list, absent in old records. */
  function DecodeDownstream(input: Bytes): Option<seq<Bytes>> {
    var n := ReadInt32(input);
    if !n.Got? then Some([]) else if n.value < 0 then None else ReadStrings(n.rest, n.value)
  }

  function DecodeTask(input: Bytes): Decoded<TaskStateRecord> {
    var r1 := ReadString(input);
    if r1.Panic? then Panicked else if r1.Eof? then Malformed else
    var r2 := ReadString(r1.rest);
    if r2.Panic? then Panicked else if r2.Eof? then Malformed else
    var r3 := ReadInt32(r2.rest);
    if !r3.Got? then Malformed else
    var r4 := ReadString(r3.rest);
    if r4.Panic? then Panicked else if r4.Eof? then Malformed else
    DecodeRest(r1.value, r2.value, r3.value, r4.value, r4.rest)
  }

  /** The fields from the attempt count on. */
  function DecodeRest(taskId: Bytes, workflowId: Bytes, state: int32, executionId: Bytes,
                      input: Bytes): Decoded<TaskStateRecord> {
    var r5 := ReadInt32(input);
    if !r5.Got? then Malformed else
    var r6 := ReadInt64(r5.rest);
    if !r6.Got? then Malformed else
    var r7 := ReadString(r6.rest);
    if r7.Panic? then Panicked else if r7.Eof? then Malformed else
    var r8 := ReadString(r7.rest);
    if r8.Panic? then Panicked else if r8.Eof? then Malformed else
    var r9 := ReadInt32(r8.rest);
    if !r9.Got? then Malformed else
    var ds := DecodeDownstream(r9.rest);
    if ds.None? then Panicked
    else Record(TaskStateRecord(taskId, workflowId, state, executionId, r5.value, r6.value, r7.value, r8.value,
                                r9.value, ds.value))
  }

  ghost predicate Small(s: Bytes) {
    |s| < 0x8000_0000
  }

  /** All lengths are below 2^31. */
  ghost predicate Sized(r: TaskStateRecord) {
    && Small(r.taskId) && Small(r.workflowId) && Small(r.executionId) && Small(r.output) && Small(r.error)
    && |r.downstream| < 0x8000_0000 && forall id | id in r.downstream :: Small(id)
  }

  lemma Assoc(a: Bytes, b: Bytes, c: Bytes)
    ensures (a + b) + c == a + (b + c)
  {
  }

  /** The fixed part and what follows it, one field at a time. */
  ghost function Nested(r: TaskStateRecord, tail: Bytes): Bytes {
    WriteString(r.taskId) + (WriteString(r.workflowId) + (WriteInt32(r.state) + (WriteString(r.executionId) +
    (WriteInt32(r.attemptCount) + (WriteInt64(r.lastUpdated) + (WriteString(r.output) + (WriteString(r.error) +
    (WriteInt32(r.inDegree) + tail))))))))
  }

  lemma HeadNested(r: TaskStateRecord, tail: Bytes)
    ensures EncodeHead(r) + tail == Nested(r, tail)
  {
    hide WriteString, WriteInt32, WriteInt64;
    var a, b, c, d := WriteString(r.taskId), WriteString(r.workflowId), WriteInt32(r.state), WriteString(r.executionId);
    var e, f, g, h := WriteInt32(r.attemptCount), WriteInt64(r.lastUpdated), WriteString(r.output),
      WriteString(r.error);
    var i := WriteInt32(r.inDegree);
    Assoc(a + b + c + d + e + f + g + h, i, tail);
    Assoc(a + b + c + d + e + f + g, h, i + tail);
    Assoc(a + b + c + d + e + f, g, h + (i + tail));
    Assoc(a + b + c + d + e, f, g + (h + (i + tail)));
    Assoc(a + b + c + d, e, f + (g + (h + (i + tail))));
    Assoc(a + b + c, d, e + (f + (g + (h + (i + tail)))));
    Assoc(a + b, c, d + (e + (f + (g + (h + (i + tail))))));
    Assoc(a, b, c + (d + (e + (f + (g + (h + (i + tail)))))));
  }

  lemma FieldRoundTrip(s: Bytes, rest: Bytes)
    requires Small(s) && rest != []
    ensures ReadString(WriteString(s) + rest) == Got(s, rest)
  {
    StringRoundTrip(s, rest);
  }

  lemma IntFieldNonEmpty(x: int32, rest: Bytes)
    ensures WriteInt32(x) + rest != []
  {
    Int32RoundTrip(x, rest);
  }

  lemma StringFieldNonEmpty(s: Bytes, rest: Bytes)
    ensures WriteString(s) + rest != []
  {
    Int32RoundTrip(Wrap32(|s|), s);
  }

  /** Decoding the fixed part of a record, whatever follows it. */
  lemma HeadRoundTrip(r: TaskStateRecord, tail: Bytes)
    requires Sized(r)
    ensures DecodeTask(EncodeHead(r) + tail) ==
            var ds := DecodeDownstream(tail);
            if ds.None? then Panicked else Record(r.(downstream := ds.value))
  {
    hide ReadString, ReadInt32, ReadInt64, WriteString, WriteInt32, WriteInt64, DecodeDownstream, EncodeHead;
    HeadNested(r, tail);
    var t9 := WriteInt32(r.inDegree) + tail;
    var t8 := WriteString(r.error) + t9;
    var t7 := WriteString(r.output) + t8;
    var t6 := WriteInt64(r.lastUpdated) + t7;
    var t5 := WriteInt32(r.attemptCount) + t6;
    var t4 := WriteString(r.executionId) + t5;
    var t3 := WriteInt32(r.state) + t4;
    var t2 := WriteString(r.workflowId) + t3;
    IntFieldNonEmpty(r.inDegree, tail);
    StringFieldNonEmpty(r.error, t9);
    IntFieldNonEmpty(r.attemptCount, t6);
    IntFieldNonEmpty(r.state, t4);
    StringFieldNonEmpty(r.workflowId, t3);
    FieldRoundTrip(r.taskId, t2);
    FieldRoundTrip(r.workflowId, t3);
    Int32RoundTrip(r.state, t4);
    FieldRoundTrip(r.executionId, t5);
    Int32RoundTrip(r.attemptCount, t6);
    Int64RoundTrip(r.lastUpdated, t7);
    FieldRoundTrip(r.output, t8);
    FieldRoundTrip(r.error, t9);
    Int32RoundTrip(r.inDegree, tail);
  }

  lemma {:induction false} WriteStringsFront(ids: seq<Bytes>)
    requires ids != []
    ensures WriteStrings(ids) == WriteString(ids[0]) + WriteStrings(ids[1..])
  {
    hide WriteString;
    var init, last := ids[..|ids| - 1], ids[|ids| - 1];
    if |ids| == 1 {
      assert init == [] && ids[1..] == [];
    } else {
      WriteStringsFront(init);
      assert init[1..] == ids[1..][..|ids| - 2];
      Assoc(WriteString(ids[0]), WriteStrings(init[1..]), WriteString(last));
    }
  }

  lemma NothingToRead(n: nat)
    ensures ReadStrings([], n) == Some([])
  {
    assert ReadString([]).Eof?;
    hide ReadString;
  }

  /** A list of ids survives, except that a last id that is empty is lost; the
      announced number may be larger than the number of ids that follow. */
  lemma {:induction false} StringsRoundTrip(ids: seq<Bytes>, n: nat)
    requires |ids| <= n && forall id | id in ids :: Small(id)
    ensures ReadStrings(WriteStrings(ids), n) ==
            Some(if ids != [] && ids[|ids| - 1] == [] then ids[..|ids| - 1] else ids)
    decreases |ids|
  {
    hide WriteString, ReadString;
    if ids == [] {
      NothingToRead(n);
    } else {
      var tail := ids[1..];
      assert ids == [ids[0]] + tail && Small(ids[0]);
      WriteStringsFront(ids);
      StringRoundTrip(ids[0], WriteStrings(tail));
      StringsRoundTrip(tail, n - 1);
      if tail != [] {
        WriteStringsNonEmpty(tail);
        assert ids[..|ids| - 1] == [ids[0]] + tail[..|tail| - 1];
      }
    }
  }

  lemma WriteStringsNonEmpty(ids: seq<Bytes>)
    requires ids != []
    ensures WriteStrings(ids) != []
  {
    var last := ids[|ids| - 1];
    assert |WriteInt32(Wrap32(|last|))| == 4 by { Int32RoundTrip(Wrap32(|last|), []); }
  }

  /** Marshalling then unmarshalling a task record is the identity exactly when the
      last downstream id, if there is one, is not empty; otherwise that id is lost. */
  lemma TaskRoundTrip(r: TaskStateRecord)
    requires Sized(r)
    ensures var ds := r.downstream;
            && DecodeTask(EncodeTask(r)) ==
               Record(if ds != [] && ds[|ds| - 1] == [] then r.(downstream := ds[..|ds| - 1]) else r)
            && (DecodeTask(EncodeTask(r)) == Record(r) <==> (ds == [] || ds[|ds| - 1] != []))
  {
    hide DecodeTask, EncodeHead, ReadInt32, WriteInt32, ReadStrings, WriteStrings;
    var n, body := Wrap32(|r.downstream|), WriteStrings(r.downstream);
    Assoc(EncodeHead(r), WriteInt32(n), body);
    HeadRoundTrip(r, WriteInt32(n) + body);
    Int32RoundTrip(n, body);
    StringsRoundTrip(r.downstream, |r.downstream|);
  }

  /** A record written before the downstream list existed, or cut anywhere inside
      the list's length, decodes to the same record with an empty list. */
  lemma OldRecordDecodes(r: TaskStateRecord, cut: Bytes)
    requires Sized(r) && |cut| < 4
    ensures DecodeTask(EncodeHead(r) + cut) == Record(r.(downstream := []))
  {
    HeadRoundTrip(r, cut);
  }

  // ---- Workflow and worker records ------------------------------------------------------------------

  // Their decoders ignore read errors: a failed integer read leaves zero, a
  // failed string read leaves zero bytes.

  function Int32OrZero(input: Bytes): (int32, Bytes) {
    var r := ReadInt32(input);
    if r.Got? then (r.value, r.rest) else (0, [])
  }

  function Int64OrZero(input: Bytes): (int64, Bytes) {
    var r := ReadInt64(input);
    if r.Got? then (r.value, r.rest) else (0, [])
  }

  /** A length-prefixed string, None on a negative length. */
  function LenientString(input: Bytes): Option<(Bytes, Bytes)> {
    var l := Int32OrZero(input);
    if l.0 < 0 then None else Some(Fill(l.1, l.0))
  }

  function LenientStrings(input: Bytes, n: nat): Option<(seq<Bytes>, Bytes)>
    decreases n
  {
    if n == 0 then Some(([], input))
    else
      match LenientString(input)
      case None => None
      case Some(s) =>
        var tail := LenientStrings(s.1, n - 1);
        if tail.None? then None else Some(([s.0] + tail.value.0, tail.value.1))
  }

  /** A count followed by that many strings, None on a negative count or length. */
  function LenientList(input: Bytes): Option<(seq<Bytes>, Bytes)> {
    var n := Int32OrZero(input);
    if n.0 < 0 then None else LenientStrings(n.1, n.0)
  }

  function EncodeWorkflow(r: WorkflowStateRecord): Bytes {
    WriteString(r.workflowId) + WriteInt32(r.state) + WriteInt64(r.submittedAtMs) + WriteInt64(r.completedAtMs)
  }

  function DecodeWorkflow(input: Bytes): Decoded<WorkflowStateRecord> {
    var id := LenientString(input);
    if id.None? then Panicked
    else
      var state := Int32OrZero(id.value.1);
      var submitted := Int64OrZero(state.1);
      var completed := Int64OrZero(submitted.1);
      Record(WorkflowStateRecord(id.value.0, state.0, submitted.0, completed.0))
  }

  function WriteList(ids: seq<Bytes>): Bytes {
    WriteInt32(Wrap32(|ids|)) + WriteStrings(ids)
  }

  function EncodeWorker(r: WorkerRecord): Bytes {
    WriteString(r.workerId) + WriteInt64(r.lastHeartbeat) + WriteList(r.runningTaskIds) + WriteList(r.queuedTaskIds) +
    WriteInt64(r.lastUpdated)
  }

  function DecodeWorker(input: Bytes): Decoded<WorkerRecord> {
    var id := LenientString(input);
    if id.None? then Panicked
    else
      var beat := Int64OrZero(id.value.1);
      var running := LenientList(beat.1);
      if running.None? then Panicked
      else
        var queued := LenientList(running.value.1);
        if queued.None? then Panicked
        else
          var updated := Int64OrZero(queued.value.1);
          Record(WorkerRecord(id.value.0, beat.0, running.value.0, queued.value.0, updated.0))
  }

  lemma LenientStringRoundTrip(s: Bytes, rest: Bytes)
    requires Small(s)
    ensures LenientString(WriteString(s) + rest) == Some((s, rest))
  {
    hide ReadInt32, WriteInt32;
    Int32RoundTrip(|s|, s + rest);
    Assoc(WriteInt32(|s|), s, rest);
    assert (s + rest)[..|s|] == s && (s + rest)[|s|..] == rest;
  }

  lemma {:induction false} LenientStringsRoundTrip(ids: seq<Bytes>, rest: Bytes)
    requires forall id | id in ids :: Small(id)
    ensures LenientStrings(WriteStrings(ids) + rest, |ids|) == Some((ids, rest))
    decreases |ids|
  {
    hide LenientString, WriteString;
    if ids == [] {
      assert WriteStrings(ids) + rest == rest;
    } else {
      var tail := ids[1..];
      assert ids == [ids[0]] + tail && Small(ids[0]);
      WriteStringsFront(ids);
      Assoc(WriteString(ids[0]), WriteStrings(tail), rest);
      LenientStringRoundTrip(ids[0], WriteStrings(tail) + rest);
      LenientStringsRoundTrip(tail, rest);
    }
  }

  lemma LenientListRoundTrip(ids: seq<Bytes>, rest: Bytes)
    requires |ids| < 0x8000_0000 && forall id | id in ids :: Small(id)
    ensures LenientList(WriteList(ids) + rest) == Some((ids, rest))
  {
    hide ReadInt32, WriteInt32, LenientStrings, WriteStrings;
    Assoc(WriteInt32(|ids|), WriteStrings(ids), rest);
    Int32RoundTrip(|ids|, WriteStrings(ids) + rest);
    LenientStringsRoundTrip(ids, rest);
  }

  lemma WorkflowRoundTrip(r: WorkflowStateRecord)
    requires Small(r.workflowId)
    ensures DecodeWorkflow(EncodeWorkflow(r)) == Record(r)
  {
    hide ReadInt32, ReadInt64, WriteInt32, WriteInt64, WriteString, LenientString;
    var c := WriteInt64(r.completedAtMs);
    var b := WriteInt64(r.submittedAtMs) + c;
    var a := WriteInt32(r.state) + b;
    Assoc(WriteString(r.workflowId) + WriteInt32(r.state), WriteInt64(r.submittedAtMs), c);
    Assoc(WriteString(r.workflowId), WriteInt32(r.state), b);
    LenientStringRoundTrip(r.workflowId, a);
    Int32RoundTrip(r.state, b);
    Int64RoundTrip(r.submittedAtMs, c);
    Int64RoundTrip(r.completedAtMs, []);
    assert c + [] == c;
  }

  ghost predicate WorkerSized(r: WorkerRecord) {
    && Small(r.workerId) && |r.runningTaskIds| < 0x8000_0000 && |r.queuedTaskIds| < 0x8000_0000
    && forall id | id in r.runningTaskIds || id in r.queuedTaskIds :: Small(id)
  }

  /** Worker records survive without exception, empty ids included. */
  lemma WorkerRoundTrip(r: WorkerRecord)
    requires WorkerSized(r)
    ensures DecodeWorker(EncodeWorker(r)) == Record(r)
  {
    hide ReadInt64, WriteInt64, WriteString, LenientString, WriteList, LenientList, Small;
    var w, h, u := WriteString(r.workerId), WriteInt64(r.lastHeartbeat), WriteInt64(r.lastUpdated);
    var p, q := WriteList(r.runningTaskIds), WriteList(r.queuedTaskIds);
    Assoc(w + h + p, q, u);
    Assoc(w + h, p, q + u);
    Assoc(w, h, p + (q + u));
    LenientStringRoundTrip(r.workerId, h + (p + (q + u)));
    Int64RoundTrip(r.lastHeartbeat, p + (q + u));
    LenientListRoundTrip(r.runningTaskIds, q + u);
    LenientListRoundTrip(r.queuedTaskIds, u);
    Int64RoundTrip(r.lastUpdated, []);
    assert u + [] == u;
  }
}
