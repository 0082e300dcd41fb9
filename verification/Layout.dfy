/** The stored bytes themselves: which byte of an encoded record holds what, and
    what the decoders make of bytes that no encoder has written. */
module Layouts {
  import opened Types
  import opened Codec

  // ---- Fields at an offset ----------------------------------------------------------------------

  /** The four bytes at `p`, least significant first. */
  function Word32(b: Bytes, p: nat): (u: nat)
    requires p + 4 <= |b|
    ensures u < 0x1_0000_0000
  {
    b[p] as int + 0x100 * b[p + 1] as int + 0x1_0000 * b[p + 2] as int + 0x100_0000 * b[p + 3] as int
  }

  function Word64(b: Bytes, p: nat): (u: nat)
    requires p + 8 <= |b|
    ensures u < 0x1_0000_0000_0000_0000
  {
    Word32(b, p) + 0x1_0000_0000 * Word32(b, p + 4)
  }

  /** An integer in two's complement at offset `p`. */
  predicate Int32At(b: Bytes, p: nat, x: int) {
    p + 4 <= |b| && Word32(b, p) == x % 0x1_0000_0000
  }

  predicate Int64At(b: Bytes, p: nat, x: int) {
    p + 8 <= |b| && Word64(b, p) == x % 0x1_0000_0000_0000_0000
  }

  /** A length and that many bytes at offset `p`. */
  predicate StringAt(b: Bytes, p: nat, s: Bytes) {
    Int32At(b, p, |s|) && p + 4 + |s| <= |b| && b[p + 4..p + 4 + |s|] == s
  }

  /** Strings one after another from offset `p` to offset `q`. */
  predicate StringsAt(b: Bytes, p: nat, ids: seq<Bytes>, q: nat)
    decreases |ids|
  {
    if ids == [] then p == q
    else StringAt(b, p, ids[0]) && StringsAt(b, p + 4 + |ids[0]|, ids[1..], q)
  }

  /** A count and that many strings. */
  predicate ListAt(b: Bytes, p: nat, ids: seq<Bytes>, q: nat) {
    Int32At(b, p, |ids|) && StringsAt(b, p + 4, ids, q)
  }

  // ---- Integers ---------------------------------------------------------------------------------

  /** Bytes are the digits of their value. */
  lemma {:induction false} DigitsOf(b: Bytes)
    ensures LittleEndian(Unsigned(b), |b|) == b
  {
    if b != [] {
      DigitsOf(b[1..]);
      assert Unsigned(b) % 256 == b[0] && Unsigned(b) / 256 == Unsigned(b[1..]);
    }
  }

  lemma Value4(b: Bytes, p: nat)
    requires p + 4 <= |b|
    ensures Unsigned(b[p..p + 4]) == Word32(b, p)
  {
    var c := b[p..p + 4];
    assert Unsigned(c) == c[0] as int + 256 * Unsigned(c[1..]);
    assert Unsigned(c[1..]) == c[1] as int + 256 * Unsigned(c[1..][1..]);
    assert c[1..][1..] == c[2..] && c[2..][1..] == c[3..] && c[3..][1..] == [];
    assert Unsigned(c[2..]) == c[2] as int + 256 * Unsigned(c[3..]);
    assert Unsigned(c[3..]) == c[3] as int + 256 * Unsigned([]);
  }

  lemma {:induction false} ValueConcat(a: Bytes, b: Bytes)
    ensures Unsigned(a + b) == Unsigned(a) + Pow256(|a|) * Unsigned(b)
  {
    if a == [] {
      assert a + b == b;
    } else {
      assert (a + b)[1..] == a[1..] + b;
      ValueConcat(a[1..], b);
      Regroup(Pow256(|a| - 1), Unsigned(a[1..]), Unsigned(b));
    }
  }

  lemma Regroup(m: nat, v: nat, u: nat)
    ensures 256 * (v + m * u) == 256 * v + (256 * m) * u
  {
  }

  lemma Value8(b: Bytes, p: nat)
    requires p + 8 <= |b|
    ensures Unsigned(b[p..p + 8]) == Word64(b, p)
  {
    Widths();
    assert b[p..p + 8] == b[p..p + 4] + b[p + 4..p + 8];
    ValueConcat(b[p..p + 4], b[p + 4..p + 8]);
    Value4(b, p);
    Value4(b, p + 4);
  }

  /** The bytes of an int32: four, least significant first, in two's complement. */
  lemma Int32Bytes(x: int32)
    ensures |WriteInt32(x)| == 4
    ensures var b := WriteInt32(x);
            b[0] as int + 0x100 * b[1] as int + 0x1_0000 * b[2] as int + 0x100_0000 * b[3] as int ==
            if x < 0 then x + 0x1_0000_0000 else x
  {
    Widths();
    LittleEndianRoundTrip(if x < 0 then x + TWO32 else x, 4);
    Value4(WriteInt32(x), 0);
    assert WriteInt32(x)[0..4] == WriteInt32(x);
  }

  lemma Int64Bytes(x: int64)
    ensures |WriteInt64(x)| == 8
    ensures Word64(WriteInt64(x), 0) == if x < 0 then x + 0x1_0000_0000_0000_0000 else x
  {
    Widths();
    LittleEndianRoundTrip(if x < 0 then x + TWO64 else x, 8);
    Value8(WriteInt64(x), 0);
    assert WriteInt64(x)[0..8] == WriteInt64(x);
  }

  /** A value determines its bytes. */
  lemma SameBytes(a: Bytes, b: Bytes)
    requires |a| == |b| && Unsigned(a) == Unsigned(b)
    ensures a == b
  {
    DigitsOf(a);
    DigitsOf(b);
  }

  lemma Slices(b: Bytes, p: nat, w: Bytes)
    requires p + |w| <= |b|
    ensures b[p..p + |w|] == w <==> b[p..] == w + b[p + |w|..]
  {
    assert b[p..] == b[p..p + |w|] + b[p + |w|..];
    assert (w + b[p + |w|..])[..|w|] == w && b[p..][..|w|] == b[p..p + |w|];
  }

  lemma Int32Word(x: int32)
    ensures |WriteInt32(x)| == 4 && Word32(WriteInt32(x), 0) == x as int % 0x1_0000_0000
  {
    Int32Bytes(x);
  }

  /** An int32 field stands at `p` exactly when its encoding does. */
  lemma Int32Field(b: Bytes, p: nat, x: int32)
    requires p + 4 <= |b|
    ensures Int32At(b, p, x) <==> b[p..] == WriteInt32(x) + b[p + 4..]
  {
    hide WriteInt32, Unsigned, Word32;
    Int32Word(x);
    var w := WriteInt32(x);
    assert Int32At(b, p, x) <==> Word32(b, p) == Word32(w, 0);
    hide Int32At;
    Value4(b, p);
    Value4(w, 0);
    assert w[0..4] == w;
    if Unsigned(b[p..p + 4]) == Unsigned(w) { SameBytes(b[p..p + 4], w); }
    Slices(b, p, w);
  }

  lemma Complement64(x: int64)
    ensures x as int % 0x1_0000_0000_0000_0000 == if x < 0 then x + 0x1_0000_0000_0000_0000 else x
  {
  }

  lemma Int64Field(b: Bytes, p: nat, x: int64)
    requires p + 8 <= |b|
    ensures Int64At(b, p, x) <==> b[p..] == WriteInt64(x) + b[p + 8..]
  {
    hide WriteInt64, Unsigned, Word64;
    Int64Bytes(x);
    Complement64(x);
    var w := WriteInt64(x);
    assert Int64At(b, p, x) <==> Word64(b, p) == Word64(w, 0);
    hide Int64At;
    Value8(b, p);
    Value8(w, 0);
    assert w[0..8] == w;
    if Unsigned(b[p..p + 8]) == Unsigned(w) { SameBytes(b[p..p + 8], w); }
    Slices(b, p, w);
  }

  lemma WrapsAround(n: nat)
    ensures Wrap32(n) as int % 0x1_0000_0000 == n % 0x1_0000_0000
  {
  }

  /** A string field stands at `p` exactly when its encoding does. */
  lemma StringField(b: Bytes, p: nat, s: Bytes)
    requires p + 4 + |s| <= |b|
    ensures StringAt(b, p, s) <==> b[p..] == WriteString(s) + b[p + 4 + |s|..]
  {
    var n, q := Wrap32(|s|), p + 4;
    WrapsAround(|s|);
    Int32Bytes(n);
    hide Wrap32, WriteInt32, Word32;
    Int32Field(b, p, n);
    Slices(b, q, s);
    var end := b[q + |s|..];
    assert (WriteInt32(n) + s) + end == WriteInt32(n) + (s + end);
    if b[p..] == WriteInt32(n) + (s + end) {
      assert b[q..] == b[p..][4..] == s + end;
    }
  }

  // ---- One field after another ------------------------------------------------------------------

  lemma TakeInt32(b: Bytes, p: nat, x: int32, rest: Bytes)
    requires p <= |b| && b[p..] == WriteInt32(x) + rest
    ensures p + 4 <= |b| && b[p + 4..] == rest && Int32At(b, p, x)
  {
    hide WriteInt32, Word32;
    Int32Word(x);
    assert b[p..][4..] == rest;
    Int32Field(b, p, x);
  }

  lemma TakeInt64(b: Bytes, p: nat, x: int64, rest: Bytes)
    requires p <= |b| && b[p..] == WriteInt64(x) + rest
    ensures p + 8 <= |b| && b[p + 8..] == rest && Int64At(b, p, x)
  {
    hide WriteInt64, Word64;
    Int64Bytes(x);
    assert b[p..][8..] == rest;
    Int64Field(b, p, x);
  }

  lemma TakeString(b: Bytes, p: nat, s: Bytes, rest: Bytes)
    requires p <= |b| && b[p..] == WriteString(s) + rest
    ensures p + 4 + |s| <= |b| && b[p + 4 + |s|..] == rest && StringAt(b, p, s)
  {
    hide WriteInt32, Word32;
    Int32Word(Wrap32(|s|));
    assert b[p..][4 + |s|..] == rest;
    StringField(b, p, s);
  }

  lemma {:induction false} TakeStrings(b: Bytes, p: nat, ids: seq<Bytes>, rest: Bytes)
    requires p <= |b| && b[p..] == WriteStrings(ids) + rest
    ensures StringsAt(b, p, ids, |b| - |rest|)
    decreases |ids|
  {
    hide WriteString, StringAt;
    if ids != [] {
      WriteStringsFront(ids);
      Assoc(WriteString(ids[0]), WriteStrings(ids[1..]), rest);
      TakeString(b, p, ids[0], WriteStrings(ids[1..]) + rest);
      TakeStrings(b, p + 4 + |ids[0]|, ids[1..], rest);
    }
  }

  lemma ReadOffString(b: Bytes, p: nat, s: Bytes)
    requires StringAt(b, p, s)
    ensures p + 4 + |s| <= |b| && b[p..] == WriteString(s) + b[p + 4 + |s|..]
  {
    hide WriteString, Word32;
    StringField(b, p, s);
  }

  lemma {:induction false} ReadOffStrings(b: Bytes, p: nat, ids: seq<Bytes>, q: nat)
    requires StringsAt(b, p, ids, q) && p <= |b|
    ensures q <= |b| && b[p..] == WriteStrings(ids) + b[q..]
    decreases |ids|
  {
    if ids == [] {
      assert WriteStrings(ids) + b[q..] == b[q..];
    } else {
      hide WriteString, StringAt;
      ReadOffString(b, p, ids[0]);
      ReadOffStrings(b, p + 4 + |ids[0]|, ids[1..], q);
      WriteStringsFront(ids);
      Assoc(WriteString(ids[0]), WriteStrings(ids[1..]), b[q..]);
    }
  }

  lemma TakeList(b: Bytes, p: nat, ids: seq<Bytes>, rest: Bytes)
    requires p <= |b| && b[p..] == WriteList(ids) + rest
    ensures ListAt(b, p, ids, |b| - |rest|)
  {
    hide WriteInt32, WriteStrings, Word32, StringsAt;
    var n := Wrap32(|ids|);
    WrapsAround(|ids|);
    Assoc(WriteInt32(n), WriteStrings(ids), rest);
    TakeInt32(b, p, n, WriteStrings(ids) + rest);
    TakeStrings(b, p + 4, ids, rest);
  }

  lemma ReadOffList(b: Bytes, p: nat, ids: seq<Bytes>, q: nat)
    requires ListAt(b, p, ids, q)
    ensures q <= |b| && b[p..] == WriteList(ids) + b[q..]
  {
    hide WriteInt32, WriteStrings, Word32, StringsAt, Wrap32;
    var n := Wrap32(|ids|);
    WrapsAround(|ids|);
    Int32Field(b, p, n);
    ReadOffStrings(b, p + 4, ids, q);
    Assoc(WriteInt32(n), WriteStrings(ids), b[q..]);
  }

  // ---- Task records -------------------------------------------------------------------------------

  /** The fields of a task record, one behind the other, and nothing else. */
  predicate TaskLaidOut(b: Bytes, r: TaskStateRecord) {
    var workflow := 4 + |r.taskId|;
    var state := workflow + 4 + |r.workflowId|;
    var execution := state + 4;
    && StringAt(b, 0, r.taskId) && StringAt(b, workflow, r.workflowId) && Int32At(b, state, r.state)
    && StringAt(b, execution, r.executionId) && RestLaidOut(b, execution + 4 + |r.executionId|, r)
  }

  /** The fields from the attempt count on. */
  predicate RestLaidOut(b: Bytes, attempts: nat, r: TaskStateRecord) {
    var updated := attempts + 4;
    var output := updated + 8;
    var error := output + 4 + |r.output|;
    var degree := error + 4 + |r.error|;
    && Int32At(b, attempts, r.attemptCount) && Int64At(b, updated, r.lastUpdated) && StringAt(b, output, r.output)
    && StringAt(b, error, r.error) && Int32At(b, degree, r.inDegree) && ListAt(b, degree + 4, r.downstream, |b|)
  }

  function EncodeRest(r: TaskStateRecord): Bytes {
    WriteInt32(r.attemptCount) + (WriteInt64(r.lastUpdated) + (WriteString(r.output) + (WriteString(r.error) +
    (WriteInt32(r.inDegree) + WriteList(r.downstream)))))
  }

  lemma EncodedFields(r: TaskStateRecord)
    ensures EncodeTask(r) ==
            WriteString(r.taskId) + (WriteString(r.workflowId) + (WriteInt32(r.state) + (WriteString(r.executionId) +
            EncodeRest(r))))
  {
    hide EncodeHead, WriteInt32, WriteInt64, WriteString, WriteStrings;
    Assoc(EncodeHead(r), WriteInt32(Wrap32(|r.downstream|)), WriteStrings(r.downstream));
    HeadNested(r, WriteList(r.downstream));
  }

  lemma TakeRest(b: Bytes, p: nat, r: TaskStateRecord)
    requires p <= |b| && b[p..] == EncodeRest(r)
    ensures RestLaidOut(b, p, r)
  {
    hide WriteString, WriteInt32, WriteInt64, WriteList, StringAt, Int32At, Int64At, ListAt;
    var tail := WriteList(r.downstream);
    var t9 := WriteInt32(r.inDegree) + tail;
    var t8 := WriteString(r.error) + t9;
    var t7 := WriteString(r.output) + t8;
    TakeInt32(b, p, r.attemptCount, WriteInt64(r.lastUpdated) + t7);
    TakeInt64(b, p + 4, r.lastUpdated, t7);
    TakeString(b, p + 12, r.output, t8);
    TakeString(b, p + 16 + |r.output|, r.error, t9);
    var q := p + 20 + |r.output| + |r.error|;
    TakeInt32(b, q, r.inDegree, tail);
    assert tail == tail + [];
    TakeList(b, q + 4, r.downstream, []);
  }

  lemma ReadOffRest(b: Bytes, p: nat, r: TaskStateRecord)
    requires RestLaidOut(b, p, r)
    ensures p <= |b| && b[p..] == EncodeRest(r)
  {
    hide WriteString, WriteInt32, WriteInt64, WriteList, Word32, Word64, StringsAt;
    var p8 := p + 16 + |r.output|;
    var p9 := p8 + 4 + |r.error|;
    Int32Field(b, p, r.attemptCount);
    Int64Field(b, p + 4, r.lastUpdated);
    StringField(b, p + 12, r.output);
    StringField(b, p8, r.error);
    Int32Field(b, p9, r.inDegree);
    ReadOffList(b, p9 + 4, r.downstream, |b|);
    assert b[|b|..] == [] && WriteList(r.downstream) + [] == WriteList(r.downstream);
  }

  /** Exactly the encoding of a task record has this layout. */
  lemma TaskLayout(b: Bytes, r: TaskStateRecord)
    ensures TaskLaidOut(b, r) <==> b == EncodeTask(r)
  {
    EncodedFields(r);
    if b == EncodeTask(r) { TaskIsLaidOut(b, r); }
    if TaskLaidOut(b, r) { TaskReadOff(b, r); }
  }

  lemma TaskIsLaidOut(b: Bytes, r: TaskStateRecord)
    requires b == WriteString(r.taskId) + (WriteString(r.workflowId) + (WriteInt32(r.state) +
                  (WriteString(r.executionId) + EncodeRest(r))))
    ensures TaskLaidOut(b, r)
  {
    hide WriteString, WriteInt32, StringAt, Int32At, RestLaidOut, EncodeRest;
    var t4 := WriteString(r.executionId) + EncodeRest(r);
    var t3 := WriteInt32(r.state) + t4;
    assert b[0..] == b;
    TakeString(b, 0, r.taskId, WriteString(r.workflowId) + t3);
    TakeString(b, 4 + |r.taskId|, r.workflowId, t3);
    var p := 8 + |r.taskId| + |r.workflowId|;
    TakeInt32(b, p, r.state, t4);
    TakeString(b, p + 4, r.executionId, EncodeRest(r));
    TakeRest(b, p + 8 + |r.executionId|, r);
  }

  lemma TaskReadOff(b: Bytes, r: TaskStateRecord)
    requires TaskLaidOut(b, r)
    ensures b == WriteString(r.taskId) + (WriteString(r.workflowId) + (WriteInt32(r.state) +
                 (WriteString(r.executionId) + EncodeRest(r))))
  {
    hide WriteString, WriteInt32, Word32, RestLaidOut, EncodeRest;
    var p := 8 + |r.taskId| + |r.workflowId|;
    StringField(b, 0, r.taskId);
    StringField(b, 4 + |r.taskId|, r.workflowId);
    Int32Field(b, p, r.state);
    StringField(b, p + 4, r.executionId);
    ReadOffRest(b, p + 8 + |r.executionId|, r);
    assert b[0..] == b;
  }

  // ---- Workflow and worker records ------------------------------------------------------------------

  predicate WorkflowLaidOut(b: Bytes, r: WorkflowStateRecord) {
    var state := 4 + |r.workflowId|;
    && StringAt(b, 0, r.workflowId) && Int32At(b, state, r.state) && Int64At(b, state + 4, r.submittedAtMs)
    && Int64At(b, state + 12, r.completedAtMs) && |b| == state + 20
  }

  lemma WorkflowLayout(b: Bytes, r: WorkflowStateRecord)
    ensures WorkflowLaidOut(b, r) <==> b == EncodeWorkflow(r)
  {
    hide WriteString, WriteInt32, WriteInt64, Word32, Word64;
    var c := WriteInt64(r.completedAtMs);
    var t2 := WriteInt64(r.submittedAtMs) + c;
    var p := 4 + |r.workflowId|;
    Assoc(WriteString(r.workflowId) + WriteInt32(r.state), WriteInt64(r.submittedAtMs), c);
    Assoc(WriteString(r.workflowId), WriteInt32(r.state), t2);
    assert b[0..] == b && c + [] == c;
    if b == EncodeWorkflow(r) {
      TakeString(b, 0, r.workflowId, WriteInt32(r.state) + t2);
      TakeInt32(b, p, r.state, t2);
      TakeInt64(b, p + 4, r.submittedAtMs, c);
      TakeInt64(b, p + 12, r.completedAtMs, []);
    }
    if WorkflowLaidOut(b, r) {
      StringField(b, 0, r.workflowId);
      Int32Field(b, p, r.state);
      Int64Field(b, p + 4, r.submittedAtMs);
      Int64Field(b, p + 12, r.completedAtMs);
      assert b[p + 20..] == [];
    }
  }

  /** `q` is where the running tasks end and the queued tasks begin. */
  predicate WorkerLaidOut(b: Bytes, r: WorkerRecord, q: nat) {
    && StringAt(b, 0, r.workerId) && Int64At(b, 4 + |r.workerId|, r.lastHeartbeat)
    && ListAt(b, 12 + |r.workerId|, r.runningTaskIds, q) && |b| >= 8 && ListAt(b, q, r.queuedTaskIds, |b| - 8)
    && Int64At(b, |b| - 8, r.lastUpdated)
  }

  lemma WorkerLayout(b: Bytes, r: WorkerRecord)
    ensures (exists q: nat :: WorkerLaidOut(b, r, q)) <==> b == EncodeWorker(r)
  {
    hide WriteString, WriteInt64, WriteList, StringAt, Int64At, ListAt;
    if b == EncodeWorker(r) { WorkerIsLaidOut(b, r); }
    if q: nat :| WorkerLaidOut(b, r, q) { WorkerReadOff(b, r, q); }
  }

  lemma WorkerFields(r: WorkerRecord)
    ensures EncodeWorker(r) ==
            WriteString(r.workerId) + (WriteInt64(r.lastHeartbeat) + (WriteList(r.runningTaskIds) +
            (WriteList(r.queuedTaskIds) + WriteInt64(r.lastUpdated))))
  {
    hide WriteString, WriteInt64, WriteList;
    var w, h, u := WriteString(r.workerId), WriteInt64(r.lastHeartbeat), WriteInt64(r.lastUpdated);
    var p, q := WriteList(r.runningTaskIds), WriteList(r.queuedTaskIds);
    Assoc(w + h + p, q, u);
    Assoc(w + h, p, q + u);
    Assoc(w, h, p + (q + u));
  }

  lemma WorkerIsLaidOut(b: Bytes, r: WorkerRecord)
    requires b == EncodeWorker(r)
    ensures exists q: nat :: WorkerLaidOut(b, r, q)
  {
    hide EncodeWorker, WriteString, WriteInt64, WriteList, StringAt, Int64At, Word32, StringsAt;
    WorkerFields(r);
    Int64Bytes(r.lastUpdated);
    hide Word64;
    var u := WriteInt64(r.lastUpdated);
    var t3 := WriteList(r.queuedTaskIds) + u;
    var t2 := WriteList(r.runningTaskIds) + t3;
    assert b[0..] == b && u + [] == u;
    TakeString(b, 0, r.workerId, WriteInt64(r.lastHeartbeat) + t2);
    var p := 4 + |r.workerId|;
    TakeInt64(b, p, r.lastHeartbeat, t2);
    TakeList(b, p + 8, r.runningTaskIds, t3);
    var q := |b| - |t3|;
    ReadOffList(b, p + 8, r.runningTaskIds, q);
    assert b[q..] == t3 by { assert b[p + 8..] == t2; SuffixOf(b, p + 8, WriteList(r.runningTaskIds), t3); }
    TakeList(b, q, r.queuedTaskIds, u);
    SuffixOf(b, q, WriteList(r.queuedTaskIds), u);
    TakeInt64(b, |b| - 8, r.lastUpdated, []);
    assert WorkerLaidOut(b, r, q);
  }

  lemma SuffixOf(b: Bytes, p: nat, w: Bytes, rest: Bytes)
    requires p <= |b| && b[p..] == w + rest
    ensures |b| >= |rest| && b[|b| - |rest|..] == rest
  {
    assert b[p..][|w|..] == rest;
  }

  lemma WorkerReadOff(b: Bytes, r: WorkerRecord, q: nat)
    requires WorkerLaidOut(b, r, q)
    ensures b == EncodeWorker(r)
  {
    hide EncodeWorker, WriteString, WriteInt64, WriteList, Word32, Word64, StringsAt;
    WorkerFields(r);
    StringField(b, 0, r.workerId);
    Int64Field(b, 4 + |r.workerId|, r.lastHeartbeat);
    ReadOffList(b, 12 + |r.workerId|, r.runningTaskIds, q);
    ReadOffList(b, q, r.queuedTaskIds, |b| - 8);
    Int64Field(b, |b| - 8, r.lastUpdated);
    assert b[|b|..] == [] && WriteInt64(r.lastUpdated) + [] == WriteInt64(r.lastUpdated) && b[0..] == b;
  }

  // ---- Reading any bytes ----------------------------------------------------------------------------

  lemma Int32Reads(input: Bytes)
    ensures ReadInt32(input) ==
            if |input| < 4 then Eof([])
            else Got(if Word32(input, 0) < 0x8000_0000 then Word32(input, 0) else Word32(input, 0) - 0x1_0000_0000,
                     input[4..])
  {
    if |input| >= 4 {
      assert input[0..4] == input[..4];
      Value4(input, 0);
    }
  }

  lemma Int64Reads(input: Bytes)
    ensures ReadInt64(input) ==
            if |input| < 8 then Eof([])
            else Got(if Word64(input, 0) < 0x8000_0000_0000_0000 then Word64(input, 0)
                     else Word64(input, 0) - 0x1_0000_0000_0000_0000,
                     input[8..])
  {
    if |input| >= 8 {
      assert input[0..8] == input[..8];
      Value8(input, 0);
    }
  }

  lemma Cut4(input: Bytes, l: nat)
    requires 4 + l <= |input|
    ensures input[4..][..l] == input[4..4 + l] && input[4..][l..] == input[4 + l..]
  {
  }

  /** A length from 2^31 on is a panic, a length at the very end of the input an
      error, even if it is zero; a string cut short is filled up with zero bytes. */
  lemma StringReads(input: Bytes)
    ensures var r := ReadString(input);
            if |input| < 4 then r == Eof([])
            else
              var l := Word32(input, 0);
              if l >= 0x8000_0000 then r.Panic?
              else if |input| == 4 then r == Eof([])
              else if 4 + l <= |input| then r == Got(input[4..4 + l], input[4 + l..])
              else r.Got? && r.rest == [] && |r.value| == l && r.value[..|input| - 4] == input[4..] &&
                   forall i | |input| - 4 <= i < l :: r.value[i] == 0
  {
    Int32Reads(input);
    hide Word32, ReadInt32;
    if |input| > 4 && Word32(input, 0) < 0x8000_0000 && 4 + Word32(input, 0) <= |input| {
      Cut4(input, Word32(input, 0));
    }
  }

  /** The same where read errors are ignored: a missing length counts as zero. */
  lemma LenientReads(input: Bytes)
    ensures var r := LenientString(input);
            if |input| < 4 then r == Some(([], []))
            else
              var l := Word32(input, 0);
              if l >= 0x8000_0000 then r.None?
              else if 4 + l <= |input| then r == Some((input[4..4 + l], input[4 + l..]))
              else r.Some? && r.value.1 == [] && |r.value.0| == l && r.value.0[..|input| - 4] == input[4..] &&
                   forall i | |input| - 4 <= i < l :: r.value.0[i] == 0
  {
    Int32Reads(input);
    hide Word32, ReadInt32;
    if |input| >= 4 && Word32(input, 0) < 0x8000_0000 && 4 + Word32(input, 0) <= |input| {
      Cut4(input, Word32(input, 0));
    }
  }

  // ---- Damaged records ------------------------------------------------------------------------------

  lemma CutInt32(x: int32, rest: Bytes, input: Bytes)
    requires input < WriteInt32(x) + rest
    ensures ReadInt32(input).Eof? || (ReadInt32(input).Got? && ReadInt32(input).rest < rest)
  {
    Int32Word(x);
    hide WriteInt32, Word32;
    Int32Reads(input);
    hide ReadInt32;
    var w := WriteInt32(x) + rest;
    if |input| >= 4 { assert input[4..] == w[..|input|][4..] == rest[..|input| - 4]; }
  }

  lemma CutInt64(x: int64, rest: Bytes, input: Bytes)
    requires input < WriteInt64(x) + rest
    ensures ReadInt64(input).Eof? || (ReadInt64(input).Got? && ReadInt64(input).rest < rest)
  {
    Int64Bytes(x);
    hide WriteInt64, Word64;
    Int64Reads(input);
    hide ReadInt64;
    var w := WriteInt64(x) + rest;
    if |input| >= 8 { assert input[8..] == w[..|input|][8..] == rest[..|input| - 8]; }
  }

  lemma CutLength(s: Bytes, rest: Bytes, input: Bytes)
    requires Small(s) && input < WriteString(s) + rest && |input| >= 4
    ensures |WriteString(s)| == 4 + |s| && Word32(input, 0) == |s|
  {
    Int32Word(|s|);
    var w, p := WriteString(s) + rest, WriteInt32(|s|);
    hide WriteInt32;
    assert p == w[..4] == input[..4];
    assert input[0] == p[0] && input[1] == p[1] && input[2] == p[2] && input[3] == p[3];
  }

  lemma CutString(s: Bytes, rest: Bytes, input: Bytes)
    requires Small(s) && rest != [] && input < WriteString(s) + rest
    ensures ReadString(input).Eof? || (ReadString(input).Got? && ReadString(input).rest < rest)
  {
    hide WriteString, ReadString, Word32;
    StringReads(input);
    if |input| >= 4 {
      CutLength(s, rest, input);
      var n := 4 + |s|;
      if n <= |input| { assert input[n..] == (WriteString(s) + rest)[..|input|][n..] == rest[..|input| - n]; }
    }
  }

  /** A task record cut anywhere before its downstream list is refused. */
  lemma TruncatedRefused(r: TaskStateRecord, input: Bytes)
    requires Sized(r) && input < EncodeHead(r)
    ensures DecodeTask(input) == Malformed
  {
    hide ReadString, ReadInt32, ReadInt64, WriteString, WriteInt32, WriteInt64, EncodeHead, DecodeRest;
    HeadNested(r, []);
    assert EncodeHead(r) + [] == EncodeHead(r);
    var t5 := RestOf(r);
    var t4 := WriteString(r.executionId) + t5;
    var t3 := WriteInt32(r.state) + t4;
    var t2 := WriteString(r.workflowId) + t3;
    IntFieldNonEmpty(r.attemptCount, t5[|WriteInt32(r.attemptCount)|..]);
    IntFieldNonEmpty(r.state, t4);
    StringFieldNonEmpty(r.workflowId, t3);
    CutString(r.taskId, t2, input);
    var r1 := ReadString(input);
    if r1.Got? {
      CutString(r.workflowId, t3, r1.rest);
      var r2 := ReadString(r1.rest);
      if r2.Got? {
        CutInt32(r.state, t4, r2.rest);
        var r3 := ReadInt32(r2.rest);
        if r3.Got? {
          CutString(r.executionId, t5, r3.rest);
          var r4 := ReadString(r3.rest);
          if r4.Got? { TruncatedRest(r, r1.value, r2.value, r3.value, r4.value, r4.rest); }
        }
      }
    }
  }

  /** The fixed fields from the attempt count on. */
  ghost function RestOf(r: TaskStateRecord): Bytes {
    WriteInt32(r.attemptCount) + (WriteInt64(r.lastUpdated) + (WriteString(r.output) + (WriteString(r.error) +
    (WriteInt32(r.inDegree) + []))))
  }

  lemma TruncatedRest(r: TaskStateRecord, t: Bytes, w: Bytes, state: int32, x: Bytes, input: Bytes)
    requires Sized(r) && input < RestOf(r)
    ensures DecodeRest(t, w, state, x, input) == Malformed
  {
    hide ReadString, ReadInt32, ReadInt64, WriteString, WriteInt32, WriteInt64, DecodeDownstream;
    var t9 := WriteInt32(r.inDegree) + [];
    var t8 := WriteString(r.error) + t9;
    var t7 := WriteString(r.output) + t8;
    IntFieldNonEmpty(r.inDegree, []);
    StringFieldNonEmpty(r.error, t9);
    CutInt32(r.attemptCount, WriteInt64(r.lastUpdated) + t7, input);
    var r5 := ReadInt32(input);
    if r5.Got? {
      CutInt64(r.lastUpdated, t7, r5.rest);
      var r6 := ReadInt64(r5.rest);
      if r6.Got? {
        CutString(r.output, t8, r6.rest);
        var r7 := ReadString(r6.rest);
        if r7.Got? {
          CutString(r.error, t9, r7.rest);
          var r8 := ReadString(r7.rest);
          if r8.Got? { CutInt32(r.inDegree, [], r8.rest); }
        }
      }
    }
  }

  /** A record whose list announces more ids than follow decodes to the ids that are there. */
  lemma FewerIdsThanAnnounced(r: TaskStateRecord, n: int32)
    requires Sized(r) && |r.downstream| <= n
    ensures DecodeTask(EncodeHead(r) + (WriteInt32(n) + WriteStrings(r.downstream))) == DecodeTask(EncodeTask(r))
  {
    hide DecodeTask, EncodeHead, ReadInt32, WriteInt32, ReadStrings, WriteStrings;
    TaskRoundTrip(r);
    HeadRoundTrip(r, WriteInt32(n) + WriteStrings(r.downstream));
    Int32RoundTrip(n, WriteStrings(r.downstream));
    StringsRoundTrip(r.downstream, n);
  }

  /** What precedes the `n`-th length in a task record, the count of the list included. */
  ghost function Before(r: TaskStateRecord, n: nat, tail: Bytes): Bytes
    requires n < 6
  {
    if n == 0 then tail
    else if n == 1 then WriteString(r.taskId) + tail
    else if n == 2 then WriteString(r.taskId) + (WriteString(r.workflowId) + (WriteInt32(r.state) + tail))
    else
      WriteString(r.taskId) + (WriteString(r.workflowId) + (WriteInt32(r.state) + (WriteString(r.executionId) +
      (WriteInt32(r.attemptCount) + (WriteInt64(r.lastUpdated) +
      (if n == 3 then tail
       else if n == 4 then WriteString(r.output) + tail
       else WriteString(r.output) + (WriteString(r.error) + (WriteInt32(r.inDegree) + tail))))))))
  }

  /** A negative length anywhere in a task record is a panic. */
  lemma NegativeLengthPanics(r: TaskStateRecord, n: nat, tail: Bytes)
    requires Sized(r) && n < 6 && |tail| >= 4 && Word32(tail, 0) >= 0x8000_0000
    ensures DecodeTask(Before(r, n, tail)) == Panicked
  {
    Int32Reads(tail);
    StringReads(tail);
    hide ReadString, ReadInt32, ReadInt64, WriteString, WriteInt32, WriteInt64, Word32;
    if n > 2 {
      PanicsLater(r, n, tail);
    } else if n == 2 {
      var t3 := WriteInt32(r.state) + tail;
      IntFieldNonEmpty(r.state, tail);
      StringFieldNonEmpty(r.workflowId, t3);
      FieldRoundTrip(r.taskId, WriteString(r.workflowId) + t3);
      FieldRoundTrip(r.workflowId, t3);
      Int32RoundTrip(r.state, tail);
    } else if n == 1 {
      FieldRoundTrip(r.taskId, tail);
    }
  }

  lemma PanicsLater(r: TaskStateRecord, n: nat, tail: Bytes)
    requires Sized(r) && 2 < n < 6 && |tail| >= 4 && ReadString(tail).Panic?
    requires ReadInt32(tail).Got? && ReadInt32(tail).value < 0
    ensures DecodeTask(Before(r, n, tail)) == Panicked
  {
    hide ReadString, ReadInt32, ReadInt64, WriteString, WriteInt32, WriteInt64, ReadStrings;
    var t9 := WriteInt32(r.inDegree) + tail;
    var t8 := WriteString(r.error) + t9;
    var t7 := if n == 3 then tail else if n == 4 then WriteString(r.output) + tail else WriteString(r.output) + t8;
    var t6 := WriteInt64(r.lastUpdated) + t7;
    var t5 := WriteInt32(r.attemptCount) + t6;
    var t4 := WriteString(r.executionId) + t5;
    var t3 := WriteInt32(r.state) + t4;
    IntFieldNonEmpty(r.inDegree, tail);
    StringFieldNonEmpty(r.error, t9);
    IntFieldNonEmpty(r.attemptCount, t6);
    IntFieldNonEmpty(r.state, t4);
    StringFieldNonEmpty(r.workflowId, t3);
    FieldRoundTrip(r.taskId, WriteString(r.workflowId) + t3);
    FieldRoundTrip(r.workflowId, t3);
    Int32RoundTrip(r.state, t4);
    FieldRoundTrip(r.executionId, t5);
    Int32RoundTrip(r.attemptCount, t6);
    Int64RoundTrip(r.lastUpdated, t7);
    if n == 4 { FieldRoundTrip(r.output, tail); }
    if n == 5 {
      FieldRoundTrip(r.output, t8);
      FieldRoundTrip(r.error, t9);
      Int32RoundTrip(r.inDegree, tail);
    }
  }

  /** In a workflow record cut short every field that is not complete reads as zero. */
  lemma TruncatedWorkflow(r: WorkflowStateRecord, cut: Bytes)
    requires Small(r.workflowId)
    ensures |cut| < 4 ==> DecodeWorkflow(cut) == Record(WorkflowStateRecord([], 0, 0, 0))
    ensures |cut| < 4 ==>
              DecodeWorkflow(WriteString(r.workflowId) + cut) == Record(WorkflowStateRecord(r.workflowId, 0, 0, 0))
    ensures |cut| < 8 ==>
              && DecodeWorkflow(WriteString(r.workflowId) + (WriteInt32(r.state) + cut)) ==
                 Record(r.(submittedAtMs := 0, completedAtMs := 0))
              && DecodeWorkflow(WriteString(r.workflowId) +
                                (WriteInt32(r.state) + (WriteInt64(r.submittedAtMs) + cut))) ==
                 Record(r.(completedAtMs := 0))
  {
    hide WriteString, WriteInt32, WriteInt64, LenientString;
    var t2 := WriteInt64(r.submittedAtMs) + cut;
    LenientReads(cut);
    LenientStringRoundTrip(r.workflowId, cut);
    LenientStringRoundTrip(r.workflowId, WriteInt32(r.state) + cut);
    LenientStringRoundTrip(r.workflowId, WriteInt32(r.state) + t2);
    Int32RoundTrip(r.state, cut);
    Int32RoundTrip(r.state, t2);
    Int64RoundTrip(r.submittedAtMs, cut);
  }

  /** A negative length is a panic in these records too. */
  lemma NegativeLengthAlsoPanics(w: Bytes, beat: int64, ids: seq<Bytes>, tail: Bytes)
    requires Small(w) && |ids| < 0x8000_0000 && (forall id | id in ids :: Small(id))
    requires |tail| >= 4 && Word32(tail, 0) >= 0x8000_0000
    ensures DecodeWorkflow(tail) == Panicked && DecodeWorker(tail) == Panicked
    ensures DecodeWorker(WriteString(w) + (WriteInt64(beat) + tail)) == Panicked
    ensures DecodeWorker(WriteString(w) + (WriteInt64(beat) + (WriteList(ids) + tail))) == Panicked
  {
    Int32Reads(tail);
    LenientReads(tail);
    hide WriteString, WriteInt64, WriteList, LenientString, Word32, LenientStrings, ReadInt32, ReadInt64;
    LenientStringRoundTrip(w, WriteInt64(beat) + tail);
    Int64RoundTrip(beat, tail);
    LenientStringRoundTrip(w, WriteInt64(beat) + (WriteList(ids) + tail));
    Int64RoundTrip(beat, WriteList(ids) + tail);
    assert LenientList(tail).None?;
    hide LenientList;
    LenientListRoundTrip(ids, tail);
  }

  /** In a worker record cut short every field that is not complete reads as zero or empty. */
  lemma TruncatedWorker(r: WorkerRecord, cut: Bytes)
    requires WorkerSized(r) && |cut| < 4
    ensures DecodeWorker(cut) == Record(WorkerRecord([], 0, [], [], 0))
    ensures var b := WriteString(r.workerId) + (WriteInt64(r.lastHeartbeat) + cut);
            DecodeWorker(b) == Record(WorkerRecord(r.workerId, r.lastHeartbeat, [], [], 0))
    ensures var b := WriteString(r.workerId) + (WriteInt64(r.lastHeartbeat) + (WriteList(r.runningTaskIds) + cut));
            DecodeWorker(b) == Record(r.(queuedTaskIds := [], lastUpdated := 0))
    ensures var b := WriteString(r.workerId) + (WriteInt64(r.lastHeartbeat) + (WriteList(r.runningTaskIds) +
                     (WriteList(r.queuedTaskIds) + cut)));
            DecodeWorker(b) == Record(r.(lastUpdated := 0))
  {
    LenientReads(cut);
    assert LenientList(cut) == Some(([], [])) && LenientList([]) == Some(([], []));
    assert Int64OrZero(cut) == (0, []) && Int64OrZero([]) == (0, []);
    hide WriteString, WriteInt64, WriteList, LenientString, LenientList, ReadInt64;
    var p, q := WriteList(r.runningTaskIds), WriteList(r.queuedTaskIds);
    LenientListRoundTrip(r.runningTaskIds, cut);
    LenientListRoundTrip(r.runningTaskIds, q + cut);
    LenientListRoundTrip(r.queuedTaskIds, cut);
    hide Small;
    StartsWorker(r, cut);
    StartsWorker(r, p + cut);
    StartsWorker(r, p + (q + cut));
  }

  lemma StartsWorker(r: WorkerRecord, rest: Bytes)
    requires Small(r.workerId)
    ensures LenientString(WriteString(r.workerId) + (WriteInt64(r.lastHeartbeat) + rest)) ==
            Some((r.workerId, WriteInt64(r.lastHeartbeat) + rest))
    ensures Int64OrZero(WriteInt64(r.lastHeartbeat) + rest) == (r.lastHeartbeat, rest)
  {
    hide WriteString, WriteInt64, LenientString, ReadInt64;
    LenientStringRoundTrip(r.workerId, WriteInt64(r.lastHeartbeat) + rest);
    Int64RoundTrip(r.lastHeartbeat, rest);
  }
}
