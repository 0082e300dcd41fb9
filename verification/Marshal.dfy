/** The program's writers and readers (internal/store/serialization.go): a buffer
    that grows field by field, and a cursor over the encoded bytes. */
module Marshalling {
  import opened Types
  import opened Codec
  import opened Layouts

  /** A cursor over the encoded bytes. */
  class Reader {
    const data: Bytes
    var pos: nat

    constructor (data: Bytes)
      ensures this.data == data && pos == 0
    {
      this.data, pos := data, 0;
    }

    ghost predicate Valid()
      reads this
    {
      pos <= |data|
    }

    ghost function Remaining(): Bytes
      requires Valid()
      reads this
    {
      data[pos..]
    }

    method Int32() returns (value: int32, ok: bool)
      requires Valid()
      modifies this
      ensures Valid()
      ensures var r := ReadInt32(old(Remaining()));
              ok == r.Got? && Remaining() == r.rest && value == if ok then r.value else 0
      ensures !ok ==> Remaining() == []
    {
      if |data| - pos < 4 {
        value, ok, pos := 0, false, |data|;
      } else {
        UnsignedBound(data[pos..pos + 4]);
        Widths();
        assert data[pos..][..4] == data[pos..pos + 4] && data[pos..][4..] == data[pos + 4..];
        value, ok, pos := Signed32(Unsigned(data[pos..pos + 4])), true, pos + 4;
      }
    }

    method Int64() returns (value: int64, ok: bool)
      requires Valid()
      modifies this
      ensures Valid()
      ensures var r := ReadInt64(old(Remaining()));
              ok == r.Got? && Remaining() == r.rest && value == if ok then r.value else 0
      ensures !ok ==> Remaining() == []
    {
      if |data| - pos < 8 {
        value, ok, pos := 0, false, |data|;
      } else {
        UnsignedBound(data[pos..pos + 8]);
        Widths();
        assert data[pos..][..8] == data[pos..pos + 8] && data[pos..][8..] == data[pos + 8..];
        value, ok, pos := Signed64(Unsigned(data[pos..pos + 8])), true, pos + 8;
      }
    }

    /** Copies what is left into a zeroed slice of length `n`. */
    method Slice(n: nat) returns (b: Bytes)
      requires Valid()
      modifies this
      ensures Valid() && (b, Remaining()) == Fill(old(Remaining()), n)
    {
      var k := if n <= |data| - pos then n else |data| - pos;
      b := data[pos..pos + k] + Zeros(n - k);
      if n <= |data| - pos {
        assert data[pos..][..n] == data[pos..pos + n] && data[pos..][n..] == data[pos + n..];
        assert b == data[pos..pos + n];
      } else {
        assert data[pos..pos + k] == data[pos..] && data[pos + k..] == [];
      }
      pos := pos + k;
    }

    method String() returns (r: Read<Bytes>)
      requires Valid()
      modifies this
      ensures Valid()
      ensures r == ReadString(old(Remaining()))
      ensures !r.Panic? ==> Remaining() == r.rest
    {
      var l, ok := Int32();
      if !ok {
        return Eof([]);
      }
      if l < 0 {
        return Panic;
      }
      if pos >= |data| {
        return Eof([]);
      }
      var b := Slice(l);
      r := Got(b, data[pos..]);
    }

    /** A string whose read errors are ignored. */
    method StringOrZeros() returns (b: Option<Bytes>)
      requires Valid()
      modifies this
      ensures Valid()
      ensures var r := LenientString(old(Remaining()));
              b.None? == r.None? && (b.Some? ==> (b.value, Remaining()) == r.value)
    {
      var l, _ := Int32();
      if l < 0 {
        return None;
      }
      var s := Slice(l);
      b := Some(s);
    }

    /** A counted list whose read errors are ignored. */
    method ListOrZeros() returns (ids: Option<seq<Bytes>>)
      requires Valid()
      modifies this
      ensures Valid()
      ensures var r := LenientList(old(Remaining()));
              ids.None? == r.None? && (ids.Some? ==> (ids.value, Remaining()) == r.value)
    {
      var n, _ := Int32();
      if n < 0 {
        return None;
      }
      ghost var input := Remaining();
      var got: seq<Bytes> := [];
      var i := 0;
      assert forall t: seq<Bytes> :: got + t == t;
      while i < n
        invariant 0 <= i <= n && Valid()
        invariant var rest := LenientStrings(Remaining(), n - i);
                  LenientStrings(input, n) == if rest.None? then None else Some((got + rest.value.0, rest.value.1))
      {
        ghost var soFar := got;
        var s := StringOrZeros();
        if s.None? {
          return None;
        }
        got := got + [s.value];
        i := i + 1;
        assert forall t: seq<Bytes> :: soFar + ([s.value] + t) == got + t;
      }
      assert got + [] == got;
      ids := Some(got);
    }

    /** Up to `n` strings, as far as the input goes. */
    method Strings(n: nat) returns (ids: Option<seq<Bytes>>)
      requires Valid()
      modifies this
      ensures Valid()
      ensures ids == ReadStrings(old(Remaining()), n)
    {
      ghost var input := Remaining();
      var got: seq<Bytes> := [];
      var i := 0;
      assert forall t: seq<Bytes> :: got + t == t;
      while i < n
        invariant 0 <= i <= n && Valid()
        invariant var rest := ReadStrings(Remaining(), n - i);
                  ReadStrings(input, n) == if rest.None? then None else Some(got + rest.value)
      {
        ghost var before, soFar := Remaining(), got;
        var s := String();
        if s.Panic? {
          return None;
        }
        if s.Eof? {
          assert got + [] == got;
          return Some(got);
        }
        got := got + [s.value];
        i := i + 1;
        assert forall t: seq<Bytes> :: soFar + ([s.value] + t) == got + t;
      }
      assert got + [] == got;
      ids := Some(got);
    }
  }

  /** Appends length-prefixed ids to a buffer. */
  method AppendStrings(head: Bytes, ids: seq<Bytes>) returns (buf: Bytes)
    ensures buf == head + WriteStrings(ids)
  {
    hide WriteString;
    buf := head;
    for i := 0 to |ids|
      invariant buf == head + WriteStrings(ids[..i])
    {
      assert ids[..i + 1][..i] == ids[..i];
      Assoc(head, WriteStrings(ids[..i]), WriteString(ids[i]));
      buf := buf + WriteString(ids[i]);
    }
    assert ids[..|ids|] == ids;
  }

  method MarshalTaskRecord(r: TaskStateRecord) returns (buf: Bytes)
    ensures buf == EncodeTask(r) && TaskLaidOut(buf, r)
  {
    hide WriteString, WriteInt32, WriteInt64;
    buf := WriteString(r.taskId);
    buf := buf + WriteString(r.workflowId);
    buf := buf + WriteInt32(r.state);
    buf := buf + WriteString(r.executionId);
    buf := buf + WriteInt32(r.attemptCount);
    buf := buf + WriteInt64(r.lastUpdated);
    buf := buf + WriteString(r.output);
    buf := buf + WriteString(r.error);
    buf := buf + WriteInt32(r.inDegree);
    assert buf == EncodeHead(r);
    buf := buf + WriteInt32(Wrap32(|r.downstream|));
    buf := AppendStrings(buf, r.downstream);
    hide TaskLaidOut, EncodeTask;
    TaskLayout(buf, r);
  }

  method UnmarshalTaskRecord(data: Bytes) returns (d: Decoded<TaskStateRecord>)
    ensures d == DecodeTask(data)
    ensures forall r | Sized(r) && TaskLaidOut(data, r) ::
              d == Record(if r.downstream != [] && r.downstream[|r.downstream| - 1] == []
                          then r.(downstream := r.downstream[..|r.downstream| - 1]) else r)
  {
    hide ReadString, ReadInt32, ReadInt64, ReadStrings;
    forall r | Sized(r) && TaskLaidOut(data, r)
      ensures DecodeTask(data) == Record(if r.downstream != [] && r.downstream[|r.downstream| - 1] == []
                                         then r.(downstream := r.downstream[..|r.downstream| - 1]) else r)
    {
      TaskLayout(data, r);
      TaskRoundTrip(r);
    }
    hide TaskLaidOut, EncodeTask;
    var buf := new Reader(data);
    assert buf.Remaining() == data;
    hide Reader.Remaining, Reader.Valid;
    var r1 := buf.String();
    if !r1.Got? { return if r1.Panic? then Panicked else Malformed; }
    var r2 := buf.String();
    if !r2.Got? { return if r2.Panic? then Panicked else Malformed; }
    var state, ok3 := buf.Int32();
    if !ok3 { return Malformed; }
    var r4 := buf.String();
    if !r4.Got? { return if r4.Panic? then Panicked else Malformed; }
    d := UnmarshalRest(buf, r1.value, r2.value, state, r4.value);
  }

  method UnmarshalRest(buf: Reader, taskId: Bytes, workflowId: Bytes, state: int32, executionId: Bytes)
    returns (d: Decoded<TaskStateRecord>)
    requires buf.Valid()
    modifies buf
    ensures d == DecodeRest(taskId, workflowId, state, executionId, old(buf.Remaining()))
  {
    hide ReadString, ReadInt32, ReadInt64, ReadStrings, Reader.Remaining, Reader.Valid;
    var attemptCount, ok5 := buf.Int32();
    if !ok5 { return Malformed; }
    var lastUpdated, ok6 := buf.Int64();
    if !ok6 { return Malformed; }
    var r7 := buf.String();
    if !r7.Got? { return if r7.Panic? then Panicked else Malformed; }
    var r8 := buf.String();
    if !r8.Got? { return if r8.Panic? then Panicked else Malformed; }
    var inDegree, ok9 := buf.Int32();
    if !ok9 { return Malformed; }
    var ids: Option<seq<Bytes>> := Some([]);
    var count, ok := buf.Int32();
    if ok {
      if count < 0 {
        return Panicked;
      }
      ids := buf.Strings(count);
      if ids.None? {
        return Panicked;
      }
    }
    d := Record(TaskStateRecord(taskId, workflowId, state, executionId, attemptCount, lastUpdated,
                                r7.value, r8.value, inDegree, ids.value));
  }

  method MarshalWorkflowState(r: WorkflowStateRecord) returns (buf: Bytes)
    ensures buf == EncodeWorkflow(r) && WorkflowLaidOut(buf, r)
  {
    hide WriteString, WriteInt32, WriteInt64;
    buf := WriteString(r.workflowId);
    buf := buf + WriteInt32(r.state);
    buf := buf + WriteInt64(r.submittedAtMs);
    buf := buf + WriteInt64(r.completedAtMs);
    hide WorkflowLaidOut;
    WorkflowLayout(buf, r);
  }

  method UnmarshalWorkflowState(data: Bytes) returns (d: Decoded<WorkflowStateRecord>)
    ensures d == DecodeWorkflow(data)
    ensures forall r: WorkflowStateRecord | Small(r.workflowId) && WorkflowLaidOut(data, r) :: d == Record(r)
  {
    forall r: WorkflowStateRecord | Small(r.workflowId) && WorkflowLaidOut(data, r)
      ensures DecodeWorkflow(data) == Record(r)
    {
      WorkflowLayout(data, r);
      WorkflowRoundTrip(r);
    }
    hide WorkflowLaidOut;
    hide ReadInt32, ReadInt64, LenientString;
    var buf := new Reader(data);
    assert buf.Remaining() == data;
    var id := buf.StringOrZeros();
    if id.None? {
      return Panicked;
    }
    var state, _ := buf.Int32();
    var submittedAt, _ := buf.Int64();
    var completedAt, _ := buf.Int64();
    d := Record(WorkflowStateRecord(id.value, state, submittedAt, completedAt));
  }

  method MarshalWorkerRecord(r: WorkerRecord) returns (buf: Bytes)
    ensures buf == EncodeWorker(r) && exists q: nat :: WorkerLaidOut(buf, r, q)
  {
    hide WriteString, WriteInt32, WriteInt64, WriteStrings;
    buf := WriteString(r.workerId);
    buf := buf + WriteInt64(r.lastHeartbeat);
    ghost var head := buf;
    buf := buf + WriteInt32(Wrap32(|r.runningTaskIds|));
    buf := AppendStrings(buf, r.runningTaskIds);
    Assoc(head, WriteInt32(Wrap32(|r.runningTaskIds|)), WriteStrings(r.runningTaskIds));
    head := buf;
    buf := buf + WriteInt32(Wrap32(|r.queuedTaskIds|));
    buf := AppendStrings(buf, r.queuedTaskIds);
    Assoc(head, WriteInt32(Wrap32(|r.queuedTaskIds|)), WriteStrings(r.queuedTaskIds));
    buf := buf + WriteInt64(r.lastUpdated);
    hide WorkerLaidOut;
    WorkerLayout(buf, r);
  }

  method UnmarshalWorkerRecord(data: Bytes) returns (d: Decoded<WorkerRecord>)
    ensures d == DecodeWorker(data)
    ensures forall r, q: nat | WorkerSized(r) && WorkerLaidOut(data, r, q) :: d == Record(r)
  {
    forall r, q: nat | WorkerSized(r) && WorkerLaidOut(data, r, q) ensures DecodeWorker(data) == Record(r) {
      WorkerLayout(data, r);
      WorkerRoundTrip(r);
    }
    hide WorkerLaidOut, WorkerSized;
    hide ReadInt64, LenientString, LenientList;
    var buf := new Reader(data);
    assert buf.Remaining() == data;
    var id := buf.StringOrZeros();
    if id.None? {
      return Panicked;
    }
    var beat, _ := buf.Int64();
    var running := buf.ListOrZeros();
    if running.None? {
      return Panicked;
    }
    var queued := buf.ListOrZeros();
    if queued.None? {
      return Panicked;
    }
    var updated, _ := buf.Int64();
    d := Record(WorkerRecord(id.value, beat, running.value, queued.value, updated));
  }
}
