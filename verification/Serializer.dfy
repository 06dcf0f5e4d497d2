/** libtrpc's stack serializer: values are pushed on a growing byte buffer and popped in reverse order. */
module Serializer {
  import opened Basics
  import opened Divisibility

  type byte = x: nat | x < 256

  const INITIAL_SIZE: nat := 32

  // ---- network byte order ----

  function Pow256(w: nat): (r: nat)
    ensures r >= 1
  {
    if w == 0 then 1 else 256 * Pow256(w - 1)
  }

  function BigEndian(x: nat, w: nat): (r: seq<byte>)
    ensures |r| == w
  {
    if w == 0 then [] else BigEndian(x / 256, w - 1) + [x % 256]
  }

  function FromBigEndian(s: seq<byte>): nat {
    if s == [] then 0 else FromBigEndian(s[..|s| - 1]) * 256 + s[|s| - 1]
  }

  /** Network order: the i-th byte has weight 256^(w-1-i). */
  lemma {:induction false} BigEndianAt(x: nat, w: nat, i: nat)
    requires i < w
    ensures BigEndian(x, w)[i] == x / Pow256(w - 1 - i) % 256
  {
    if i < w - 1 {
      BigEndianAt(x / 256, w - 1, i);
      DivTwice(x, Pow256(w - 2 - i));
    }
  }

  lemma DivTwice(x: nat, p: nat)
    requires p > 0
    ensures x / 256 / p == x / (256 * p)
  {
    var q := x / 256 / p;
    var r := x / 256 % p;
    assert x / 256 == q * p + r;
    assert x == (q * p + r) * 256 + x % 256;
    assert (q * p + r) * 256 == q * (256 * p) + r * 256;
    DivUnique(x, q, r * 256 + x % 256, 256 * p);
  }

  lemma {:induction false} BigEndianRoundTrip(x: nat, w: nat)
    requires x < Pow256(w)
    ensures FromBigEndian(BigEndian(x, w)) == x
  {
    if w > 0 {
      BigEndianRoundTrip(x / 256, w - 1);
      var r := BigEndian(x, w);
      assert r[..w - 1] == BigEndian(x / 256, w - 1);
    }
  }

  /** Two's complement bit pattern of a signed value of `w` bytes, and back. */
  function ToBits(v: int, w: nat): nat
    requires 0 <= 2 * v + Pow256(w) < 2 * Pow256(w)
  {
    if v < 0 then v + Pow256(w) else v
  }

  function FromBits(x: nat, w: nat): int {
    if 2 * x < Pow256(w) then x else x - Pow256(w)
  }

  /** Signed integers of every width survive: to bits, to network order and back. */
  lemma SignedRoundTrip(v: int, w: nat)
    requires 0 <= 2 * v + Pow256(w) < 2 * Pow256(w)
    ensures FromBits(FromBigEndian(BigEndian(ToBits(v, w), w)), w) == v
  {
    BigEndianRoundTrip(ToBits(v, w), w);
  }

  // ---- what a push leaves and a pop finds ----

  /** An integer of `w` bytes by its bit pattern, or a blob followed by its length (a string is a blob without NUL). */
  datatype Value = Int(w: nat, bits: nat) | Blob(bytes: seq<byte>)

  datatype Shape = IntShape(w: nat) | BlobShape

  predicate Encodable(v: Value) {
    match v
    case Int(w, bits) => bits < Pow256(w)
    case Blob(bytes) => |bytes| < Pow256(4)
  }

  function ShapeOf(v: Value): Shape {
    match v
    case Int(w, _) => IntShape(w)
    case Blob(_) => BlobShape
  }

  function Push(c: seq<byte>, v: Value): seq<byte> {
    match v
    case Int(w, bits) => c + BigEndian(bits, w)
    case Blob(bytes) => c + bytes + BigEndian(|bytes|, 4)
  }

  /** Outcome of a pop: the value if any, and the bytes left below the new position. */
  datatype Popped = Popped(value: Option<Value>, rest: seq<byte>)

  function PopInt(c: seq<byte>, w: nat): Popped {
    if |c| < w then Popped(None, c)
    else Popped(Some(Int(w, FromBigEndian(c[|c| - w..]))), c[..|c| - w])
  }

  /** A length word that asks for more than there is fails the pop after it has itself been consumed. */
  function PopBlob(c: seq<byte>): Popped {
    if |c| < 4 then Popped(None, c)
    else
      var n, below := FromBigEndian(c[|c| - 4..]), c[..|c| - 4];
      if |below| < n then Popped(None, below)
      else Popped(Some(Blob(below[|below| - n..])), below[..|below| - n])
  }

  function Pop(c: seq<byte>, shape: Shape): Popped {
    match shape
    case IntShape(w) => PopInt(c, w)
    case BlobShape => PopBlob(c)
  }

  lemma PopPushedInt(c: seq<byte>, w: nat, bits: nat)
    requires bits < Pow256(w)
    ensures PopInt(c + BigEndian(bits, w), w) == Popped(Some(Int(w, bits)), c)
  {
    var all := c + BigEndian(bits, w);
    BigEndianRoundTrip(bits, w);
    assert all[|all| - w..] == BigEndian(bits, w);
    assert all[..|all| - w] == c;
  }

  lemma PopPushedBlob(c: seq<byte>, bytes: seq<byte>)
    requires |bytes| < Pow256(4)
    ensures PopBlob(c + bytes + BigEndian(|bytes|, 4)) == Popped(Some(Blob(bytes)), c)
  {
    PopPushedInt(c + bytes, 4, |bytes|);
    var below := c + bytes;
    assert below[|c|..] == bytes && below[..|c|] == c;
  }

  /** Popping right after pushing returns the value and restores every byte below. */
  lemma PopAfterPush(c: seq<byte>, v: Value)
    requires Encodable(v)
    ensures Pop(Push(c, v), ShapeOf(v)) == Popped(Some(v), c)
  {
    match v
    case Int(w, bits) => PopPushedInt(c, w, bits);
    case Blob(bytes) => PopPushedBlob(c, bytes);
  }

  function PushAll(c: seq<byte>, vs: seq<Value>): seq<byte>
    decreases |vs|
  {
    if vs == [] then c else PushAll(Push(c, vs[0]), vs[1..])
  }

  /** Pops one value per shape, the last shape first; the values come out in the order of the shapes. */
  function PopAll(c: seq<byte>, shapes: seq<Shape>): (r: (seq<Option<Value>>, seq<byte>))
    ensures |r.0| == |shapes|
    decreases |shapes|
  {
    if shapes == [] then ([], c)
    else
      var later := PopAll(c, shapes[1..]);
      var p := Pop(later.1, shapes[0]);
      ([p.value] + later.0, p.rest)
  }

  function Shapes(vs: seq<Value>): (r: seq<Shape>)
    ensures |r| == |vs| && forall i :: 0 <= i < |vs| ==> r[i] == ShapeOf(vs[i])
  {
    seq(|vs|, i requires 0 <= i < |vs| => ShapeOf(vs[i]))
  }

  /** Any sequence of pushes is undone by popping it in reverse, down to the bytes it was pushed on. */
  lemma {:induction false} StackRoundTrip(c: seq<byte>, vs: seq<Value>)
    requires forall i :: 0 <= i < |vs| ==> Encodable(vs[i])
    ensures PopAll(PushAll(c, vs), Shapes(vs)).1 == c
    ensures forall i :: 0 <= i < |vs| ==> PopAll(PushAll(c, vs), Shapes(vs)).0[i] == Some(vs[i])
    decreases |vs|
  {
    if vs != [] {
      StackRoundTrip(Push(c, vs[0]), vs[1..]);
      PopAfterPush(c, vs[0]);
      assert Shapes(vs)[1..] == Shapes(vs[1..]);
      assert Shapes(vs)[0] == ShapeOf(vs[0]);
    }
  }

  // ---- a whole sched_info ----

  /** `name` is the string without its terminator. */
  datatype TaskInfo = TaskInfo(pid: nat, name: seq<byte>, period: nat, releaseTime: nat)

  datatype SchedInfo = SchedInfo(
    containerId: seq<byte>, rtRuntime: nat, rtPeriod: nat, cpumask: nat,
    containerPeriod: nat, podPeriod: nat, nrTasks: nat, tasks: seq<TaskInfo>)

  predicate TaskInRange(t: TaskInfo) {
    t.pid < Pow256(4) && t.period < Pow256(4) && t.releaseTime < Pow256(4) && |t.name| < Pow256(4)
  }

  predicate HeaderInRange(s: SchedInfo) {
    && |s.containerId| < Pow256(4) && s.rtRuntime < Pow256(4) && s.rtPeriod < Pow256(4) && s.cpumask < Pow256(8)
    && s.containerPeriod < Pow256(4) && s.podPeriod < Pow256(4) && s.nrTasks < Pow256(4)
  }

  predicate InRange(s: SchedInfo) {
    HeaderInRange(s) && forall t :: t in s.tasks ==> TaskInRange(t)
  }

  function PushTask(c: seq<byte>, t: TaskInfo): seq<byte> {
    Push(Push(Push(Push(c, Int(4, t.pid)), Blob(t.name)), Int(4, t.period)), Int(4, t.releaseTime))
  }

  function PushTasks(c: seq<byte>, ts: seq<TaskInfo>): seq<byte> {
    if ts == [] then c else PushTask(PushTasks(c, ts[..|ts| - 1]), ts[|ts| - 1])
  }

  function PushHeader(c: seq<byte>, s: SchedInfo): seq<byte> {
    var c3 := Push(Push(Push(c, Blob(s.containerId)), Int(4, s.rtRuntime)), Int(4, s.rtPeriod));
    var c5 := Push(Push(c3, Int(8, s.cpumask)), Int(4, s.containerPeriod));
    Push(Push(c5, Int(4, s.podPeriod)), Int(4, s.nrTasks))
  }

  /** The reader ignores failed pops: a field keeps what it held. */
  function IntOr(p: Popped, was: nat): nat {
    match p.value case Some(Int(_, bits)) => bits case _ => was
  }

  function BlobOr(p: Popped, was: seq<byte>): seq<byte> {
    match p.value case Some(Blob(bytes)) => bytes case _ => was
  }

  function PopTask(c: seq<byte>, was: TaskInfo): (TaskInfo, seq<byte>) {
    var p1 := PopInt(c, 4);
    var p2 := PopInt(p1.rest, 4);
    var p3 := PopBlob(p2.rest);
    var p4 := PopInt(p3.rest, 4);
    (TaskInfo(IntOr(p4, was.pid), BlobOr(p3, was.name), IntOr(p2, was.period), IntOr(p1, was.releaseTime)), p4.rest)
  }

  /** Pops `n` tasks, each put in front of those already there. */
  function PopTasks(c: seq<byte>, n: nat, tasks: seq<TaskInfo>, was: TaskInfo): (r: (seq<TaskInfo>, seq<byte>))
    ensures |r.0| == n + |tasks|
    decreases n
  {
    if n == 0 then (tasks, c)
    else
      var t := PopTask(c, was);
      PopTasks(t.1, n - 1, [t.0] + tasks, was)
  }

  function PopHeader(c: seq<byte>, was: SchedInfo): (SchedInfo, seq<byte>) {
    var p1 := PopInt(c, 4);
    var p2 := PopInt(p1.rest, 4);
    var p3 := PopInt(p2.rest, 4);
    var p4 := PopInt(p3.rest, 8);
    var p5 := PopInt(p4.rest, 4);
    var p6 := PopInt(p5.rest, 4);
    var p7 := PopBlob(p6.rest);
    (SchedInfo(BlobOr(p7, was.containerId), IntOr(p6, was.rtRuntime), IntOr(p5, was.rtPeriod), IntOr(p4, was.cpumask),
               IntOr(p3, was.containerPeriod), IntOr(p2, was.podPeriod), IntOr(p1, was.nrTasks), []), p7.rest)
  }

  /** What the writer sends and what the reader makes of any bytes. */
  function PushInfo(c: seq<byte>, s: SchedInfo): seq<byte> {
    PushHeader(PushTasks(c, s.tasks), s)
  }

  function PopInfo(c: seq<byte>, was: SchedInfo, wasTask: TaskInfo): (r: (SchedInfo, seq<byte>))
    ensures |r.0.tasks| == r.0.nrTasks
  {
    var h := PopHeader(c, was);
    var ts := PopTasks(h.1, h.0.nrTasks, [], wasTask);
    (h.0.(tasks := ts.0), ts.1)
  }

  lemma TaskRoundTrip(c: seq<byte>, t: TaskInfo, was: TaskInfo)
    requires TaskInRange(t)
    ensures PopTask(PushTask(c, t), was) == (t, c)
  {
    var c1 := Push(c, Int(4, t.pid));
    var c2 := Push(c1, Blob(t.name));
    var c3 := Push(c2, Int(4, t.period));
    PopPushedInt(c3, 4, t.releaseTime);
    PopPushedInt(c2, 4, t.period);
    PopPushedBlob(c1, t.name);
    PopPushedInt(c, 4, t.pid);
  }

  lemma HeaderRoundTrip(c: seq<byte>, s: SchedInfo, was: SchedInfo)
    requires HeaderInRange(s)
    ensures PopHeader(PushHeader(c, s), was) == (s.(tasks := []), c)
  {
    var c1 := Push(c, Blob(s.containerId));
    var c2 := Push(c1, Int(4, s.rtRuntime));
    var c3 := Push(c2, Int(4, s.rtPeriod));
    var c4 := Push(c3, Int(8, s.cpumask));
    var c5 := Push(c4, Int(4, s.containerPeriod));
    var c6 := Push(c5, Int(4, s.podPeriod));
    PopPushedInt(c6, 4, s.nrTasks);
    PopPushedInt(c5, 4, s.podPeriod);
    PopPushedInt(c4, 4, s.containerPeriod);
    PopPushedInt(c3, 8, s.cpumask);
    PopPushedInt(c2, 4, s.rtPeriod);
    PopPushedInt(c1, 4, s.rtRuntime);
    PopPushedBlob(c, s.containerId);
  }

  lemma PopNext(below: seq<byte>, t: TaskInfo, n: nat, tasks: seq<TaskInfo>, was: TaskInfo)
    requires TaskInRange(t)
    ensures PopTasks(PushTask(below, t), n + 1, tasks, was) == PopTasks(below, n, [t] + tasks, was)
  {
    TaskRoundTrip(below, t, was);
  }

  lemma MoveLast<T>(s: seq<T>, t: seq<T>)
    requires s != []
    ensures s[..|s| - 1] + ([s[|s| - 1]] + t) == s + t
  {
  }

  lemma {:induction false} TasksRoundTrip(c: seq<byte>, ts: seq<TaskInfo>, tasks: seq<TaskInfo>, was: TaskInfo)
    requires forall t :: t in ts ==> TaskInRange(t)
    ensures PopTasks(PushTasks(c, ts), |ts|, tasks, was) == (ts + tasks, c)
    decreases |ts|
  {
    if ts == [] {
      assert ts + tasks == tasks;
    } else {
      var init, last := ts[..|ts| - 1], ts[|ts| - 1];
      PopNext(PushTasks(c, init), last, |init|, tasks, was);
      TasksRoundTrip(c, init, [last] + tasks, was);
      MoveLast(ts, tasks);
    }
  }

  /** The task list arrives whole and in its order exactly when the announced count is its length. */
  lemma InfoRoundTripIff(c: seq<byte>, s: SchedInfo, was: SchedInfo, wasTask: TaskInfo)
    requires InRange(s)
    ensures PopInfo(PushInfo(c, s), was, wasTask) == (s, c) <==> s.nrTasks == |s.tasks|
  {
    HeaderRoundTrip(PushTasks(c, s.tasks), s, was);
    if s.nrTasks == |s.tasks| {
      TasksRoundTrip(c, s.tasks, [], wasTask);
      assert s.tasks + [] == s.tasks;
    }
  }

  // ---- the buffer ----

  class SerialBuf {
    var data: array<byte>
    var pos: nat

    ghost predicate Valid()
      reads this
    {
      pos <= data.Length
    }

    /** The bytes below the position. */
    ghost function Contents(): seq<byte>
      reads this, data
      requires Valid()
    {
      data[..pos]
    }

    constructor (size: nat)
      ensures Valid() && Contents() == [] && fresh(data)
      ensures data.Length == if size == 0 then INITIAL_SIZE else size
    {
      data := new byte[if size == 0 then INITIAL_SIZE else size](_ => 0);
      pos := 0;
    }

    /** A buffer over received bytes, positioned at their end. */
    constructor FromBytes(bytes: array<byte>)
      ensures Valid() && data == bytes && Contents() == bytes[..]
    {
      data := bytes;
      pos := bytes.Length;
    }

    /** Doubles the storage, and adds the request when that is not enough; `memory` is whether realloc succeeds. */
    method ReserveSpace(bytes: nat, memory: bool) returns (ok: bool)
      requires Valid()
      modifies this`data
      ensures Valid() && Contents() == old(Contents()) && (data == old(data) || fresh(data))
      ensures ok ==> pos + bytes <= data.Length
      ensures !ok <==> old(pos + bytes > data.Length) && !memory
    {
      if pos + bytes > data.Length {
        var newSize := data.Length * 2;
        if pos + bytes > newSize {
          newSize := newSize + bytes;
        }
        if !memory {
          return false;
        }
        var grown := Grow(data, newSize);
        assert grown[..pos] == data[..pos];
        data := grown;
      }
      ok := true;
    }

    method Append(bytes: seq<byte>)
      requires Valid() && pos + |bytes| <= data.Length
      modifies this`pos, data
      ensures Valid() && data == old(data) && Contents() == old(Contents()) + bytes
    {
      var start := pos;
      for i := 0 to |bytes|
        invariant pos == start && data == old(data)
        invariant forall k :: 0 <= k < start ==> data[k] == old(data[k])
        invariant forall k :: 0 <= k < i ==> data[start + k] == bytes[k]
      {
        data[start + i] := bytes[i];
      }
      pos := start + |bytes|;
      assert data[..pos] == old(data[..pos]) + bytes;
    }

    method WriteInt(w: nat, bits: nat, memory: bool) returns (ok: bool)
      requires Valid() && Encodable(Int(w, bits))
      modifies this, data
      ensures Valid() && (data == old(data) || fresh(data))
      ensures memory ==> ok
      ensures Contents() == if ok then Push(old(Contents()), Int(w, bits)) else old(Contents())
    {
      ok := ReserveSpace(w, memory);
      if ok {
        Append(BigEndian(bits, w));
      }
    }

    method WriteBlob(bytes: seq<byte>, memory: bool) returns (ok: bool)
      requires Valid() && Encodable(Blob(bytes))
      modifies this, data
      ensures Valid() && (data == old(data) || fresh(data))
      ensures memory ==> ok
      ensures Contents() == if ok then Push(old(Contents()), Blob(bytes)) else old(Contents())
    {
      ok := ReserveSpace(|bytes| + 4, memory);
      if ok {
        Append(bytes);
        Append(BigEndian(|bytes|, 4));
      }
    }

    method ReadInt(w: nat, was: nat) returns (ok: bool, v: nat)
      requires Valid()
      modifies this`pos
      ensures Valid() && data == old(data) && data[..] == old(data[..])
      ensures var p := PopInt(old(Contents()), w);
              Contents() == p.rest && ok == p.value.Some? && v == IntOr(p, was)
    {
      if pos < w {
        return false, was;
      }
      ghost var c := data[..pos];
      pos := pos - w;
      assert data[..pos] == c[..|c| - w];
      assert data[pos..pos + w] == c[|c| - w..];
      return true, FromBigEndian(data[pos..pos + w]);
    }

    method ReadBlob(was: seq<byte>) returns (ok: bool, v: seq<byte>)
      requires Valid()
      modifies this`pos
      ensures Valid() && data == old(data) && data[..] == old(data[..])
      ensures var p := PopBlob(old(Contents()));
              Contents() == p.rest && ok == p.value.Some? && v == BlobOr(p, was)
    {
      if pos < 4 {
        return false, was;
      }
      ghost var c := data[..pos];
      pos := pos - 4;
      ghost var below := c[..|c| - 4];
      assert data[..pos] == below;
      assert data[pos..pos + 4] == c[|c| - 4..];
      var n := FromBigEndian(data[pos..pos + 4]);
      if pos < n {
        return false, was;
      }
      pos := pos - n;
      assert data[..pos] == below[..|below| - n];
      assert data[pos..pos + n] == below[|below| - n..];
      return true, data[pos..pos + n];
    }
  }

  /** realloc: a larger block with the old bytes in front. */
  method Grow(data: array<byte>, size: nat) returns (grown: array<byte>)
    requires data.Length <= size
    ensures fresh(grown) && grown.Length == size && grown[..data.Length] == data[..]
  {
    grown := new byte[size](_ => 0);
    for i := 0 to data.Length
      invariant forall k :: 0 <= k < i ==> grown[k] == data[k]
    {
      grown[i] := data[i];
    }
  }

  method WriteTask(b: SerialBuf, t: TaskInfo)
    requires b.Valid() && TaskInRange(t)
    modifies b, b.data
    ensures b.Valid() && (b.data == old(b.data) || fresh(b.data))
    ensures b.Contents() == PushTask(old(b.Contents()), t)
  {
    var _ := b.WriteInt(4, t.pid, true);
    var _ := b.WriteBlob(t.name, true);
    var _ := b.WriteInt(4, t.period, true);
    var _ := b.WriteInt(4, t.releaseTime, true);
  }

  method WriteHeader(b: SerialBuf, s: SchedInfo)
    requires b.Valid() && HeaderInRange(s)
    modifies b, b.data
    ensures b.Valid() && (b.data == old(b.data) || fresh(b.data))
    ensures b.Contents() == PushHeader(old(b.Contents()), s)
  {
    var _ := b.WriteBlob(s.containerId, true);
    var _ := b.WriteInt(4, s.rtRuntime, true);
    var _ := b.WriteInt(4, s.rtPeriod, true);
    var _ := b.WriteInt(8, s.cpumask, true);
    var _ := b.WriteInt(4, s.containerPeriod, true);
    var _ := b.WriteInt(4, s.podPeriod, true);
    var _ := b.WriteInt(4, s.nrTasks, true);
  }

  method WriteTasks(b: SerialBuf, ts: seq<TaskInfo>)
    requires b.Valid() && forall t :: t in ts ==> TaskInRange(t)
    modifies b, b.data
    ensures b.Valid() && (b.data == old(b.data) || fresh(b.data))
    ensures b.Contents() == PushTasks(old(b.Contents()), ts)
  {
    ghost var c := b.Contents();
    assert ts[..0] == [];
    for i := 0 to |ts|
      invariant b.Valid() && (b.data == old(b.data) || fresh(b.data))
      invariant b.Contents() == PushTasks(c, ts[..i])
    {
      WriteTask(b, ts[i]);
      PushedLast(c, ts, i);
    }
    assert ts[..|ts|] == ts;
  }

  lemma PushedLast(c: seq<byte>, ts: seq<TaskInfo>, k: nat)
    requires k < |ts|
    ensures PushTasks(c, ts[..k + 1]) == PushTask(PushTasks(c, ts[..k]), ts[k])
  {
    assert ts[..k + 1][..k] == ts[..k];
  }

  /** The server: every task in list order, then the header. */
  method SerializeSchedInfo(s: SchedInfo) returns (b: SerialBuf)
    requires InRange(s)
    ensures fresh(b) && fresh(b.data) && b.Valid() && b.Contents() == PushInfo([], s)
  {
    b := new SerialBuf(256);
    WriteTasks(b, s.tasks);
    WriteHeader(b, s);
  }

  method ReadTask(b: SerialBuf, was: TaskInfo) returns (t: TaskInfo)
    requires b.Valid()
    modifies b`pos
    ensures b.Valid() && b.data == old(b.data) && b.data[..] == old(b.data[..])
    ensures (t, b.Contents()) == PopTask(old(b.Contents()), was)
  {
    var _, releaseTime := b.ReadInt(4, was.releaseTime);
    var _, period := b.ReadInt(4, was.period);
    var _, name := b.ReadBlob(was.name);
    var _, pid := b.ReadInt(4, was.pid);
    t := TaskInfo(pid, name, period, releaseTime);
  }

  method ReadTasks(b: SerialBuf, n: nat, was: TaskInfo) returns (tasks: seq<TaskInfo>)
    requires b.Valid()
    modifies b`pos
    ensures b.Valid() && (tasks, b.Contents()) == PopTasks(old(b.Contents()), n, [], was)
  {
    ghost var c := b.Contents();
    tasks := [];
    for i := 0 to n
      invariant b.Valid() && PopTasks(b.Contents(), n - i, tasks, was) == PopTasks(c, n, [], was)
    {
      var t := ReadTask(b, was);
      tasks := [t] + tasks;
    }
  }

  method ReadHeader(b: SerialBuf, was: SchedInfo) returns (s: SchedInfo)
    requires b.Valid()
    modifies b`pos
    ensures b.Valid() && b.data == old(b.data) && b.data[..] == old(b.data[..])
    ensures (s, b.Contents()) == PopHeader(old(b.Contents()), was)
  {
    var _, nrTasks := b.ReadInt(4, was.nrTasks);
    var _, podPeriod := b.ReadInt(4, was.podPeriod);
    var _, containerPeriod := b.ReadInt(4, was.containerPeriod);
    var _, cpumask := b.ReadInt(8, was.cpumask);
    var _, rtPeriod := b.ReadInt(4, was.rtPeriod);
    var _, rtRuntime := b.ReadInt(4, was.rtRuntime);
    var _, containerId := b.ReadBlob(was.containerId);
    s := SchedInfo(containerId, rtRuntime, rtPeriod, cpumask, containerPeriod, podPeriod, nrTasks, []);
  }

  /** The client: the header, then as many tasks as it announces, each put in front of the list. */
  method DeserializeSchedInfo(b: SerialBuf, was: SchedInfo, wasTask: TaskInfo) returns (s: SchedInfo)
    requires b.Valid()
    modifies b`pos
    ensures b.Valid() && (s, b.Contents()) == PopInfo(old(b.Contents()), was, wasTask)
  {
    s := ReadHeader(b, was);
    var tasks := ReadTasks(b, s.nrTasks, wasTask);
    s := s.(tasks := tasks);
  }
}
