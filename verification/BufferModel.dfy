// The storage of a Buffer as a value, every operation of the source on it, and
// what holds over arbitrary runs of those operations.
module BufferModel {
  import opened Codec
  import opened Syscalls

  const CHEAP_PREPEND: nat := 8
  const EXTRA_BUF: nat := 65536

  datatype Layout = Layout(bytes: seq<Byte>, reader: nat, writer: nat) {
    predicate Valid() {
      CHEAP_PREPEND <= |bytes| && reader <= writer <= |bytes|
    }
    function Content(): (q: seq<Byte>)
      requires Valid()
      ensures |q| == Readable()
    {
      bytes[reader..writer]
    }
    function Readable(): (n: nat) requires Valid() { writer - reader }
    function Writable(): (n: nat) requires Valid() { |bytes| - writer }
  }

  function Zeros(n: nat): (z: seq<Byte>)
    ensures |z| == n
  {
    seq(n, _ => 0)
  }

  function Fresh(initialSize: nat): (l: Layout)
    ensures l.Valid() && l.Content() == []
  {
    Layout(Zeros(CHEAP_PREPEND + initialSize), CHEAP_PREPEND, CHEAP_PREPEND)
  }

  predicate MustGrow(l: Layout, len: nat)
    requires l.Valid()
  {
    l.Writable() + l.reader < len + CHEAP_PREPEND
  }

  function MakeSpace(l: Layout, len: nat): (r: Layout)
    requires l.Valid() && l.Writable() < len
  {
    if MustGrow(l, len) then
      l.(bytes := l.bytes + Zeros(l.writer + len - |l.bytes|))
    else
      CompactRoom(l, len);
      var n := l.Readable();
      Layout(l.bytes[..CHEAP_PREPEND] + l.Content() + l.bytes[CHEAP_PREPEND + n..],
             CHEAP_PREPEND, CHEAP_PREPEND + n)
  }

  // The assertion at the head of makeSpace's compacting branch never fails.
  lemma CompactRoom(l: Layout, len: nat)
    requires l.Valid() && l.Writable() < len && !MustGrow(l, len)
    ensures CHEAP_PREPEND < l.reader
  {
  }

  function EnsureWritable(l: Layout, len: nat): (r: Layout)
    requires l.Valid()
  {
    if l.Writable() < len then MakeSpace(l, len) else l
  }

  function Append(l: Layout, data: seq<Byte>): (r: Layout)
    requires l.Valid()
  {
    EnsureWritableSpec(l, |data|);
    var e := EnsureWritable(l, |data|);
    e.(bytes := e.bytes[..e.writer] + data + e.bytes[e.writer + |data|..], writer := e.writer + |data|)
  }

  function Retrieve(l: Layout, n: nat): (r: Layout)
    requires l.Valid() && n <= l.Readable()
  {
    if n < l.Readable() then l.(reader := l.reader + n) else RetrieveAll(l)
  }

  function RetrieveAll(l: Layout): (r: Layout)
    requires l.Valid()
  {
    l.(reader := CHEAP_PREPEND, writer := CHEAP_PREPEND)
  }

  function Prepend(l: Layout, data: seq<Byte>): (r: Layout)
    requires l.Valid() && |data| <= l.reader
  {
    l.(bytes := l.bytes[..l.reader - |data|] + data + l.bytes[l.reader..], reader := l.reader - |data|)
  }

  // Room offered to readv: the extra buffer is used only when the free tail is
  // shorter than it.
  function Offered(l: Layout): (n: nat)
    requires l.Valid()
  {
    l.Writable() + if l.Writable() < EXTRA_BUF then EXTRA_BUF else 0
  }

  predicate KernelMayReturn(l: Layout, r: ReadResult)
    requires l.Valid()
  {
    r.ReadBytes? ==> |r.bytes| <= Offered(l)
  }

  function ReadFd(l: Layout, r: ReadResult): (out: Layout)
    requires l.Valid() && KernelMayReturn(l, r)
  {
    match r
    case ReadFailed(_) => l
    case ReadBytes(got) =>
      var inPlace := if |got| <= l.Writable() then |got| else l.Writable();
      var filled := l.(bytes := l.bytes[..l.writer] + got[..inPlace] + l.bytes[l.writer + inPlace..],
                       writer := l.writer + inPlace);
      if |got| <= l.Writable() then filled else Append(filled, got[inPlace..])
  }

  // What does not fit behind the content is appended from the extra buffer.
  lemma SpillIsAppend(l: Layout, got: seq<Byte>, filled: Layout)
    requires l.Valid() && KernelMayReturn(l, ReadBytes(got)) && |got| > l.Writable() && filled.Valid()
    requires var n := l.Writable();
             filled == l.(bytes := l.bytes[..l.writer] + got[..n] + l.bytes[l.writer + n..], writer := l.writer + n)
    ensures ReadFd(l, ReadBytes(got)) == Append(filled, got[l.Writable()..])
  {
  }

  // ---- one operation refines one operation on a byte queue ----

  lemma EnsureWritableSpec(l: Layout, len: nat)
    requires l.Valid()
    ensures var r := EnsureWritable(l, len);
            r.Valid() && r.Content() == l.Content() && r.Writable() >= len && |r.bytes| >= |l.bytes|
    ensures var r := EnsureWritable(l, len);
            |r.bytes| != |l.bytes| ==> |r.bytes| < l.Readable() + 2 * len + CHEAP_PREPEND
  {
    var r := EnsureWritable(l, len);
    if l.Writable() < len {
      if MustGrow(l, len) {
        assert r.Content() == l.Content();
      } else {
        CompactRoom(l, len);
        assert r.Content() == l.Content();
      }
    }
  }

  lemma AppendSpec(l: Layout, data: seq<Byte>)
    requires l.Valid()
    ensures var r := Append(l, data);
            r.Valid() && r.Content() == l.Content() + data && |r.bytes| >= |l.bytes|
    ensures var r := Append(l, data);
            |r.bytes| != |l.bytes| ==> |r.bytes| < l.Readable() + 2 * |data| + CHEAP_PREPEND
  {
    EnsureWritableSpec(l, |data|);
    var e := EnsureWritable(l, |data|);
    var r := Append(l, data);
    assert r.Content() == e.Content() + data;
  }

  lemma RetrieveSpec(l: Layout, n: nat)
    requires l.Valid() && n <= l.Readable()
    ensures var r := Retrieve(l, n);
            r.Valid() && r.Content() == l.Content()[n..] && r.bytes == l.bytes
    // An emptied buffer has all of its room back.
    ensures n == l.Readable() ==> Retrieve(l, n).Writable() == |l.bytes| - CHEAP_PREPEND
  {
  }

  lemma PrependSpec(l: Layout, data: seq<Byte>)
    requires l.Valid() && |data| <= l.reader
    ensures var r := Prepend(l, data);
            r.Valid() && r.Content() == data + l.Content() && |r.bytes| == |l.bytes|
  {
    var r := Prepend(l, data);
    assert r.Content() == data + l.Content();
  }

  lemma ReadFdSpec(l: Layout, res: ReadResult)
    requires l.Valid() && KernelMayReturn(l, res)
    ensures var r := ReadFd(l, res);
            r.Valid() && |r.bytes| >= |l.bytes| &&
            r.Content() == l.Content() + (if res.ReadBytes? then res.bytes else [])
    ensures res.ReadBytes? && |res.bytes| > l.Writable() ==> |res.bytes| <= 131071
    ensures var r := ReadFd(l, res);
            |r.bytes| != |l.bytes| ==>
              res.ReadBytes? && |r.bytes| < l.Readable() + 2 * |res.bytes| + CHEAP_PREPEND
  {
    if res.ReadBytes? {
      var got := res.bytes;
      var inPlace := if |got| <= l.Writable() then |got| else l.Writable();
      var filled := l.(bytes := l.bytes[..l.writer] + got[..inPlace] + l.bytes[l.writer + inPlace..],
                       writer := l.writer + inPlace);
      assert filled.Content() == l.Content() + got[..inPlace];
      if |got| > l.Writable() {
        AppendSpec(filled, got[inPlace..]);
        assert got == got[..inPlace] + got[inPlace..];
      } else {
        assert got[..inPlace] == got;
      }
    }
  }

  // ---- runs ----

  datatype Op =
    | OpAppend(data: seq<Byte>)
    | OpRetrieve(n: nat)
    | OpPrepend(data: seq<Byte>)
    | OpEnsure(len: nat)
    | OpReadFd(result: ReadResult)

  // The assertions the source makes on entry, and what readv may return.
  predicate Allowed(l: Layout, op: Op)
    requires l.Valid()
  {
    match op
    case OpAppend(_) => true
    case OpRetrieve(n) => n <= l.Readable()
    case OpPrepend(data) => |data| <= l.reader
    case OpEnsure(_) => true
    case OpReadFd(r) => KernelMayReturn(l, r)
  }

  function Apply(l: Layout, op: Op): (r: Layout)
    requires l.Valid() && Allowed(l, op)
  {
    match op
    case OpAppend(data) => Append(l, data)
    case OpRetrieve(n) => Retrieve(l, n)
    case OpPrepend(data) => Prepend(l, data)
    case OpEnsure(len) => EnsureWritable(l, len)
    case OpReadFd(res) => ReadFd(l, res)
  }

  // The abstract queue the buffer stands for.
  function QueueApply(q: seq<Byte>, op: Op): (r: seq<Byte>)
  {
    match op
    case OpAppend(data) => q + data
    case OpRetrieve(n) => if n <= |q| then q[n..] else []
    case OpPrepend(data) => data + q
    case OpEnsure(_) => q
    case OpReadFd(res) => if res.ReadBytes? then q + res.bytes else q
  }

  function QueueRun(q: seq<Byte>, ops: seq<Op>): (r: seq<Byte>)
    decreases |ops|
  {
    if ops == [] then q else QueueRun(QueueApply(q, ops[0]), ops[1..])
  }

  lemma ApplySpec(l: Layout, op: Op)
    requires l.Valid() && Allowed(l, op)
    ensures Apply(l, op).Valid()
    ensures Apply(l, op).Content() == QueueApply(l.Content(), op)
    ensures |Apply(l, op).bytes| != |l.bytes| ==>
              |Apply(l, op).bytes| < l.Readable() + 2 * Demand(op) + CHEAP_PREPEND
  {
    match op
    case OpAppend(data) => AppendSpec(l, data);
    case OpRetrieve(n) => RetrieveSpec(l, n);
    case OpPrepend(data) => PrependSpec(l, data);
    case OpEnsure(len) => EnsureWritableSpec(l, len);
    case OpReadFd(res) => ReadFdSpec(l, res);
  }

  ghost predicate AllowedRun(l: Layout, ops: seq<Op>)
    requires l.Valid()
    decreases |ops|
  {
    ops != [] ==>
      Allowed(l, ops[0]) &&
      (ApplySpec(l, ops[0]); AllowedRun(Apply(l, ops[0]), ops[1..]))
  }

  ghost function Run(l: Layout, ops: seq<Op>): (r: Layout)
    requires l.Valid() && AllowedRun(l, ops)
    decreases |ops|
  {
    if ops == [] then l else
      ApplySpec(l, ops[0]);
      Run(Apply(l, ops[0]), ops[1..])
  }

  // However the bytes are moved, compacted or reallocated, the readable region
  // is the content of a plain queue fed the same operations.
  lemma {:induction false} RunRefinesQueue(l: Layout, ops: seq<Op>)
    requires l.Valid() && AllowedRun(l, ops)
    ensures Run(l, ops).Valid()
    ensures Run(l, ops).Content() == QueueRun(l.Content(), ops)
    decreases |ops|
  {
    if ops != [] {
      ApplySpec(l, ops[0]);
      RunRefinesQueue(Apply(l, ops[0]), ops[1..]);
    }
  }

  // ---- space ----

  // Bytes an operation asks room for behind the content.
  function Demand(op: Op): (n: nat) {
    match op
    case OpAppend(data) => |data|
    case OpEnsure(len) => len
    case OpReadFd(res) => if res.ReadBytes? then |res.bytes| else 0
    case _ => 0
  }

  // Content plus requested room never exceeds m along the run.
  ghost predicate DemandWithin(l: Layout, ops: seq<Op>, m: nat)
    requires l.Valid() && AllowedRun(l, ops)
    decreases |ops|
  {
    ops != [] ==>
      l.Readable() + Demand(ops[0]) <= m &&
      (ApplySpec(l, ops[0]); DemandWithin(Apply(l, ops[0]), ops[1..], m))
  }

  // The storage is bounded by the largest content, not by the length of the run.
  lemma {:induction false} SpaceBound(l: Layout, ops: seq<Op>, m: nat)
    requires l.Valid() && AllowedRun(l, ops) && DemandWithin(l, ops, m)
    ensures |Run(l, ops).bytes| <= |l.bytes| || |Run(l, ops).bytes| <= CHEAP_PREPEND + 2 * m
    decreases |ops|
  {
    if ops != [] {
      ApplySpec(l, ops[0]);
      SpaceBound(Apply(l, ops[0]), ops[1..], m);
    }
  }

  // Without prepends the cheap-prepend gap is never eaten, so a header of up to
  // eight bytes can always be put in front.
  lemma {:induction false} PrependRoom(l: Layout, ops: seq<Op>)
    requires l.Valid() && AllowedRun(l, ops)
    requires l.reader >= CHEAP_PREPEND
    requires forall op <- ops :: !op.OpPrepend?
    ensures Run(l, ops).Valid() && Run(l, ops).reader >= CHEAP_PREPEND
    decreases |ops|
  {
    if ops != [] {
      ApplySpec(l, ops[0]);
      assert !ops[0].OpPrepend?;
      PrependRoom(Apply(l, ops[0]), ops[1..]);
    }
  }

  // ---- integers through the buffer ----

  function PeekInt(l: Layout, w: nat): (x: int)
    requires l.Valid() && IsWidth(w) && w <= l.Readable()
  {
    Decode(l.Content()[..w])
  }

  predicate AreWidths(ws: seq<nat>) {
    forall i :: 0 <= i < |ws| ==> IsWidth(ws[i])
  }

  // Reading one integer per width, front to back.
  function ReadInts(l: Layout, widths: seq<nat>): (r: (seq<int>, Layout))
    requires l.Valid() && AreWidths(widths) && Sum(widths) <= l.Readable()
    decreases |widths|
  {
    if widths == [] then ([], l) else
      RetrieveSpec(l, widths[0]);
      var x := PeekInt(l, widths[0]);
      var rest := ReadInts(Retrieve(l, widths[0]), widths[1..]);
      ([x] + rest.0, rest.1)
  }

  function Sum(ns: seq<nat>): (n: nat) {
    if ns == [] then 0 else ns[0] + Sum(ns[1..])
  }

  function Widths(fs: seq<Field>): (ws: seq<nat>)
    ensures |ws| == |fs|
  {
    if fs == [] then [] else [fs[0].width] + Widths(fs[1..])
  }

  function Values(fs: seq<Field>): (vs: seq<int>) {
    if fs == [] then [] else [fs[0].value] + Values(fs[1..])
  }

  // appendIntN for each field in turn.
  function AppendOps(fs: seq<Field>): (ops: seq<Op>)
    requires ValidFields(fs)
  {
    if fs == [] then [] else [OpAppend(Encode(fs[0].width, fs[0].value))] + AppendOps(fs[1..])
  }

  lemma {:induction false} AppendOpsQueue(q: seq<Byte>, fs: seq<Field>)
    requires ValidFields(fs)
    ensures QueueRun(q, AppendOps(fs)) == q + Wire(fs)
    decreases |fs|
  {
    if fs == [] {
      assert q + Wire(fs) == q;
    } else {
      var e := Encode(fs[0].width, fs[0].value);
      var ops, rest := AppendOps(fs), fs[1..];
      assert ops == [OpAppend(e)] + AppendOps(rest);
      assert ops[0] == OpAppend(e) && ops[1..] == AppendOps(rest);
      calc {
        QueueRun(q, ops);
        QueueRun(q + e, AppendOps(rest));
        { AppendOpsQueue(q + e, rest); }
        (q + e) + Wire(rest);
        q + (e + Wire(rest));
      }
    }
  }

  lemma {:induction false} ReadWire(l: Layout, fs: seq<Field>, rest: seq<Byte>)
    requires l.Valid() && ValidFields(fs) && l.Content() == Wire(fs) + rest
    ensures AreWidths(Widths(fs)) && Sum(Widths(fs)) == |Wire(fs)|
    ensures ReadInts(l, Widths(fs)).0 == Values(fs)
    ensures ReadInts(l, Widths(fs)).1.Valid() && ReadInts(l, Widths(fs)).1.Content() == rest
    decreases |fs|
  {
    if fs == [] {
      assert Wire(fs) + rest == rest;
    } else {
      var f := fs[0];
      var e := Encode(f.width, f.value);
      assert Wire(fs) + rest == e + (Wire(fs[1..]) + rest);
      assert l.Content()[..f.width] == e;
      DecodeEncode(f.width, f.value);
      RetrieveSpec(l, f.width);
      var l' := Retrieve(l, f.width);
      assert l'.Content() == Wire(fs[1..]) + rest;
      ReadWire(l', fs[1..], rest);
      assert Widths(fs)[1..] == Widths(fs[1..]);
    }
  }

  lemma {:induction false} QueueRunConcat(q: seq<Byte>, a: seq<Op>, b: seq<Op>)
    ensures QueueRun(q, a + b) == QueueRun(QueueRun(q, a), b)
    decreases |a|
  {
    if a == [] {
      assert a + b == b;
    } else {
      QueueRunConcat(QueueApply(q, a[0]), a[1..], b);
      assert (a + b)[1..] == a[1..] + b;
    }
  }

  predicate IntsReadable(l: Layout, widths: seq<nat>) {
    l.Valid() && AreWidths(widths) && Sum(widths) <= l.Readable()
  }

  // Integers appended behind any content, followed by any further traffic that
  // consumes what was in front and adds behind, read back unchanged, and what
  // follows them is left in place.
  lemma IntRoundTrip(l: Layout, fs: seq<Field>, between: seq<Op>, tail: seq<Byte>)
    requires l.Valid() && ValidFields(fs)
    requires AllowedRun(l, AppendOps(fs) + between)
    requires QueueRun(l.Content() + Wire(fs), between) == Wire(fs) + tail
    ensures var m := Run(l, AppendOps(fs) + between);
            IntsReadable(m, Widths(fs)) &&
            ReadInts(m, Widths(fs)).0 == Values(fs) &&
            ReadInts(m, Widths(fs)).1.Valid() &&
            ReadInts(m, Widths(fs)).1.Content() == tail
  {
    RunRefinesQueue(l, AppendOps(fs) + between);
    QueueRunConcat(l.Content(), AppendOps(fs), between);
    AppendOpsQueue(l.Content(), fs);
    ReadWire(Run(l, AppendOps(fs) + between), fs, tail);
  }

  // A prepended integer is read back first and the content behind it is intact.
  lemma PrependRoundTrip(l: Layout, w: nat, x: int)
    requires l.Valid() && IsWidth(w) && Fits(w, x) && w <= l.reader
    ensures var p := Prepend(l, Encode(w, x));
            p.Valid() && w <= p.Readable() && PeekInt(p, w) == x &&
            Retrieve(p, w).Valid() && Retrieve(p, w).Content() == l.Content()
  {
    PrependSpec(l, Encode(w, x));
    var p := Prepend(l, Encode(w, x));
    assert p.Content()[..w] == Encode(w, x);
    DecodeEncode(w, x);
    RetrieveSpec(p, w);
  }
}
