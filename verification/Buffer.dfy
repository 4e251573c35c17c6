// The Buffer class of the source: one array and two indices, updated in place.
// Every method is tied to the operation of BufferModel it performs.
module BufferClass {
  import opened Codec
  import opened Syscalls
  import M = BufferModel

  lemma SlicePrefix(s: seq<Byte>, lo: nat, hi: nat, w: nat)
    requires lo + w <= hi <= |s|
    ensures s[lo..hi][..w] == s[lo..lo + w]
  {
  }

  class Buffer {
    var data: array<Byte>
    var readerIndex: nat
    var writerIndex: nat

    ghost predicate Valid()
      reads this
    {
      M.CHEAP_PREPEND <= data.Length && readerIndex <= writerIndex <= data.Length
    }

    ghost function Layout(): (l: M.Layout)
      reads this, data
      ensures Valid() ==> l.Valid()
    {
      M.Layout(data[..], readerIndex, writerIndex)
    }

    ghost function Content(): (q: seq<Byte>)
      requires Valid()
      reads this, data
    {
      Layout().Content()
    }

    constructor (initialSize: nat)
      ensures Valid() && fresh(data)
      ensures Layout() == M.Fresh(initialSize)
    {
      data := new Byte[M.CHEAP_PREPEND + initialSize](_ => 0);
      readerIndex := M.CHEAP_PREPEND;
      writerIndex := M.CHEAP_PREPEND;
      new;
      assert data[..] == M.Zeros(M.CHEAP_PREPEND + initialSize);
    }

    method ReadableBytes() returns (n: nat)
      requires Valid()
      ensures n == |Content()|
    {
      n := writerIndex - readerIndex;
    }

    method Retrieve(len: nat)
      requires Valid() && len <= writerIndex - readerIndex
      modifies this`readerIndex, this`writerIndex
      ensures Valid()
      ensures Layout() == M.Retrieve(old(Layout()), len)
      ensures Content() == old(Content())[len..]
    {
      M.RetrieveSpec(Layout(), len);
      if len < writerIndex - readerIndex {
        readerIndex := readerIndex + len;
      } else {
        RetrieveAll();
      }
    }

    method RetrieveAll()
      requires Valid()
      modifies this`readerIndex, this`writerIndex
      ensures Valid() && data[..] == old(data[..])
      ensures Layout() == M.RetrieveAll(old(Layout()))
      ensures Content() == []
    {
      readerIndex := M.CHEAP_PREPEND;
      writerIndex := M.CHEAP_PREPEND;
    }

    method RetrieveAsString(len: nat) returns (s: seq<Byte>)
      requires Valid() && len <= writerIndex - readerIndex
      modifies this`readerIndex, this`writerIndex
      ensures Valid()
      ensures Layout() == M.Retrieve(old(Layout()), len)
      ensures s + Content() == old(Content())
    {
      s := data[readerIndex..readerIndex + len];
      Retrieve(len);
    }

    // std::copy of a block into the storage.
    method CopyIn(at: nat, src: seq<Byte>)
      requires at + |src| <= data.Length
      modifies data
      ensures data[..] == old(data[..at]) + src + old(data[at + |src|..])
    {
      ghost var before := data[..];
      for i := 0 to |src|
        invariant data[..] == before[..at] + src[..i] + before[at + i..]
      {
        data[at + i] := src[i];
        assert src[..i + 1] == src[..i] + [src[i]];
      }
      assert src[..|src|] == src;
    }

    // buffer_.resize(n) for a larger n.
    method Resize(n: nat)
      requires n >= data.Length
      modifies this`data
      ensures fresh(data)
      ensures data[..] == old(data[..]) + M.Zeros(n - old(data.Length))
    {
      var was := data;
      var d := new Byte[n](_ => 0);
      for i := 0 to was.Length
        invariant was[..] == old(was[..])
        invariant forall k :: 0 <= k < i ==> d[k] == was[k]
        invariant forall k :: i <= k < n ==> d[k] == 0
      {
        d[i] := was[i];
      }
      assert d[..] == was[..] + M.Zeros(n - was.Length);
      data := d;
    }

    method MakeSpace(len: nat)
      requires Valid() && data.Length - writerIndex < len
      modifies this, data
      ensures Valid() && (data == old(data) || fresh(data))
      ensures Layout() == M.MakeSpace(old(Layout()), len)
      ensures Content() == old(Content())
    {
      M.EnsureWritableSpec(Layout(), len);
      if data.Length - writerIndex + readerIndex < len + M.CHEAP_PREPEND {
        Resize(writerIndex + len);
      } else {
        assert M.CHEAP_PREPEND < readerIndex;
        var readable := writerIndex - readerIndex;
        SlideDown();
        readerIndex := M.CHEAP_PREPEND;
        writerIndex := readerIndex + readable;
        assert readable == writerIndex - readerIndex;
      }
    }

    // The overlapping copy of makeSpace, front to back.
    method SlideDown()
      requires Valid() && M.CHEAP_PREPEND < readerIndex
      modifies data
      ensures data[..] == old(data[..M.CHEAP_PREPEND]) + old(data[readerIndex..writerIndex])
                          + old(data[M.CHEAP_PREPEND + (writerIndex - readerIndex)..])
    {
      ghost var before := data[..];
      for i := 0 to writerIndex - readerIndex
        invariant forall k :: 0 <= k < M.CHEAP_PREPEND ==> data[k] == before[k]
        invariant forall k :: M.CHEAP_PREPEND <= k < M.CHEAP_PREPEND + i ==>
                                data[k] == before[readerIndex + (k - M.CHEAP_PREPEND)]
        invariant forall k :: M.CHEAP_PREPEND + i <= k < data.Length ==> data[k] == before[k]
      {
        data[M.CHEAP_PREPEND + i] := data[readerIndex + i];
      }
      ghost var end := M.CHEAP_PREPEND + (writerIndex - readerIndex);
      assert data[..M.CHEAP_PREPEND] == before[..M.CHEAP_PREPEND];
      assert data[M.CHEAP_PREPEND..end] == before[readerIndex..writerIndex];
      assert data[end..] == before[end..];
      assert data[..] == data[..M.CHEAP_PREPEND] + data[M.CHEAP_PREPEND..end] + data[end..];
    }

    method EnsureWritableBytes(len: nat)
      requires Valid()
      modifies this, data
      ensures Valid() && (data == old(data) || fresh(data))
      ensures Layout() == M.EnsureWritable(old(Layout()), len)
      ensures Content() == old(Content())
      ensures data.Length - writerIndex >= len
    {
      M.EnsureWritableSpec(Layout(), len);
      if data.Length - writerIndex < len {
        MakeSpace(len);
      }
    }

    method Append(src: seq<Byte>)
      requires Valid()
      modifies this, data
      ensures Valid() && (data == old(data) || fresh(data))
      ensures Layout() == M.Append(old(Layout()), src)
      ensures Content() == old(Content()) + src
    {
      M.AppendSpec(Layout(), src);
      EnsureWritableBytes(|src|);
      CopyIn(writerIndex, src);
      writerIndex := writerIndex + |src|;
    }

    method Prepend(src: seq<Byte>)
      requires Valid() && |src| <= readerIndex
      modifies this`readerIndex, data
      ensures Valid()
      ensures Layout() == M.Prepend(old(Layout()), src)
      ensures Content() == src + old(Content())
    {
      M.PrependSpec(Layout(), src);
      readerIndex := readerIndex - |src|;
      CopyIn(readerIndex, src);
    }

    // readv(2) is the parameter: what it reported and which bytes it delivered.
    method ReadFd(res: ReadResult) returns (n: int)
      requires Valid() && M.KernelMayReturn(Layout(), res)
      modifies this, data
      ensures Valid() && (data == old(data) || fresh(data))
      ensures Layout() == M.ReadFd(old(Layout()), res)
      ensures n == if res.ReadBytes? then |res.bytes| else -1
      ensures Content() == old(Content()) + (if res.ReadBytes? then res.bytes else [])
    {
      M.ReadFdSpec(Layout(), res);
      var writable := data.Length - writerIndex;
      if res.ReadFailed? {
        n := -1;
        return;
      }
      n := |res.bytes|;
      if n <= writable {
        assert res.bytes[..n] == res.bytes;
        FillTail(res.bytes);
      } else {
        FillAndSpill(res.bytes);
      }
    }

    // readv used the extra buffer too.
    method FillAndSpill(src: seq<Byte>)
      requires Valid() && |src| > data.Length - writerIndex && M.KernelMayReturn(Layout(), ReadBytes(src))
      modifies this, data
      ensures Valid() && (data == old(data) || fresh(data))
      ensures Layout() == M.ReadFd(old(Layout()), ReadBytes(src))
    {
      var writable := data.Length - writerIndex;
      ghost var l := Layout();
      FillTail(src[..writable]);
      ghost var filled := Layout();
      M.SpillIsAppend(l, src, filled);
      Append(src[writable..]);
      assert Layout() == M.Append(filled, src[writable..]);
    }

    // The part of readv's data that landed behind the content.
    method FillTail(src: seq<Byte>)
      requires Valid() && |src| <= data.Length - writerIndex
      modifies this`writerIndex, data
      ensures Valid()
      ensures var l := old(Layout());
              Layout() == l.(bytes := l.bytes[..l.writer] + src + l.bytes[l.writer + |src|..], writer := l.writer + |src|)
    {
      CopyIn(writerIndex, src);
      writerIndex := writerIndex + |src|;
    }

    method AppendInt(w: nat, x: int)
      requires Valid() && IsWidth(w) && Fits(w, x)
      modifies this, data
      ensures Valid() && (data == old(data) || fresh(data))
      ensures Layout() == M.Append(old(Layout()), Encode(w, x))
      ensures Content() == old(Content()) + Encode(w, x) && BigEndian(w, x, Encode(w, x))
    {
      EncodeOrder(w, x);
      Append(Encode(w, x));
    }

    method PeekInt(w: nat) returns (x: int)
      requires Valid() && IsWidth(w) && w <= writerIndex - readerIndex
      ensures Fits(w, x) && Encode(w, x) == Content()[..w] && BigEndian(w, x, Content()[..w])
    {
      var front := data[..][readerIndex..readerIndex + w];
      x := Decode(front);
      EncodeDecode(front);
      DecodeOrder(front);
      SlicePrefix(data[..], readerIndex, writerIndex, w);
    }

    method ReadInt(w: nat) returns (x: int)
      requires Valid() && IsWidth(w) && w <= writerIndex - readerIndex
      modifies this`readerIndex, this`writerIndex
      ensures Valid() && IsWidth(w) && Fits(w, x)
      ensures Layout() == M.Retrieve(old(Layout()), w)
      ensures old(Content()) == Encode(w, x) + Content() && BigEndian(w, x, old(Content())[..w])
    {
      x := PeekInt(w);
      Retrieve(w);
    }

    method PrependInt(w: nat, x: int)
      requires Valid() && IsWidth(w) && Fits(w, x) && w <= readerIndex
      modifies this`readerIndex, data
      ensures Valid()
      ensures Layout() == M.Prepend(old(Layout()), Encode(w, x))
      ensures Content() == Encode(w, x) + old(Content()) && BigEndian(w, x, Encode(w, x))
    {
      EncodeOrder(w, x);
      Prepend(Encode(w, x));
    }
  }
}
