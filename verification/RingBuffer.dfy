/**
 The ring buffer of libjack/ringbuffer.c used by one thread: a bounded byte queue.
 */
module RingBuffer {
  import opened Bits
  import opened Collections

  function Min(a: nat, b: nat): nat {
    if a < b then a else b
  }

  /** The n cells from start on, going round the end of a buffer of the given size. */
  ghost function Cells(start: nat, n: nat, size: nat): seq<nat>
    requires start <= size && n <= size
  {
    if start + n <= size then Span(start, start + n) else Span(start, size) + Span(0, start + n - size)
  }

  ghost function Span(from: nat, to: nat): seq<nat>
    requires from <= to
  {
    seq(to - from, i requires 0 <= i < to - from => from + i)
  }

  /** What lies between position r and position w of s, going round the end. */
  ghost function Queue(s: seq<byte>, r: nat, w: nat): seq<byte>
    requires r < |s| && w < |s|
  {
    if r <= w then s[r..w] else s[r..] + s[..w]
  }

  ghost function Wrap(x: nat, size: nat): nat {
    if x < size then x else x - size
  }

  /** Dropping n bytes moves the read position. */
  lemma QueueDrop(s: seq<byte>, r: nat, w: nat, n: nat)
    requires r < |s| && w < |s| && n <= |Queue(s, r, w)|
    ensures Wrap(r + n, |s|) < |s| && Queue(s, r, w)[n..] == Queue(s, Wrap(r + n, |s|), w)
    ensures r + n <= |s| ==> Queue(s, r, w)[..n] == s[r..r + n]
  {
  }

  /** The first bytes of the queue, split where the buffer ends. */
  lemma QueuePrefix(s: seq<byte>, r: nat, w: nat, n1: nat, n2: nat)
    requires r < |s| && w < |s| && n1 + n2 <= |Queue(s, r, w)| && r + n1 <= |s| && (n2 > 0 ==> r + n1 == |s|)
    ensures n2 <= |s| && Queue(s, r, w)[..n1 + n2] == s[r..r + n1] + s[..n2]
  {
    if n2 > 0 { assert (s[r..] + s[..w])[..n1 + n2] == s[r..] + s[..n2]; }
  }

  /** Up to the end of the buffer, moving the write position appends what lies there. */
  lemma QueueAppend(s: seq<byte>, r: nat, w: nat, n: nat)
    requires r < |s| && w < |s| && |Queue(s, r, w)| + n < |s| && w + n <= |s|
    ensures Wrap(w + n, |s|) < |s| && Queue(s, r, Wrap(w + n, |s|)) == Queue(s, r, w) + s[w..w + n]
  {
    if r <= w {
      if w + n < |s| { assert s[r..w + n] == s[r..w] + s[w..w + n]; }
      else { assert s[r..] + s[..0] == s[r..w] + s[w..w + n]; }
    } else {
      assert s[r..] + s[..w + n] == s[r..] + s[..w] + s[w..w + n];
    }
  }

  /** The contents of the n cells from position w on, going round the end. */
  ghost function From(s: seq<byte>, w: nat, n: nat): seq<byte>
    requires w <= |s| && n <= |s|
  {
    if w + n <= |s| then s[w..w + n] else s[w..] + s[..w + n - |s|]
  }

  /** Moving the write position within the free space appends the cells passed over. */
  lemma QueueGrow(s: seq<byte>, r: nat, w: nat, n: nat)
    requires r < |s| && w < |s| && |Queue(s, r, w)| + n < |s|
    ensures Wrap(w + n, |s|) < |s|
    ensures Queue(s, r, Wrap(w + n, |s|)) == Queue(s, r, w) + From(s, w, n)
  {
    if w + n <= |s| {
      QueueAppend(s, r, w, n);
    } else {
      var m := |s| - w;
      assert |Queue(s, r, w)| + m < |s|;
      QueueAppend(s, r, w, m);
      assert Queue(s, r, 0) == Queue(s, r, w) + s[w..];
      QueueAppend(s, r, 0, n - m);
      hide Queue;
      Associate(Queue(s, r, w), s[w..], s[..n - m]);
    }
  }

  lemma Associate<T>(a: seq<T>, b: seq<T>, c: seq<T>)
    ensures a + b + c == a + (b + c)
  {
  }

  /** The queue does not depend on the cells outside it. */
  lemma QueueFrame(s: seq<byte>, t: seq<byte>, r: nat, w: nat, n: nat)
    requires r < |s| && w < |s| && |t| == |s| && |Queue(s, r, w)| + n < |s| && w + n <= |s|
    requires t[..w] == s[..w] && t[w + n..] == s[w + n..]
    ensures Queue(t, r, w) == Queue(s, r, w)
  {
    if r > w { assert t[r..] == t[w + n..][r - w - n..] && s[r..] == s[w + n..][r - w - n..]; }
    else { assert t[r..w] == t[..w][r..] && s[r..w] == s[..w][r..]; }
  }

  /** A contiguous piece of the buffer. */
  datatype Segment = Segment(start: nat, len: nat)

  class RingBuffer {
    const buf: array<byte>
    const size: nat
    const sizeMask: nat
    ghost const bits: nat
    var readPtr: nat
    var writePtr: nat

    ghost predicate Valid()
      reads this
    {
      && bits >= 1 && size == Pow2(bits) && sizeMask == size - 1 && buf.Length == size
      && readPtr < size && writePtr < size
    }

    /** The queue: what lies between the read and the write pointer. */
    ghost function Contents(): seq<byte>
      requires Valid()
      reads this, buf
    {
      Queue(buf[..], readPtr, writePtr)
    }

    /** The size is the least power of two that is at least 2 and at least sz. */
    constructor (sz: nat)
      ensures Valid() && Contents() == [] && fresh(buf)
      ensures size >= sz && size >= 2
      ensures forall k: nat :: Pow2(k) >= sz && Pow2(k) >= 2 ==> size <= Pow2(k)
      ensures size - 1 >= sz <==> sz < 2 || forall j: nat :: sz != Pow2(j)
    {
      var powerOfTwo, p := 1, 2;
      while p < sz
        invariant powerOfTwo >= 1 && p == Pow2(powerOfTwo)
        invariant powerOfTwo > 1 ==> Pow2(powerOfTwo - 1) < sz
        decreases sz - p
      {
        powerOfTwo, p := powerOfTwo + 1, 2 * p;
      }
      size, sizeMask, bits := p, p - 1, powerOfTwo;
      buf := new byte[p];
      readPtr, writePtr := 0, 0;
      new;
      forall k: nat | Pow2(k) >= sz && Pow2(k) >= 2
        ensures size <= Pow2(k)
      {
        if k < bits { Pow2Grows(k, bits - 1); } else { Pow2Grows(bits, k); }
      }
    }

    /** jack_ringbuffer_read_space. */
    method ReadSpace() returns (n: nat)
      requires Valid()
      ensures n == |Contents()| < size
    {
      if writePtr > readPtr {
        n := writePtr - readPtr;
      } else {
        MaskWraps(writePtr + size - readPtr, bits);
        n := And(writePtr + size - readPtr, sizeMask);
      }
    }

    /** jack_ringbuffer_write_space: one cell always stays unused. */
    method WriteSpace() returns (n: nat)
      requires Valid()
      ensures n + |Contents()| == size - 1
    {
      if writePtr > readPtr {
        MaskWraps(readPtr + size - writePtr, bits);
        n := And(readPtr + size - writePtr, sizeMask) - 1;
      } else if writePtr < readPtr {
        n := (readPtr - writePtr) - 1;
      } else {
        n := size - 1;
      }
    }

    /** How a transfer of n bytes from position p splits at the end of the buffer. */
    method Split(p: nat, n: nat) returns (n1: nat, n2: nat)
      requires Valid() && p < size && n < size
      ensures n1 + n2 == n && p + n1 <= size && (n2 > 0 ==> p + n1 == size)
      ensures n2 <= p && (n2 == 0 <==> p + n <= size)
    {
      var cnt2 := p + n;
      if cnt2 > size {
        MaskWraps(cnt2, bits);
        n1, n2 := size - p, And(cnt2, sizeMask);
      } else {
        n1, n2 := n, 0;
      }
    }

    /** jack_ringbuffer_peek. */
    method Peek(dest: array<byte>, cnt: nat) returns (n: nat)
      requires Valid() && dest != buf && dest.Length >= Min(cnt, |Contents()|)
      modifies dest
      ensures n == Min(cnt, |Contents()|) && Contents() == old(Contents())
      ensures dest[..n] == Contents()[..n] && dest[n..] == old(dest[n..])
    {
      hide Pow2, And, Queue;
      var free := ReadSpace();
      if free == 0 { return 0; }
      n := if cnt > free then free else cnt;
      var n1, n2 := Split(readPtr, n);
      ghost var s := buf[..];
      QueuePrefix(s, readPtr, writePtr, n1, n2);
      CopyOut(readPtr, n1, n2, dest);
      assert buf[..] == s;
    }

    /** Copy n1 bytes from position p and n2 more from the start of the buffer. */
    method CopyOut(p: nat, n1: nat, n2: nat, dest: array<byte>)
      requires dest != buf && n1 + n2 <= dest.Length && p + n1 <= buf.Length && n2 <= buf.Length
      modifies dest
      ensures dest[..n1 + n2] == buf[..][p..p + n1] + buf[..][..n2] && dest[n1 + n2..] == old(dest[n1 + n2..])
    {
      Copy(buf, p, dest, 0, n1);
      if n2 > 0 {
        Copy(buf, 0, dest, n1, n2);
      }
    }

    /** jack_ringbuffer_read. */
    method Read(dest: array<byte>, cnt: nat) returns (n: nat)
      requires Valid() && dest != buf && dest.Length >= Min(cnt, |Contents()|)
      modifies dest, this`readPtr
      ensures Valid() && n == Min(cnt, |old(Contents())|)
      ensures dest[..n] == old(Contents())[..n] && dest[n..] == old(dest[n..])
      ensures Contents() == old(Contents())[n..]
    {
      hide Pow2, And, Queue;
      var free := ReadSpace();
      if free == 0 { return 0; }
      n := if cnt > free then free else cnt;
      var n1, n2 := Split(readPtr, n);
      ghost var c := Contents();
      ReadPart(dest, 0, n1);
      if n2 > 0 {
        ReadPart(dest, n1, n2);
        TwoParts(dest[..n], c, n1, n);
      }
    }

    /** One contiguous part of a read. */
    method ReadPart(dest: array<byte>, to: nat, n: nat)
      requires Valid() && dest != buf && to + n <= dest.Length && readPtr + n <= size && n <= |Contents()|
      modifies dest, this`readPtr
      ensures Valid() && Contents() == old(Contents())[n..]
      ensures dest[to..to + n] == old(Contents())[..n]
      ensures dest[..to] == old(dest[..to]) && dest[to + n..] == old(dest[to + n..])
      ensures readPtr == if old(readPtr) + n == size then 0 else old(readPtr) + n
    {
      hide Pow2, And;
      MaskWraps(readPtr + n, bits);
      QueueDrop(buf[..], readPtr, writePtr, n);
      hide Queue;
      Copy(buf, readPtr, dest, to, n);
      readPtr := And(readPtr + n, sizeMask);
    }

    /** jack_ringbuffer_read_advance: within the contents, the front is dropped. */
    method AdvanceRead(cnt: nat)
      requires Valid()
      modifies this`readPtr
      ensures Valid() && readPtr == And(old(readPtr) + cnt, sizeMask)
      ensures cnt <= |old(Contents())| ==> Contents() == old(Contents())[cnt..]
    {
      hide Pow2, And;
      AndBelow(readPtr + cnt, bits);
      if cnt <= |Contents()| {
        MaskWraps(readPtr + cnt, bits);
        QueueDrop(buf[..], readPtr, writePtr, cnt);
      }
      readPtr := And(readPtr + cnt, sizeMask);
    }

    /** jack_ringbuffer_write_advance: within the free space, the cells after the
        contents become part of them. */
    method AdvanceWrite(cnt: nat)
      requires Valid()
      modifies this`writePtr
      ensures Valid() && writePtr == And(old(writePtr) + cnt, sizeMask)
      ensures cnt + |old(Contents())| < size ==>
        Contents() == old(Contents()) + From(buf[..], old(writePtr), cnt)
    {
      hide Pow2, And;
      AndBelow(writePtr + cnt, bits);
      if cnt + |Contents()| < size {
        MaskWraps(writePtr + cnt, bits);
        QueueGrow(buf[..], readPtr, writePtr, cnt);
      }
      hide Queue, From;
      writePtr := And(writePtr + cnt, sizeMask);
    }

    /** jack_ringbuffer_write. */
    method Write(src: array<byte>, cnt: nat) returns (n: nat)
      requires Valid() && src != buf && src.Length >= Min(cnt, size - 1 - |Contents()|)
      modifies buf, this`writePtr
      ensures Valid() && n == Min(cnt, size - 1 - |old(Contents())|)
      ensures Contents() == old(Contents()) + src[..n]
    {
      hide Pow2, And, Queue;
      var free := WriteSpace();
      if free == 0 {
        assert src[..0] == [];
        return 0;
      }
      n := if cnt > free then free else cnt;
      var n1, n2 := Split(writePtr, n);
      WritePart(src, 0, n1);
      if n2 > 0 {
        WritePart(src, n1, n2);
        assert src[..n1] + src[n1..n] == src[..n];
      }
    }

    /** One contiguous part of a write. */
    method WritePart(src: array<byte>, from: nat, n: nat)
      requires Valid() && src != buf && from + n <= src.Length
      requires writePtr + n <= size && n + |Contents()| < size
      modifies buf, this`writePtr
      ensures Valid() && Contents() == old(Contents()) + src[from..from + n]
      ensures writePtr == if old(writePtr) + n == size then 0 else old(writePtr) + n
    {
      hide Pow2, And, Queue;
      ghost var s := buf[..];
      MaskWraps(writePtr + n, bits);
      Copy(src, from, buf, writePtr, n);
      QueueFrame(s, buf[..], readPtr, writePtr, n);
      QueueAppend(buf[..], readPtr, writePtr, n);
      writePtr := And(writePtr + n, sizeMask);
    }

    /** jack_ringbuffer_get_read_vector: the two parts make up the contents. */
    method GetReadVector() returns (first: Segment, second: Segment)
      requires Valid()
      ensures first.start + first.len <= size && second.start + second.len <= size
      ensures buf[first.start..first.start + first.len] + buf[second.start..second.start + second.len] == Contents()
      ensures first.start == readPtr && (second.len > 0 ==> second.start == 0)
    {
      var free := ReadSpace();
      var n1, n2 := Split(readPtr, free);
      first, second := Segment(readPtr, n1), Segment(0, n2);
    }

    /** jack_ringbuffer_get_write_vector: the two parts make up the free cells, in order. */
    method GetWriteVector() returns (first: Segment, second: Segment)
      requires Valid()
      ensures first.len + second.len + |Contents()| == size - 1
      ensures first.start + first.len <= size && second.start + second.len <= size
      ensures Span(first.start, first.start + first.len) + Span(second.start, second.start + second.len)
           == Cells(writePtr, size - 1 - |Contents()|, size)
    {
      var free := WriteSpace();
      var n1, n2 := Split(writePtr, free);
      first, second := Segment(writePtr, n1), Segment(0, n2);
    }
  }

  lemma TwoParts(a: seq<byte>, b: seq<byte>, m: nat, n: nat)
    requires m <= n == |a| && n <= |b| && a[..m] == b[..m] && a[m..] == b[m..][..n - m]
    ensures a == b[..n]
  {
    assert a == a[..m] + a[m..];
    assert b[..n] == b[..m] + b[m..][..n - m];
  }

  lemma {:induction false} Pow2Grows(j: nat, k: nat)
    requires j <= k
    ensures Pow2(j) <= Pow2(k)
    decreases k
  {
    if j < k { Pow2Grows(j, k - 1); }
  }

  /** memcpy between different arrays. */
  method Copy(src: array<byte>, from: nat, dst: array<byte>, to: nat, n: nat)
    requires src != dst && from + n <= src.Length && to + n <= dst.Length
    modifies dst
    ensures dst[to..to + n] == src[from..from + n]
    ensures dst[..to] == old(dst[..to]) && dst[to + n..] == old(dst[to + n..])
  {
    for i := 0 to n
      invariant dst[to..to + i] == src[from..from + i]
      invariant dst[..to] == old(dst[..to]) && dst[to + i..] == old(dst[to + i..])
    {
      dst[to + i] := src[from + i];
    }
  }

  /** The comment on create promises room for sz bytes; at a power of two there is room
      for one less, and only then. */
  method FillNew(src: array<byte>) returns (rb: RingBuffer, n: nat)
    ensures n <= src.Length && rb.Valid() && rb.Contents() == src[..n]
    ensures n == src.Length <==> src.Length < 2 || forall j: nat :: src.Length != Pow2(j)
  {
    rb := new RingBuffer(src.Length);
    n := rb.Write(src, src.Length);
  }
}
