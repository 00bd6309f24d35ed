// The ring buffer of common/connection.c: a 256-byte array with free-running 32-bit counters.
module Ring {
  newtype byte = x: int | 0 <= x < 256

  const CAP: int := 256
  const WRAP: int := 0x1_0000_0000

  // ---------------------------------------------------------------- places in the ring

  // `n` bytes of the ring from a counter value on.
  ghost function Window(d: seq<byte>, from: nat, n: nat): (w: seq<byte>)
    requires |d| == CAP
    ensures |w| == n && forall k :: 0 <= k < n ==> w[k] == d[(from + k) % CAP]
  {
    seq(n, k requires 0 <= k < n => d[(from + k) % CAP])
  }

  // How far a slot lies after the head.
  function Offset(k: int, head: nat): nat {
    (k - head) % CAP
  }

  lemma OffsetIs(k: nat, head: nat)
    requires k < CAP
    ensures Offset(k, head) == if k >= head % CAP then k - head % CAP else k - head % CAP + CAP
  {
  }

  // `d` after the bytes have been written from the head on.
  ghost predicate Written(d: seq<byte>, r: seq<byte>, head: nat, src: seq<byte>) {
    && |d| == CAP && |r| == CAP && |src| <= CAP
    && forall k :: 0 <= k < CAP ==> r[k] == if Offset(k, head) < |src| then src[Offset(k, head)] else d[k]
  }

  // Where a counter value lies relative to the head: the 32-bit wrap does not show.
  lemma OffsetFromHead(head: nat, tail: nat, size: nat, j: nat)
    requires head < WRAP && tail < WRAP && size == (head - tail) % WRAP
    ensures Offset((tail + j) % CAP, head) == (j - size) % CAP
  {
    assert head == tail + size || head == tail + size - WRAP;
  }

  lemma SmallOffset(j: int)
    requires -CAP <= j < CAP
    ensures j % CAP == if j < 0 then j + CAP else j
  {
  }

  // Writing at the head appends to the window and leaves everything else in place.
  lemma WriteAppends(d: seq<byte>, r: seq<byte>, head: nat, tail: nat, src: seq<byte>)
    requires head < WRAP && tail < WRAP && Written(d, r, head, src)
    requires (head - tail) % WRAP + |src| <= CAP
    ensures var size := (head - tail) % WRAP;
            Window(r, tail, size + |src|) == Window(d, tail, size) + src
  {
    var size := (head - tail) % WRAP;
    forall j | 0 <= j < size + |src|
      ensures Window(r, tail, size + |src|)[j] == (Window(d, tail, size) + src)[j]
    {
      OffsetFromHead(head, tail, size, j);
      SmallOffset(j - size);
    }
  }

  // A window is one stretch of the array, or two when it runs over the end.
  lemma WindowIsSlices(d: seq<byte>, from: nat, n: nat)
    requires |d| == CAP && n <= CAP
    ensures var at := from % CAP;
            Window(d, from, n) == if at + n <= CAP then d[at..at + n] else d[at..] + d[..at + n - CAP]
  {
    var at := from % CAP;
    var w := Window(d, from, n);
    forall k | 0 <= k < n ensures w[k] == d[if at + k < CAP then at + k else at + k - CAP] {
      Around(from, k);
    }
  }

  lemma Around(from: nat, k: nat)
    requires k < CAP
    ensures (from + k) % CAP == if from % CAP + k < CAP then from % CAP + k else from % CAP + k - CAP
  {
  }

  // Sizes when a counter moves, in 32-bit arithmetic.
  lemma HeadMovesSize(head: nat, tail: nat, n: nat)
    requires head < WRAP && tail < WRAP && (head - tail) % WRAP + n <= CAP
    ensures ((head + n) % WRAP - tail) % WRAP == (head - tail) % WRAP + n
  {
    var size := (head - tail) % WRAP;
    assert head == tail + size || head == tail + size - WRAP;
    assert (head + n) % WRAP == head + n || (head + n) % WRAP == head + n - WRAP;
  }

  lemma TailMovesSize(head: nat, tail: nat, n: nat)
    requires head < WRAP && tail < WRAP && n <= (head - tail) % WRAP
    ensures (head - (tail + n) % WRAP) % WRAP == (head - tail) % WRAP - n
  {
  }

  lemma TailReturnsSize(head: nat, tail: nat, n: nat)
    requires head < WRAP && tail < WRAP && (head - tail) % WRAP + n <= CAP
    ensures (head - (tail - n) % WRAP) % WRAP == (head - tail) % WRAP + n
  {
  }

  // Moving the tail over `n` bytes, in 32-bit arithmetic.
  lemma TailMoves(d: seq<byte>, tail: nat, size: nat, n: nat)
    requires |d| == CAP && tail < WRAP && n <= size <= CAP
    ensures var t := (tail + n) % WRAP;
            && Window(d, t, size - n) == Window(d, tail, size)[n..]
            && Window(d, t + CAP - n, n) == Window(d, tail, size)[..n]
  {
    TailMovesOn(d, tail, size, n);
    TailMovesOver(d, tail, size, n);
  }

  // The slot of a counter value does not change when the counter wraps.
  lemma WrapKeepsSlot(c: nat, j: nat)
    ensures (c % WRAP + j) % CAP == (c + j) % CAP
  {
  }

  lemma TailMovesOn(d: seq<byte>, tail: nat, size: nat, n: nat)
    requires |d| == CAP && tail < WRAP && n <= size <= CAP
    ensures Window(d, (tail + n) % WRAP, size - n) == Window(d, tail, size)[n..]
  {
    var w, v := Window(d, (tail + n) % WRAP, size - n), Window(d, tail, size);
    forall j | 0 <= j < size - n ensures w[j] == v[n + j] { WrapKeepsSlot(tail + n, j); }
  }

  lemma TailMovesOver(d: seq<byte>, tail: nat, size: nat, n: nat)
    requires |d| == CAP && tail < WRAP && n <= size <= CAP
    ensures Window(d, (tail + n) % WRAP + CAP - n, n) == Window(d, tail, size)[..n]
  {
    var w, v := Window(d, (tail + n) % WRAP + CAP - n, n), Window(d, tail, size);
    forall j | 0 <= j < n ensures w[j] == v[j] { SlotBefore(tail, n, j); }
  }

  lemma SlotBefore(tail: nat, n: nat, j: nat)
    requires j < n <= CAP
    ensures ((tail + n) % WRAP + CAP - n + j) % CAP == (tail + j) % CAP
  {
    WrapKeepsSlot(tail + n, CAP - n + j);
    assert (tail + j + CAP) % CAP == (tail + j) % CAP;
  }

  // ... and back.
  lemma TailReturns(d: seq<byte>, tail: nat, size: nat, n: nat)
    requires |d| == CAP && tail < WRAP && n <= CAP
    ensures var t := (tail - n) % WRAP;
            Window(d, t, n + size) == Window(d, tail + CAP - n, n) + Window(d, tail, size)
  {
    var t := (tail - n) % WRAP;
    assert t == tail - n || t == tail - n + WRAP;
    var w := Window(d, t, n + size);
    forall j | 0 <= j < n + size
      ensures w[j] == (Window(d, tail + CAP - n, n) + Window(d, tail, size))[j]
    {
      if j < n {
        assert (t + j) % CAP == (tail + CAP - n + j) % CAP;
      } else {
        assert (t + j) % CAP == (tail + (j - n)) % CAP;
      }
    }
  }

  // ---------------------------------------------------------------- the buffer

  // A stretch of the array, as in struct iovec.
  datatype Slice = Slice(base: nat, len: nat)

  class Buffer {
    var head: nat
    var tail: nat
    const data: array<byte>

    // The bytes waiting in the buffer, oldest first.
    ghost var held: seq<byte>

    ghost predicate Valid()
      reads this, data
    {
      && data.Length == CAP && head < WRAP && tail < WRAP
      && Size() <= CAP && held == Window(data[..], tail, Size())
    }

    // head - tail in 32-bit arithmetic
    function Size(): nat
      reads this
    {
      (head - tail) % WRAP
    }

    // The last `n` consumed bytes, as they still stand in the array.
    ghost function Behind(n: nat): (s: seq<byte>)
      reads this, data
      requires Valid() && n <= CAP
      ensures |s| == n
    {
      Window(data[..], tail + CAP - n, n)
    }

    lemma HeldFits()
      requires Valid()
      ensures |held| <= CAP
    {
    }

    // A shorter look back sees the end of a longer one.
    lemma BehindLess(n: nat, m: nat)
      requires Valid() && m <= n <= CAP
      ensures Behind(n)[n - m..] == Behind(m)
    {
    }

    constructor (start: nat)
      requires start < WRAP
      ensures Valid() && fresh(data) && held == [] && head == start && tail == start
    {
      head, tail, held := start, start, [];
      data := new byte[CAP];
    }

    // memcpy into the array
    method Store(at: nat, src: seq<byte>)
      requires at + |src| <= data.Length
      modifies data
      ensures forall k :: 0 <= k < data.Length ==> data[k] == if at <= k < at + |src| then src[k - at] else old(data[k])
    {
      var i := 0;
      while i < |src|
        invariant 0 <= i <= |src|
        invariant forall k :: 0 <= k < data.Length ==> data[k] == if at <= k < at + i then src[k - at] else old(data[k])
      {
        data[at + i] := src[i];
        i := i + 1;
      }
    }

    // The two memcpy calls of connection_buffer_put, and of a recvmsg into the free slices.
    method StoreAtHead(src: seq<byte>)
      requires data.Length == CAP && |src| <= CAP
      modifies data
      ensures Written(old(data[..]), data[..], head, src)
    {
      var at := head % CAP;
      if at + |src| <= CAP {
        Store(at, src);
      } else {
        var size := CAP - at;
        Store(at, src[..size]);
        Store(0, src[size..]);
      }
      forall k | 0 <= k < CAP ensures Offset(k, head) == if k >= at then k - at else k - at + CAP {
        OffsetIs(k, head);
      }
    }

    // connection_buffer_put: the caller has checked that the bytes fit, unless they never could.
    method Put(src: seq<byte>) returns (ok: bool)
      requires Valid() && (|src| <= CAP ==> Size() + |src| <= CAP)
      modifies this`head, this`held, data
      ensures Valid() && ok == (|src| <= CAP)
      ensures held == if ok then old(held) + src else old(held)
    {
      if |src| > CAP { return false; }
      StoreAtHead(src);
      Advance(old(data[..]), src);
      return true;
    }

    // head += count, over bytes that stand there already
    method Advance(ghost was: seq<byte>, src: seq<byte>)
      requires data.Length == CAP && head < WRAP && tail < WRAP && Written(was, data[..], head, src)
      requires Size() + |src| <= CAP && held == Window(was, tail, Size())
      modifies this`head, this`held
      ensures Valid() && held == old(held) + src
    {
      WriteAppends(was, data[..], head, tail, src);
      HeadMovesSize(head, tail, |src|);
      head := (head + |src|) % WRAP;
      held := held + src;
    }

    // connection_buffer_copy
    method Copy(count: nat) returns (dst: seq<byte>)
      requires Valid() && count <= Size()
      ensures dst == held[..count]
    {
      var at := tail % CAP;
      if at + count <= CAP {
        dst := data[at..at + count];
      } else {
        var size := CAP - at;
        dst := data[at..] + data[..count - size];
      }
      WindowIsSlices(data[..], tail, count);
      assert held[..count] == Window(data[..], tail, count);
    }

    method Consume(count: nat)
      requires Valid() && count <= Size()
      modifies this`tail, this`held
      ensures Valid() && held == old(held)[count..]
      ensures Behind(count) == old(held)[..count]
    {
      TailMoves(data[..], tail, Size(), count);
      TailMovesSize(head, tail, count);
      tail := (tail + count) % WRAP;
      held := held[count..];
    }

    // connection_buffer_restore undoes a Consume as long as nothing was written since.
    method Restore(count: nat)
      requires Valid() && count + Size() <= CAP
      modifies this`tail, this`held
      ensures Valid() && held == old(Behind(count)) + old(held)
    {
      TailReturns(data[..], tail, Size(), count);
      TailReturnsSize(head, tail, count);
      held := Behind(count) + held;
      tail := (tail - count) % WRAP;
    }

    // What the slices hold, one after the other.
    ghost function Gathered(iov: seq<Slice>): seq<byte>
      reads data
      requires forall s :: s in iov ==> s.base + s.len <= data.Length
    {
      if iov == [] then [] else data[iov[0].base..iov[0].base + iov[0].len] + Gathered(iov[1..])
    }

    // connection_buffer_get_iov: the slices hold exactly the waiting bytes, in order.
    method GetIov() returns (iov: seq<Slice>)
      requires Valid() && Size() > 0
      ensures 1 <= |iov| <= 2 && forall s :: s in iov ==> s.base + s.len <= data.Length
      ensures Gathered(iov) == held
    {
      var h, t := head % CAP, tail % CAP;
      WindowIsSlices(data[..], tail, Size());
      EndsAt(head, tail);
      if t < h {
        iov := [Slice(t, h - t)];
        GatheredOne(Slice(t, h - t));
      } else if h == 0 {
        iov := [Slice(t, CAP - t)];
        GatheredOne(Slice(t, CAP - t));
      } else {
        iov := [Slice(t, CAP - t), Slice(0, h)];
        GatheredTwo(Slice(t, CAP - t), Slice(0, h));
      }
    }

    // connection_buffer_put_iov: the slices are exactly the free slots, in the order of writing.
    method PutIov() returns (iov: seq<Slice>)
      requires Valid() && Size() < CAP
      ensures 1 <= |iov| <= 2 && forall s :: s in iov ==> s.base + s.len <= data.Length
      ensures Gathered(iov) == Window(data[..], head, CAP - Size())
      ensures iov[0].base == head % CAP && iov[0].len == if |iov| == 1 then CAP - Size() else CAP - head % CAP
      ensures |iov| == 2 ==> iov[1] == Slice(0, CAP - Size() - iov[0].len)
    {
      hide Gathered;
      var h, t := head % CAP, tail % CAP;
      WindowIsSlices(data[..], head, CAP - Size());
      EndsAt(head, tail);
      if h < t {
        iov := [Slice(h, t - h)];
        GatheredOne(Slice(h, t - h));
      } else if t == 0 {
        iov := [Slice(h, CAP - h)];
        GatheredOne(Slice(h, CAP - h));
      } else {
        iov := [Slice(h, CAP - h), Slice(0, t)];
        GatheredTwo(Slice(h, CAP - h), Slice(0, t));
      }
    }

    // recvmsg into the free slices, and the head moved over what it filled in
    method Receive(incoming: seq<byte>)
      requires Valid() && Size() < CAP && |incoming| <= CAP - Size()
      modifies this`head, this`held, data
      ensures Valid() && held == old(held) + incoming
    {
      var iov := PutIov();
      if |incoming| <= iov[0].len {
        Store(iov[0].base, incoming);
      } else {
        Store(iov[0].base, incoming[..iov[0].len]);
        Store(iov[1].base, incoming[iov[0].len..]);
      }
      forall k | 0 <= k < CAP
        ensures Offset(k, head) == if k >= head % CAP then k - head % CAP else k - head % CAP + CAP
      {
        OffsetIs(k, head);
      }
      Advance(old(data[..]), incoming);
    }

    lemma GatheredOne(s: Slice)
      requires s.base + s.len <= data.Length
      ensures Gathered([s]) == data[s.base..s.base + s.len]
    {
      assert [s][1..] == [];
    }

    lemma GatheredTwo(s: Slice, u: Slice)
      requires s.base + s.len <= data.Length && u.base + u.len <= data.Length
      ensures Gathered([s, u]) == data[s.base..s.base + s.len] + data[u.base..u.base + u.len]
    {
      assert [s, u][1..] == [u];
      GatheredOne(u);
    }
  }

  // The masked counters determine the size, but for an empty or a full ring.
  lemma EndsAt(head: nat, tail: nat)
    requires head < WRAP && tail < WRAP && (head - tail) % WRAP <= CAP
    ensures var size := (head - tail) % WRAP;
            var h, t := head % CAP, tail % CAP;
            if t < h then size == h - t else if h < t then size == h - t + CAP else size == 0 || size == CAP
  {
  }
}
