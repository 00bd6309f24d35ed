// The two halves of struct connection: bytes and descriptors going out, and coming in.
module Connection {
  import opened Options
  import opened Ring

  // ---------------------------------------------------------------- descriptors as bytes

  // The 32 bits of a descriptor.
  type Fd = x: int | 0 <= x < 0x1_0000_0000

  function EncodeFd(fd: Fd): (b: seq<byte>)
    ensures |b| == 4
  {
    [(fd % 256) as byte, (fd / 256 % 256) as byte, (fd / 0x1_0000 % 256) as byte, (fd / 0x100_0000) as byte]
  }

  function DecodeFd(b: seq<byte>): Fd
    requires |b| == 4
  {
    b[0] as int + 256 * b[1] as int + 0x1_0000 * b[2] as int + 0x100_0000 * b[3] as int
  }

  lemma FdRoundTrip(fd: Fd)
    ensures DecodeFd(EncodeFd(fd)) == fd
  {
    var q, r := fd / 256, fd / 0x1_0000;
    assert fd == 256 * q + fd % 256 && r == q / 256 && q == 256 * r + q % 256;
    assert r == 256 * (fd / 0x100_0000) + r % 256;
  }

  function DecodeFds(b: seq<byte>): (fds: seq<Fd>)
    requires |b| % 4 == 0
    ensures |fds| == |b| / 4
  {
    seq(|b| / 4, i requires 0 <= i < |b| / 4 => DecodeFd(b[4 * i..4 * i + 4]))
  }

  function EncodeFds(fds: seq<Fd>): (b: seq<byte>)
    ensures |b| == 4 * |fds|
  {
    if fds == [] then [] else EncodeFds(fds[..|fds| - 1]) + EncodeFd(fds[|fds| - 1])
  }

  lemma SliceBeyond(a: seq<byte>, b: seq<byte>, k: nat)
    requires k + 4 <= |b|
    ensures (a + b)[|a| + k..|a| + k + 4] == b[k..k + 4]
  {
  }

  lemma DecodeBefore(a: seq<byte>, b: seq<byte>, i: nat)
    requires |a| % 4 == 0 && |b| % 4 == 0 && i < |a| / 4
    ensures DecodeFds(a + b)[i] == DecodeFds(a)[i]
  {
    hide DecodeFd;
    assert (a + b)[4 * i..4 * i + 4] == a[4 * i..4 * i + 4];
  }

  lemma DecodeBehind(a: seq<byte>, b: seq<byte>, i: nat)
    requires |a| % 4 == 0 && |b| % 4 == 0 && i < |b| / 4
    ensures DecodeFds(a + b)[|a| / 4 + i] == DecodeFds(b)[i]
  {
    hide DecodeFd;
    SliceBeyond(a, b, 4 * i);
    assert 4 * (|a| / 4 + i) == |a| + 4 * i;
  }

  lemma DecodeConcat(a: seq<byte>, b: seq<byte>)
    requires |a| % 4 == 0 && |b| % 4 == 0
    ensures DecodeFds(a + b) == DecodeFds(a) + DecodeFds(b)
  {
    hide DecodeFds;
    var m := |a| / 4;
    forall i | 0 <= i < m ensures DecodeFds(a + b)[i] == DecodeFds(a)[i] { DecodeBefore(a, b, i); }
    forall i | m <= i < |DecodeFds(a + b)| ensures DecodeFds(a + b)[i] == DecodeFds(b)[i - m] {
      DecodeBehind(a, b, i - m);
    }
  }

  lemma DecodeOne(fd: Fd)
    ensures DecodeFds(EncodeFd(fd)) == [fd]
  {
    FdRoundTrip(fd);
    assert EncodeFd(fd)[0..4] == EncodeFd(fd);
  }

  lemma {:induction false} FdsRoundTrip(fds: seq<Fd>)
    ensures DecodeFds(EncodeFds(fds)) == fds
  {
    if fds != [] {
      var n := |fds| - 1;
      FdsRoundTrip(fds[..n]);
      DecodeOne(fds[n]);
      DecodeConcat(EncodeFds(fds[..n]), EncodeFd(fds[n]));
    }
  }

  lemma DecodeRest(b: seq<byte>)
    requires |b| % 4 == 0 && b != []
    ensures DecodeFds(b)[0] == DecodeFd(b[..4]) && DecodeFds(b)[1..] == DecodeFds(b[4..])
  {
    assert b == b[..4] + b[4..];
    DecodeConcat(b[..4], b[4..]);
    assert b[..4][0..4] == b[..4];
  }

  // ---------------------------------------------------------------- packets

  // What one successful sendmsg carried.
  datatype Packet = Packet(bytes: seq<byte>, fds: seq<Fd>)

  function BytesOf(ps: seq<Packet>): seq<byte> {
    if ps == [] then [] else BytesOf(ps[..|ps| - 1]) + ps[|ps| - 1].bytes
  }

  function FdsOf(ps: seq<Packet>): seq<Fd> {
    if ps == [] then [] else FdsOf(ps[..|ps| - 1]) + ps[|ps| - 1].fds
  }

  lemma PacketAppended(ps: seq<Packet>, p: Packet)
    ensures BytesOf(ps + [p]) == BytesOf(ps) + p.bytes && FdsOf(ps + [p]) == FdsOf(ps) + p.fds
  {
    assert (ps + [p])[..|ps|] == ps;
  }

  // ---------------------------------------------------------------- queues of descriptors

  // A ring that holds whole descriptors.
  class FdQueue {
    const ring: Buffer
    ghost var queue: seq<Fd>

    ghost predicate Valid()
      reads this, ring, ring.data
    {
      ring.Valid() && |ring.held| % 4 == 0 && queue == DecodeFds(ring.held)
    }

    constructor (start: nat)
      requires start < WRAP
      ensures Valid() && queue == [] && fresh(ring) && fresh(ring.data)
    {
      ring := new Buffer(start);
      queue := [];
    }

    method IsFull() returns (full: bool)
      requires Valid()
      ensures full == (|queue| >= CAP / 4)
    {
      full := ring.Size() >= CAP;
    }

    method Room() returns (n: nat)
      requires Valid()
      ensures n == CAP / 4 - |queue|
    {
      n := (CAP - ring.Size()) / 4;
    }

    method Push(fds: seq<Fd>)
      requires Valid() && |queue| + |fds| <= CAP / 4
      modifies this, ring, ring.data
      ensures Valid() && queue == old(queue) + fds
    {
      FdsRoundTrip(fds);
      DecodeConcat(ring.held, EncodeFds(fds));
      var _ := ring.Put(EncodeFds(fds));
      queue := queue + fds;
    }

    method Pop() returns (r: Option<Fd>)
      requires Valid()
      modifies this, ring, ring.data
      ensures Valid()
      ensures if old(queue) == [] then r == None && queue == []
              else r == Some(old(queue)[0]) && queue == old(queue)[1..]
    {
      if ring.Size() < 4 { return None; }
      DecodeRest(ring.held);
      var bytes := ring.Copy(4);
      ring.Consume(4);
      queue := queue[1..];
      return Some(DecodeFd(bytes));
    }

    // build_cmsg, and the loop over the copied descriptors
    method Peek() returns (fds: seq<Fd>)
      requires Valid()
      ensures fds == queue
    {
      var bytes := ring.Copy(ring.Size());
      assert bytes == ring.held;
      fds := [];
      var idx := 0;
      while idx < |bytes| / 4
        invariant 0 <= idx <= |bytes| / 4 && fds == queue[..idx]
      {
        fds := fds + [DecodeFd(bytes[4 * idx..4 * idx + 4])];
        idx := idx + 1;
      }
    }

    // connection_buffer_close_fds: the descriptors closed, in queue order
    method Close() returns (closed: seq<Fd>)
      requires Valid()
      modifies this, ring, ring.data
      ensures Valid() && queue == [] && closed == old(queue)
    {
      closed := Peek();
      ring.Consume(ring.Size());
      queue := [];
    }
  }

  // ---------------------------------------------------------------- the sending half

  // What the packets of a call have to do with the two queues before (`b0`, `f0`) and after it.
  ghost predicate Sent(b0: seq<byte>, f0: seq<Fd>, added: seq<byte>, ps: seq<Packet>, closed: seq<Fd>,
                       b: seq<byte>, f: seq<Fd>) {
    && BytesOf(ps) + b == b0 + added
    && FdsOf(ps) + f == f0 && closed == FdsOf(ps)
    && (forall i :: 0 <= i < |ps| ==> ps[i].bytes != [] && (i > 0 ==> ps[i].fds == []))
    && (ps != [] ==> f == [])
  }

  // One more packet: it takes the front of the bytes and all the descriptors.
  lemma SentMore(b0: seq<byte>, f0: seq<Fd>, ps: seq<Packet>, closed: seq<Fd>, b: seq<byte>, f: seq<Fd>, n: nat)
    requires Sent(b0, f0, [], ps, closed, b, f) && 0 < n <= |b|
    ensures Sent(b0, f0, [], ps + [Packet(b[..n], f)], closed + f, b[n..], [])
  {
    hide BytesOf, FdsOf;
    var p := Packet(b[..n], f);
    PacketAppended(ps, p);
    assert b == b[..n] + b[n..];
    Associative(BytesOf(ps), b[..n], b[n..]);
    assert forall i :: 0 <= i < |ps| ==> (ps + [p])[i] == ps[i];
  }

  lemma SentAdded(b0: seq<byte>, f0: seq<Fd>, ps: seq<Packet>, closed: seq<Fd>, b: seq<byte>, f: seq<Fd>,
                  added: seq<byte>)
    requires Sent(b0, f0, [], ps, closed, b, f)
    ensures Sent(b0, f0, added, ps, closed, b + added, f)
  {
    assert BytesOf(ps) + (b + added) == (BytesOf(ps) + b) + added;
  }

  // Each sendmsg took as much as the kernel would have, but for the last one if nothing more was left.
  predicate Answered(packets: seq<Packet>, sends: seq<nat>, done: bool) {
    && |packets| <= |sends|
    && forall i :: 0 <= i < |packets| ==>
         |packets[i].bytes| == sends[i] || (done && i == |packets| - 1 && |packets[i].bytes| < sends[i])
  }

  // The kernel took no more.
  predicate Refused(packets: seq<Packet>, sends: seq<nat>) {
    |packets| == |sends| || (|packets| < |sends| && sends[|packets|] == 0)
  }

  class Outgoing {
    const out: Buffer
    const fds: FdQueue
    var wantFlush: bool

    ghost const Repr: set<object>

    ghost predicate Valid()
      reads this, Repr
    {
      && Repr == {this, out, out.data, fds, fds.ring, fds.ring.data}
      && out != fds.ring && out.data != fds.ring.data
      && out.Valid() && fds.Valid()
    }

    constructor (start: nat, fdStart: nat)
      requires start < WRAP && fdStart < WRAP
      ensures Valid() && fresh(Repr) && out.held == [] && fds.queue == [] && !wantFlush
    {
      var o := new Buffer(start);
      var f := new FdQueue(fdStart);
      out, fds, wantFlush := o, f, false;
      Repr := {this, o, o.data, f, f.ring, f.ring.data};
    }

    // One sendmsg that took `len` bytes: the queued descriptors went with it and are closed here.
    method Send(len: nat) returns (p: Packet, closed: seq<Fd>)
      requires Valid() && 0 < len <= |out.held|
      modifies Repr
      ensures Valid() && wantFlush == old(wantFlush)
      ensures p.bytes == old(out.held)[..len] && out.held == old(out.held)[len..]
      ensures p.fds == old(fds.queue) && closed == p.fds && fds.queue == []
    {
      var iov := out.GetIov();
      var carried := fds.Peek();
      var bytes := out.Copy(len);
      assert bytes == out.Gathered(iov)[..len];
      closed := fds.Close();
      out.Consume(len);
      p := Packet(bytes, carried);
    }

    // connection_flush. `sends` answers the sendmsg calls: how many bytes each takes, 0 for a
    // refusal. The packets are what reached the socket.
    method Flush(sends: seq<nat>) returns (ok: bool, packets: seq<Packet>, closed: seq<Fd>)
      requires Valid()
      modifies Repr
      ensures Valid() && Sent(old(out.held), old(fds.queue), [], packets, closed, out.held, fds.queue)
      ensures if old(wantFlush) then ok == (out.held == []) && wantFlush == !ok else ok && packets == [] && !wantFlush
      ensures Answered(packets, sends, out.held == []) && (ok || Refused(packets, sends))
    {
      packets, closed, ok := [], [], true;
      if !wantFlush { return; }
      var i := 0;
      while out.Size() > 0
        invariant Valid() && wantFlush && i == |packets| && Answered(packets, sends, out.held == [])
        invariant Sent(old(out.held), old(fds.queue), [], packets, closed, out.held, fds.queue)
        decreases |out.held|
      {
        var len := if i < |sends| then sends[i] else 0;
        if len == 0 { return false, packets, closed; }
        if len > out.Size() { len := out.Size(); }
        SentMore(old(out.held), old(fds.queue), packets, closed, out.held, fds.queue, len);
        var p, gone := Send(len);
        packets, closed, i := packets + [p], closed + gone, i + 1;
      }
      wantFlush := false;
    }

    // connection_put
    method Put(data: seq<byte>, sends: seq<nat>) returns (ok: bool, packets: seq<Packet>, closed: seq<Fd>)
      requires Valid()
      modifies Repr
      ensures Valid() && (ok ==> wantFlush)
      ensures Sent(old(out.held), old(fds.queue), if ok then data else [], packets, closed, out.held, fds.queue)
      ensures |old(out.held)| + |data| <= CAP ==> ok && packets == []
      ensures Answered(packets, sends, |data| == |out.held| || out.held == [])
      ensures ok || |data| > CAP || Refused(packets, sends)
      ensures ok && |old(out.held)| + |data| > CAP ==> out.held == data
    {
      packets, closed := [], [];
      if out.Size() + |data| > CAP {
        wantFlush := true;
        ok, packets, closed := Flush(sends);
        if !ok { return; }
      }
      SentAdded(old(out.held), old(fds.queue), packets, closed, out.held, fds.queue, data);
      ok := out.Put(data);
      if ok { wantFlush := true; }
    }

    // connection_put_fd
    method PutFd(fd: Fd) returns (ok: bool)
      requires Valid()
      modifies fds, fds.ring, fds.ring.data
      ensures Valid()
      ensures ok == (|old(fds.queue)| < CAP / 4)
      ensures fds.queue == if ok then old(fds.queue) + [fd] else old(fds.queue)
    {
      var full := fds.IsFull();
      if full { return false; }
      fds.Push([fd]);
      return true;
    }
  }

  // ---------------------------------------------------------------- the receiving half

  // What a recvmsg brings: bytes, and control messages with descriptors.
  datatype Received = NothingRead | Got(bytes: seq<byte>, cmsgs: seq<seq<Fd>>)

  function Flatten(cmsgs: seq<seq<Fd>>): seq<Fd> {
    if cmsgs == [] then [] else Flatten(cmsgs[..|cmsgs| - 1]) + cmsgs[|cmsgs| - 1]
  }

  lemma FlattenStep(cmsgs: seq<seq<Fd>>, i: nat)
    requires i < |cmsgs|
    ensures Flatten(cmsgs[..i + 1]) == Flatten(cmsgs[..i]) + cmsgs[i]
  {
    assert cmsgs[..i + 1][..i] == cmsgs[..i];
  }

  // From `k` on, and one more.
  lemma FlattenSlice(cmsgs: seq<seq<Fd>>, k: nat, i: nat)
    requires k <= i < |cmsgs|
    ensures Flatten(cmsgs[k..i + 1]) == Flatten(cmsgs[k..i]) + cmsgs[i]
    ensures Flatten(cmsgs[..i + 1]) == Flatten(cmsgs[..i]) + cmsgs[i]
  {
    assert cmsgs[k..i + 1][..i - k] == cmsgs[k..i];
    FlattenStep(cmsgs, i);
  }

  lemma FlattenEmpty(cmsgs: seq<seq<Fd>>, i: nat)
    requires i <= |cmsgs|
    ensures Flatten(cmsgs[i..i]) == []
  {
  }

  lemma FlattenNone(cmsgs: seq<seq<Fd>>)
    ensures Flatten(cmsgs[..0]) == [] && Flatten(cmsgs[0..0]) == []
  {
  }

  lemma FlattenOne(fds: seq<Fd>)
    ensures Flatten([fds]) == fds
  {
    assert [fds][..0] == [];
  }

  // One control message, after an overflow or not.
  method DecodeCmsg(q: FdQueue, fds: seq<Fd>, overflow: bool) returns (over: bool)
    requires q.Valid()
    modifies q, q.ring, q.ring.data
    ensures q.Valid() && over == (overflow || |old(q.queue)| + |fds| > CAP / 4)
    ensures q.queue == if over then old(q.queue) else old(q.queue) + fds
  {
    var room := q.Room();
    over := |fds| > room || overflow;
    if !over { q.Push(fds); }
  }

  // Of these control messages the first `kept` went onto the queue, as many as fit in a row; the
  // descriptors of all the others are closed.
  predicate Admits(q: seq<Fd>, cmsgs: seq<seq<Fd>>, kept: nat, r: seq<Fd>, closed: seq<Fd>) {
    && kept <= |cmsgs| && r == q + Flatten(cmsgs[..kept]) && closed == Flatten(cmsgs[kept..])
    && |r| <= CAP / 4 && (kept < |cmsgs| ==> |r| + |cmsgs[kept]| > CAP / 4)
  }

  lemma {:induction false} FlattenSplits(a: seq<seq<Fd>>, b: seq<seq<Fd>>)
    ensures Flatten(a + b) == Flatten(a) + Flatten(b)
  {
    if b == [] {
      assert a + b == a;
    } else {
      var n := |b| - 1;
      FlattenSplits(a, b[..n]);
      assert (a + b)[..|a| + n] == a + b[..n];
    }
  }

  // All of them go onto the queue exactly if there is room for all; of a single one, all or nothing.
  lemma AdmitsAll(q: seq<Fd>, cmsgs: seq<seq<Fd>>, kept: nat, r: seq<Fd>, closed: seq<Fd>)
    requires Admits(q, cmsgs, kept, r, closed)
    ensures r + closed == q + Flatten(cmsgs) && (kept == |cmsgs| ==> closed == [])
    ensures kept == |cmsgs| <==> |q| + |Flatten(cmsgs)| <= CAP / 4
    ensures kept < |cmsgs| && |cmsgs| == 1 ==> r == q
  {
    hide Flatten;
    assert cmsgs == cmsgs[..kept] + cmsgs[kept..];
    FlattenSplits(cmsgs[..kept], cmsgs[kept..]);
    if kept < |cmsgs| {
      assert cmsgs[kept..] == [cmsgs[kept]] + cmsgs[kept + 1..];
      FlattenSplits([cmsgs[kept]], cmsgs[kept + 1..]);
      FlattenOne(cmsgs[kept]);
      FlattenNone(cmsgs);
    } else {
      assert cmsgs[kept..] == cmsgs[kept..kept];
      FlattenEmpty(cmsgs, kept);
    }
  }

  // decode_cmsg: descriptors that do not fit are closed, and so are all that come after them.
  method Decode(q: FdQueue, cmsgs: seq<seq<Fd>>) returns (overflow: bool, closed: seq<Fd>, ghost kept: nat)
    requires q.Valid()
    modifies q, q.ring, q.ring.data
    ensures q.Valid() && Admits(old(q.queue), cmsgs, kept, q.queue, closed) && overflow == (kept < |cmsgs|)
  {
    hide FdQueue.Valid, Flatten;
    var room := q.Room();
    overflow, closed, kept := false, [], 0;
    var i := 0;
    FlattenNone(cmsgs);
    while i < |cmsgs|
      invariant 0 <= i <= |cmsgs| && q.Valid() && kept <= i && overflow == (kept < i) && |q.queue| <= CAP / 4
      invariant q.queue == old(q.queue) + Flatten(cmsgs[..kept]) && closed == Flatten(cmsgs[kept..i])
      invariant overflow ==> |q.queue| + |cmsgs[kept]| > CAP / 4
    {
      FlattenSlice(cmsgs, kept, i);
      ghost var was := overflow;
      overflow := DecodeCmsg(q, cmsgs[i], overflow);
      if overflow { closed := closed + cmsgs[i]; }
      i := i + 1;
      if !overflow {
        kept := i;
        FlattenEmpty(cmsgs, i);
      }
    }
    assert cmsgs[kept..i] == cmsgs[kept..];
  }

  class Incoming {
    const input: Buffer
    const fds: FdQueue

    ghost const Repr: set<object>

    ghost predicate Valid()
      reads this, Repr
    {
      && Repr == {this, input, input.data, fds, fds.ring, fds.ring.data}
      && input != fds.ring && input.data != fds.ring.data
      && input.Valid() && fds.Valid()
    }

    constructor (start: nat, fdStart: nat)
      requires start < WRAP && fdStart < WRAP
      ensures Valid() && fresh(Repr) && input.held == [] && fds.queue == []
    {
      var i := new Buffer(start);
      var f := new FdQueue(fdStart);
      input, fds := i, f;
      Repr := {this, i, i.data, f, f.ring, f.ring.data};
    }

    // connection_read. The kernel fills at most the free slices.
    method Read(r: Received) returns (n: Option<nat>, closed: seq<Fd>)
      requires Valid() && (r.Got? ==> |input.held| + |r.bytes| <= CAP)
      modifies Repr
      ensures Valid()
      ensures n.Some? <==> |old(input.held)| < CAP && r.Got? && |old(fds.queue)| + |Flatten(r.cmsgs)| <= CAP / 4
      ensures r.Got? && |old(input.held)| < CAP ==>
              exists kept: nat :: Admits(old(fds.queue), r.cmsgs, kept, fds.queue, closed)
      ensures n.Some? ==> input.held == old(input.held) + r.bytes && n.value == |input.held|
      ensures n.Some? ==> fds.queue == old(fds.queue) + Flatten(r.cmsgs) && closed == []
      ensures n.None? ==> input.held == old(input.held)
      ensures n.None? && (r.Got? ==> |r.cmsgs| == 1) ==> fds.queue == old(fds.queue)
      ensures n.None? && r.Got? && |old(input.held)| < CAP ==> fds.queue + closed == old(fds.queue) + Flatten(r.cmsgs)
    {
      closed := [];
      if input.Size() >= CAP || r.NothingRead? { return None, closed; }
      var overflow;
      ghost var kept;
      overflow, closed, kept := Decode(fds, r.cmsgs);
      AdmitsAll(old(fds.queue), r.cmsgs, kept, fds.queue, closed);
      if overflow { return None, closed; }
      input.Receive(r.bytes);
      return Some(input.Size()), closed;
    }

    // connection_get
    method Get(count: nat) returns (r: Option<seq<byte>>)
      requires Valid()
      modifies input
      ensures Valid()
      ensures r.Some? <==> count <= |old(input.held)|
      ensures r.Some? ==> r.value == old(input.held)[..count] && input.held == old(input.held)[count..]
      ensures r.Some? ==> count + |input.held| <= CAP && input.Behind(count) == r.value
      ensures r.None? ==> input.held == old(input.held)
    {
      if count > input.Size() { return None; }
      var bytes := input.Copy(count);
      input.Consume(count);
      return Some(bytes);
    }

    // connection_pending
    method Pending() returns (n: nat)
      requires Valid()
      ensures n == |input.held|
    {
      n := input.Size();
    }

    // connection_restore
    method Restore(count: nat)
      requires Valid() && count + |input.held| <= CAP
      modifies input
      ensures Valid() && input.held == old(input.Behind(count)) + old(input.held)
    {
      input.Restore(count);
    }

    // connection_get_fd
    method GetFd() returns (r: Option<Fd>)
      requires Valid()
      modifies fds, fds.ring, fds.ring.data
      ensures Valid()
      ensures if old(fds.queue) == [] then r == None && fds.queue == []
              else r == Some(old(fds.queue)[0]) && fds.queue == old(fds.queue)[1..]
    {
      r := fds.Pop();
    }
  }
}
