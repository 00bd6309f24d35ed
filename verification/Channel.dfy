// Two connections joined by a socket: what goes in at one end comes out at the other.
module Channel {
  import opened Options
  import opened Ring
  import opened Connection

  // A descriptor and the number of bytes that had entered the stream before it.
  datatype Stamped = Stamped(at: nat, fd: Fd)

  function Ids(fds: seq<Stamped>): (r: seq<Fd>)
    ensures |r| == |fds| && forall i :: 0 <= i < |fds| ==> r[i] == fds[i].fd
  {
    seq(|fds|, i requires 0 <= i < |fds| => fds[i].fd)
  }

  function StampAll(fds: seq<Fd>, at: nat): (r: seq<Stamped>)
    ensures |r| == |fds| && forall i :: 0 <= i < |fds| ==> r[i] == Stamped(at, fds[i])
  {
    seq(|fds|, i requires 0 <= i < |fds| => Stamped(at, fds[i]))
  }

  // The life of the descriptors accepted so far: the first `arrived` are at the receiver, the next
  // ones on the wire, each stamped with the start of the send that carries it, the rest unsent.
  ghost predicate Timely(accepted: seq<Stamped>, arrived: nat, wire: seq<Stamped>, received: nat, sent: nat) {
    && arrived + |wire| <= |accepted|
    && Ordered(wire) && Between(wire, received, sent)
    && (forall k :: arrived <= k < |accepted| ==>
        accepted[k].at >= if k < arrived + |wire| then wire[k - arrived].at else sent)
  }

  ghost predicate Ordered(wire: seq<Stamped>) {
    forall i, j :: 0 <= i < j < |wire| ==> wire[i].at <= wire[j].at
  }

  ghost predicate Between(wire: seq<Stamped>, received: nat, sent: nat) {
    forall i :: 0 <= i < |wire| ==> received <= wire[i].at < sent
  }

  // A descriptor accepted before a byte that has been received has arrived as well.
  lemma ArrivesInTime(accepted: seq<Stamped>, arrived: nat, wire: seq<Stamped>, received: nat, sent: nat, k: nat)
    requires Timely(accepted, arrived, wire, received, sent) && received <= sent
    requires k < |accepted| && accepted[k].at < received
    ensures k < arrived
  {
  }

  lemma AcceptKeepsTimely(accepted: seq<Stamped>, arrived: nat, wire: seq<Stamped>, received: nat, sent: nat,
                          fd: Stamped)
    requires Timely(accepted, arrived, wire, received, sent) && fd.at >= sent
    ensures Timely(accepted + [fd], arrived, wire, received, sent)
  {
  }

  lemma OrderedOn(wire: seq<Stamped>, rest: seq<Stamped>, sent: nat)
    requires Ordered(wire) && (forall i :: 0 <= i < |wire| ==> wire[i].at < sent)
    requires forall i :: 0 <= i < |rest| ==> rest[i].at == sent
    ensures Ordered(wire + rest)
  {
  }

  // A send of at least one byte takes every unsent descriptor with it.
  lemma SendKeepsTimely(accepted: seq<Stamped>, arrived: nat, wire: seq<Stamped>, rest: seq<Stamped>,
                        received: nat, sent: nat, n: nat)
    requires Timely(accepted, arrived, wire, received, sent) && received <= sent && n > 0
    requires arrived + |wire| + |rest| == |accepted| && forall i :: 0 <= i < |rest| ==> rest[i].at == sent
    ensures Timely(accepted, arrived, wire + rest, received, sent + n)
  {
    OrderedOn(wire, rest, sent);
  }

  lemma DropKeepsTimely(accepted: seq<Stamped>, arrived: nat, wire: seq<Stamped>, received: nat, sent: nat,
                        k: nat, now: nat)
    requires Timely(accepted, arrived, wire, received, sent)
    requires k <= |wire| && forall i :: k <= i < |wire| ==> wire[i].at >= now
    ensures Timely(accepted, arrived + k, wire[k..], now, sent)
  {
    var w := wire[k..];
    assert forall i :: 0 <= i < |w| ==> w[i] == wire[k + i];
  }

  // ---------------------------------------------------------------- conservation

  // Everything that has to do with the flow of a pair, as values.
  datatype Stream = Stream(
    put: seq<byte>, got: seq<byte>, input: seq<byte>, wire: seq<byte>, out: seq<byte>, received: nat, sent: nat)

  datatype FdStream = FdStream(
    accepted: seq<Stamped>, got: seq<Fd>, input: seq<Fd>, wire: seq<Stamped>, out: seq<Fd>, closed: seq<Fd>)

  // Bytes put in = bytes taken out, then those at the receiver, in the socket and at the sender.
  ghost predicate Flow(x: Stream) {
    && x.put == x.got + x.input + x.wire + x.out
    && x.received == |x.got| + |x.input| && x.sent == x.received + |x.wire|
  }

  // The same for descriptors; the sender has closed exactly those it has handed over.
  ghost predicate FdBalance(f: FdStream) {
    && Ids(f.accepted) == f.got + f.input + Ids(f.wire) + f.out
    && f.closed == f.got + f.input + Ids(f.wire)
  }

  ghost predicate FdFlow(f: FdStream, received: nat, sent: nat) {
    FdBalance(f) && FdTimely(f, received, sent)
  }

  ghost predicate FdTimely(f: FdStream, received: nat, sent: nat) {
    Timely(f.accepted, |f.got| + |f.input|, f.wire, received, sent)
  }

  lemma IdsConcat(a: seq<Stamped>, b: seq<Stamped>)
    ensures Ids(a + b) == Ids(a) + Ids(b)
  {
  }

  lemma IdsStampAll(fds: seq<Fd>, at: nat)
    ensures Ids(StampAll(fds, at)) == fds
  {
  }

  lemma FdAccepted(f: FdStream, received: nat, sent: nat, fd: Stamped)
    requires FdFlow(f, received, sent) && fd.at >= sent
    ensures FdFlow(f.(accepted := f.accepted + [fd], out := f.out + [fd.fd]), received, sent)
  {
    IdsConcat(f.accepted, [fd]);
    AcceptKeepsTimely(f.accepted, |f.got| + |f.input|, f.wire, received, sent, fd);
  }

  // A call put `added` in and sent the packets.
  lemma FlowSent(x: Stream, added: seq<byte>, packets: seq<Packet>, closed: seq<Fd>, f0: seq<Fd>,
                 b: seq<byte>, f: seq<Fd>)
    requires Flow(x) && Sent(x.out, f0, added, packets, closed, b, f)
    ensures Flow(x.(put := x.put + added, wire := x.wire + BytesOf(packets),
                    out := b, sent := x.sent + |BytesOf(packets)|))
  {
    var front, sent := x.got + x.input, BytesOf(packets);
    assert x.put + added == front + (x.wire + (x.out + added));
    assert front + (x.wire + sent) + b == front + (x.wire + (sent + b));
  }

  lemma {:induction false} NonemptyBytes(ps: seq<Packet>)
    requires ps != [] && forall i :: 0 <= i < |ps| ==> ps[i].bytes != []
    ensures BytesOf(ps) != []
  {
  }

  lemma FdBalanceSent(f: FdStream, moved: seq<Stamped>)
    requires FdBalance(f) && Ids(moved) == f.out
    ensures FdBalance(f.(wire := f.wire + moved, out := [], closed := f.closed + f.out))
  {
    IdsConcat(f.wire, moved);
    var front, w := f.got + f.input, Ids(f.wire);
    assert front + (w + f.out) == front + w + f.out;
    assert front + (w + f.out) + [] == front + (w + f.out);
  }

  lemma LengthsAdd(f: FdStream)
    requires FdBalance(f)
    ensures |f.got| + |f.input| + |f.wire| + |f.out| == |f.accepted|
  {
    assert |Ids(f.accepted)| == |f.accepted|;
  }

  lemma FdTimelySent(f: FdStream, received: nat, sent: nat, n: nat)
    requires FdFlow(f, received, sent) && received <= sent && n > 0
    ensures FdTimely(f.(wire := f.wire + StampAll(f.out, sent), out := [], closed := f.closed + f.out),
                     received, sent + n)
  {
    hide Timely, FdBalance;
    LengthsAdd(f);
    SendKeepsTimely(f.accepted, |f.got| + |f.input|, f.wire, StampAll(f.out, sent), received, sent, n);
  }

  lemma FdFlowSentAll(f: FdStream, received: nat, sent: nat, n: nat)
    requires FdFlow(f, received, sent) && received <= sent && n > 0
    ensures FdFlow(f.(wire := f.wire + StampAll(f.out, sent), out := [], closed := f.closed + f.out),
                   received, sent + n)
  {
    FdTimelySent(f, received, sent, n);
    IdsStampAll(f.out, sent);
    FdBalanceSent(f, StampAll(f.out, sent));
  }

  // The first packet takes all descriptors along.
  lemma AllSent(b0: seq<byte>, f0: seq<Fd>, added: seq<byte>, packets: seq<Packet>, closed: seq<Fd>,
                b: seq<byte>, out: seq<Fd>)
    requires Sent(b0, f0, added, packets, closed, b, out) && packets != []
    ensures out == [] && closed == f0 && FdsOf(packets) == f0
  {
    assert FdsOf(packets) + [] == FdsOf(packets);
  }

  lemma FdFlowSent(f: FdStream, received: nat, sent: nat, b0: seq<byte>, added: seq<byte>,
                   packets: seq<Packet>, closed: seq<Fd>, b: seq<byte>, out: seq<Fd>)
    requires FdFlow(f, received, sent) && received <= sent && Sent(b0, f.out, added, packets, closed, b, out)
    ensures FdFlow(f.(wire := f.wire + StampAll(FdsOf(packets), sent), out := out, closed := f.closed + closed),
                   received, sent + |BytesOf(packets)|)
  {
    hide FdFlow;
    if packets == [] {
      assert FdsOf(packets) == [] && BytesOf(packets) == [] && closed == [] && [] + out == out;
      NothingSent(f, sent);
    } else {
      NonemptyBytes(packets);
      AllSent(b0, f.out, added, packets, closed, b, out);
      FdFlowSentAll(f, received, sent, |BytesOf(packets)|);
    }
  }

  lemma NothingSent(f: FdStream, sent: nat)
    ensures f.(wire := f.wire + StampAll([], sent), out := f.out, closed := f.closed + []) == f
  {
    assert f.wire + StampAll([], sent) == f.wire && f.closed + [] == f.closed;
  }

  // The receiver takes `n` bytes off the socket, and the descriptors that travel with them.
  lemma FlowReceived(x: Stream, n: nat)
    requires Flow(x) && n <= |x.wire|
    ensures Flow(x.(input := x.input + x.wire[..n], wire := x.wire[n..], received := x.received + n))
  {
    assert x.wire == x.wire[..n] + x.wire[n..];
    assert x.input + x.wire[..n] + x.wire[n..] == x.input + x.wire;
  }

  lemma FdBalanceReceived(f: FdStream, k: nat)
    requires FdBalance(f) && k <= |f.wire|
    ensures FdBalance(f.(input := f.input + Ids(f.wire[..k]), wire := f.wire[k..]))
  {
    IdsConcat(f.wire[..k], f.wire[k..]);
    assert f.wire == f.wire[..k] + f.wire[k..];
    var a, b := Ids(f.wire[..k]), Ids(f.wire[k..]);
    assert f.got + f.input + (a + b) == f.got + (f.input + a) + b;
  }

  lemma FdTimelyReceived(f: FdStream, received: nat, sent: nat, k: nat, now: nat)
    requires FdTimely(f, received, sent) && k <= |f.wire| && forall i :: k <= i < |f.wire| ==> f.wire[i].at >= now
    ensures FdTimely(f.(input := f.input + Ids(f.wire[..k]), wire := f.wire[k..]), now, sent)
  {
    DropKeepsTimely(f.accepted, |f.got| + |f.input|, f.wire, received, sent, k, now);
  }

  lemma FdFlowReceived(f: FdStream, received: nat, sent: nat, k: nat, now: nat)
    requires FdFlow(f, received, sent) && k <= |f.wire| && forall i :: k <= i < |f.wire| ==> f.wire[i].at >= now
    ensures FdFlow(f.(input := f.input + Ids(f.wire[..k]), wire := f.wire[k..]), now, sent)
  {
    FdTimelyReceived(f, received, sent, k, now);
    FdBalanceReceived(f, k);
  }

  lemma FlowTaken(x: Stream, n: nat)
    requires Flow(x) && n <= |x.input|
    ensures Flow(x.(got := x.got + x.input[..n], input := x.input[n..]))
  {
    assert x.got + x.input == x.got + x.input[..n] + x.input[n..];
  }

  lemma FlowRestored(x: Stream, n: nat)
    requires Flow(x) && n <= |x.got|
    ensures Flow(x.(got := x.got[..|x.got| - n], input := x.got[|x.got| - n..] + x.input))
  {
    var m := |x.got| - n;
    assert x.got + x.input == x.got[..m] + (x.got[m..] + x.input);
  }

  lemma FdFlowTaken(f: FdStream, received: nat, sent: nat)
    requires FdFlow(f, received, sent) && f.input != []
    ensures FdFlow(f.(got := f.got + [f.input[0]], input := f.input[1..]), received, sent)
  {
    var first, rest := [f.input[0]], f.input[1..];
    assert f.input == first + rest;
    assert f.got + f.input == f.got + first + rest;
  }

  lemma FlowSentIsSent(x: Stream)
    requires Flow(x)
    ensures x.received <= x.sent
  {
  }

  // Both flows after a call that sent packets, and after a read.
  lemma AfterSend(x: Stream, f: FdStream, added: seq<byte>, packets: seq<Packet>, gone: seq<Fd>,
                  b: seq<byte>, out: seq<Fd>)
    returns (y: Stream, g: FdStream)
    requires Flow(x) && FdFlow(f, x.received, x.sent) && Sent(x.out, f.out, added, packets, gone, b, out)
    ensures y ==
            x.(put := x.put + added, wire := x.wire + BytesOf(packets), out := b, sent := x.sent + |BytesOf(packets)|)
    ensures g == f.(wire := f.wire + StampAll(FdsOf(packets), x.sent), out := out, closed := f.closed + gone)
    ensures Flow(y) && FdFlow(g, y.received, y.sent)
  {
    FlowSentIsSent(x);
    hide Flow, FdFlow, Sent;
    y := x.(put := x.put + added, wire := x.wire + BytesOf(packets), out := b, sent := x.sent + |BytesOf(packets)|);
    g := f.(wire := f.wire + StampAll(FdsOf(packets), x.sent), out := out, closed := f.closed + gone);
    FlowSent(x, added, packets, gone, f.out, b, out);
    FdFlowSent(f, x.received, x.sent, x.out, added, packets, gone, b, out);
  }

  lemma AfterRead(x: Stream, len: nat) returns (y: Stream)
    requires Flow(x) && len <= |x.wire|
    ensures y == x.(input := x.input + x.wire[..len], wire := x.wire[len..], received := x.received + len) && Flow(y)
  {
    y := x.(input := x.input + x.wire[..len], wire := x.wire[len..], received := x.received + len);
    FlowReceived(x, len);
  }

  lemma AfterFdRead(f: FdStream, received: nat, sent: nat, k: nat, now: nat) returns (g: FdStream)
    requires FdFlow(f, received, sent) && k <= |f.wire| && forall i :: k <= i < |f.wire| ==> f.wire[i].at >= now
    ensures g == f.(input := f.input + Ids(f.wire[..k]), wire := f.wire[k..]) && FdFlow(g, now, sent)
  {
    g := f.(input := f.input + Ids(f.wire[..k]), wire := f.wire[k..]);
    FdFlowReceived(f, received, sent, k, now);
  }

  lemma AfterGet(x: Stream, n: nat) returns (y: Stream)
    requires Flow(x) && n <= |x.input|
    ensures y == x.(got := x.got + x.input[..n], input := x.input[n..]) && Flow(y)
    ensures n <= |y.got| && Last(y.got, n) == x.input[..n]
  {
    y := x.(got := x.got + x.input[..n], input := x.input[n..]);
    FlowTaken(x, n);
  }

  // The last `n` bytes.
  function Last(s: seq<byte>, n: nat): seq<byte>
    requires n <= |s|
  {
    s[|s| - n..]
  }

  lemma LastOfLast(s: seq<byte>, n: nat, m: nat)
    requires m <= n <= |s|
    ensures |Last(s, n)| == n && Last(Last(s, n), m) == Last(s, m)
  {
  }

  // What was taken out last goes back in front.
  lemma AfterRestore(x: Stream, count: nat) returns (y: Stream)
    requires Flow(x) && count <= |x.got|
    ensures y == x.(got := x.got[..|x.got| - count], input := Last(x.got, count) + x.input) && Flow(y)
  {
    y := x.(got := x.got[..|x.got| - count], input := Last(x.got, count) + x.input);
    FlowRestored(x, count);
  }

  lemma AfterAccept(x: Stream, f: FdStream, fd: Fd) returns (g: FdStream)
    requires Flow(x) && FdFlow(f, x.received, x.sent)
    ensures g == f.(accepted := f.accepted + [Stamped(|x.put|, fd)], out := f.out + [fd])
    ensures FdFlow(g, x.received, x.sent)
  {
    g := f.(accepted := f.accepted + [Stamped(|x.put|, fd)], out := f.out + [fd]);
    FdAccepted(f, x.received, x.sent, Stamped(|x.put|, fd));
  }

  // The k-th descriptor belongs to bytes put in right after it was accepted. As soon as one of them
  // has been received, the descriptor has been received too, and it is the k-th one received.
  lemma DescriptorComesFirst(x: Stream, f: FdStream, k: nat)
    requires Flow(x) && FdFlow(f, x.received, x.sent)
    requires k < |f.accepted| && f.accepted[k].at < x.received
    ensures k < |f.got + f.input| && (f.got + f.input)[k] == f.accepted[k].fd
  {
    ArrivesInTime(f.accepted, |f.got| + |f.input|, f.wire, x.received, x.sent, k);
    assert Ids(f.accepted)[k] == f.accepted[k].fd;
  }

  // The sender has closed what it handed over and still holds the rest.
  lemma ClosedOrHeld(f: FdStream, received: nat, sent: nat)
    requires FdFlow(f, received, sent)
    ensures f.closed + f.out == Ids(f.accepted)
  {
  }

  // ---------------------------------------------------------------- the pair

  class Pair {
    const tx: Outgoing
    const rx: Incoming
    var wire: seq<byte>         // bytes in the socket
    var wireFds: seq<Stamped>   // descriptors in the socket, at the byte they travel with
    var sent: nat
    var received: nat
    var broken: bool            // the receiver had no room for the descriptors it was sent

    // The flow so far: everything put in and taken out, and what is on its way.
    ghost var x: Stream
    ghost var f: FdStream
    // How much of what was taken out last may still be restored.
    ghost var undo: nat

    ghost predicate Shape()
      reads this, tx, tx.Repr, rx, rx.Repr
    {
      tx.Valid() && rx.Valid() && tx.Repr !! rx.Repr && this !in tx.Repr && this !in rx.Repr
    }

    // The histories describe the rings and the socket as they are.
    ghost predicate Current()
      reads this, tx.out, tx.fds, rx.input, rx.fds
    {
      && x.input == rx.input.held && x.wire == wire && x.out == tx.out.held
      && x.received == received && x.sent == sent
      && f.input == rx.fds.queue && f.wire == wireFds && f.out == tx.fds.queue
    }

    ghost predicate Undoable()
      reads this, rx, rx.Repr
      requires rx.Valid()
    {
      undo > 0 ==>
        undo <= |x.got| && undo + |rx.input.held| <= CAP && rx.input.Behind(undo) == Last(x.got, undo)
    }

    ghost predicate Valid()
      reads this, tx, tx.Repr, rx, rx.Repr
    {
      Shape() && (!broken ==> Current() && Flow(x) && FdFlow(f, received, sent) && Undoable())
    }

    constructor (a: nat, b: nat, c: nat, d: nat)
      requires a < WRAP && b < WRAP && c < WRAP && d < WRAP
      ensures Valid() && !broken && x == Stream([], [], [], [], [], 0, 0) && f == FdStream([], [], [], [], [], [])
      ensures fresh(tx.Repr) && fresh(rx.Repr)
    {
      tx := new Outgoing(a, b);
      rx := new Incoming(c, d);
      wire, wireFds, sent, received, broken := [], [], 0, 0, false;
      x, f, undo := Stream([], [], [], [], [], 0, 0), FdStream([], [], [], [], [], []), 0;
    }

    // The sender queues a descriptor.
    method PutFd(fd: Fd) returns (ok: bool)
      requires Valid() && !broken
      modifies this, tx.Repr
      ensures Valid() && !broken && x == old(x) && f.got == old(f.got)
      ensures f.accepted == old(f.accepted) + if ok then [Stamped(|x.put|, fd)] else []
    {
      hide Flow, FdFlow, FdQueue.Valid;
      ok := tx.PutFd(fd);
      if ok { f := AfterAccept(x, f, fd); }
    }

    // The socket takes what a call sent; descriptors travel with the first byte of it.
    method Carry(packets: seq<Packet>, ghost y: Stream, ghost g: FdStream)
      modifies this`wire, this`wireFds, this`sent, this`x, this`f
      ensures wire == old(wire) + BytesOf(packets) && sent == old(sent) + |BytesOf(packets)|
      ensures wireFds == old(wireFds) + StampAll(FdsOf(packets), old(sent)) && x == y && f == g
    {
      wireFds := wireFds + StampAll(FdsOf(packets), sent);
      wire := wire + BytesOf(packets);
      sent := sent + |BytesOf(packets)|;
      x, f := y, g;
    }

    // The sender puts bytes in; `sends` answers its sendmsg calls.
    method Put(data: seq<byte>, sends: seq<nat>) returns (ok: bool)
      requires Valid() && !broken
      modifies this, tx.Repr
      ensures Valid() && !broken && x.got == old(x.got) && f.accepted == old(f.accepted) && f.got == old(f.got)
      ensures x.put == old(x.put) + if ok then data else []
    {
      hide Flow, FdFlow, FdQueue.Valid;
      var packets, gone;
      ok, packets, gone := tx.Put(data, sends);
      ghost var y, g := AfterSend(x, f, if ok then data else [], packets, gone, tx.out.held, tx.fds.queue);
      Carry(packets, y, g);
    }

    method Flush(sends: seq<nat>) returns (ok: bool)
      requires Valid() && !broken
      modifies this, tx.Repr
      ensures Valid() && !broken && x.got == old(x.got) && f.accepted == old(f.accepted) && f.got == old(f.got)
      ensures x.put == old(x.put)
    {
      hide Flow, FdFlow, FdQueue.Valid;
      var packets, gone;
      ok, packets, gone := tx.Flush(sends);
      ghost var y, g := AfterSend(x, f, [], packets, gone, tx.out.held, tx.fds.queue);
      Carry(packets, y, g);
    }

    // How many descriptors travel with the next `n` bytes.
    method CountFds(n: nat) returns (k: nat)
      requires Ordered(wireFds)
      ensures k <= |wireFds| && forall i :: k <= i < |wireFds| ==> wireFds[i].at >= received + n
    {
      k := 0;
      while k < |wireFds| && wireFds[k].at < received + n
        invariant 0 <= k <= |wireFds|
      {
        k := k + 1;
      }
    }

    // recvmsg and what connection_read makes of it.
    method TakeOff(len: nat, k: nat) returns (ok: bool, closed: seq<Fd>)
      requires Shape() && len <= |wire| && len + |rx.input.held| <= CAP && |rx.input.held| < CAP && k <= |wireFds|
      modifies rx.Repr
      ensures Shape() && (ok <==> |old(rx.fds.queue)| + k <= CAP / 4) && (ok ==> closed == [])
      ensures rx.input.held == old(rx.input.held) + if ok then wire[..len] else []
      ensures rx.fds.queue + closed == old(rx.fds.queue) + Ids(wireFds[..k])
      ensures tx.out.held == old(tx.out.held) && tx.fds.queue == old(tx.fds.queue)
    {
      var fds := Ids(wireFds[..k]);
      FlattenOne(fds);
      var r;
      r, closed := rx.Read(Got(wire[..len], [fds]));
      ok := r.Some?;
    }

    // The receiver reads `len` bytes and the `k` descriptors that travel with them.
    method TakeIn(len: nat, k: nat) returns (closed: seq<Fd>)
      requires Valid() && !broken && len <= |wire| && len + |rx.input.held| <= CAP && |rx.input.held| < CAP
      requires k <= |wireFds|
      requires undo == 0 && forall i :: k <= i < |wireFds| ==> wireFds[i].at >= received + len
      modifies this, rx.Repr
      ensures Valid() && wire == old(wire)[len..] && wireFds == old(wireFds)[k..]
      ensures broken <==> |old(rx.fds.queue)| + k > CAP / 4
      ensures rx.input.held == old(rx.input.held) + if broken then [] else old(wire)[..len]
      ensures rx.fds.queue + closed == old(rx.fds.queue) + Ids(old(wireFds)[..k])
      ensures !broken ==> closed == []
      ensures !broken ==>
              x.put == old(x.put) && x.got == old(x.got) && f.accepted == old(f.accepted) && f.got == old(f.got)
    {
      hide Flow, FdFlow, Buffer.Valid, Buffer.Behind;
      var ok;
      ok, closed := TakeOff(len, k);
      if ok {
        f := AfterFdRead(f, received, sent, k, received + len);
        x := AfterRead(x, len);
      }
      broken := !ok;
      wire, wireFds, received := wire[len..], wireFds[k..], received + len;
    }

    // The receiver reads up to `n` bytes, as many as fit, and the `k` descriptors that travel with
    // them. If it has no room for those, each is queued or closed and the bytes are lost.
    method Read(n: nat) returns (len: nat, k: nat, closed: seq<Fd>)
      requires Valid() && !broken
      modifies this, rx.Repr
      ensures Valid() && len <= n && len <= |old(wire)| && k <= |old(wireFds)|
      ensures wire == old(wire)[len..] && wireFds == old(wireFds)[k..]
      ensures broken <==> |old(rx.fds.queue)| + k > CAP / 4
      ensures rx.input.held == old(rx.input.held) + if broken then [] else old(wire)[..len]
      ensures rx.fds.queue + closed == old(rx.fds.queue) + Ids(old(wireFds)[..k])
      ensures !broken ==> closed == []
      ensures !broken ==>
              x.put == old(x.put) && x.got == old(x.got) && f.accepted == old(f.accepted) && f.got == old(f.got)
    {
      undo, len, k, closed := 0, 0, 0, [];
      var room := CAP - rx.input.Size();
      if room == 0 { return; }
      len := if n <= |wire| then n else |wire|;
      if len > room { len := room; }
      k := CountFds(len);
      closed := TakeIn(len, k);
    }

    // The receiver takes bytes out.
    method Get(count: nat) returns (r: Option<seq<byte>>)
      requires Valid() && !broken
      modifies this`x, this`undo, rx.input
      ensures Valid() && !broken && f == old(f) && x.put == old(x.put)
      ensures r.Some? ==> |r.value| == count && x.got == old(x.got) + r.value && undo == count
      ensures r.None? ==> x == old(x)
    {
      hide Flow, FdFlow, Last, Buffer.Valid, FdQueue.Valid, Window;
      r := rx.Get(count);
      undo := 0;
      if r.Some? {
        ghost var y := AfterGet(x, count);
        x, undo := y, count;
      }
    }

    // The receiver puts back what it has just taken out, or the end of it.
    method Restore(count: nat)
      requires Valid() && !broken && count <= undo
      modifies this`x, this`undo, rx.input
      ensures Valid() && !broken && f == old(f) && x.put == old(x.put)
      ensures x.got == old(x.got)[..|old(x.got)| - count]
    {
      hide Flow, FdFlow, Last, Buffer.Valid, FdQueue.Valid, Window;
      rx.input.HeldFits();
      BehindIsLast(count);
      ghost var y := AfterRestore(x, count);
      rx.Restore(count);
      x, undo := y, 0;
    }

    // What lies behind the tail is what was taken out last.
    lemma BehindIsLast(count: nat)
      requires rx.Valid() && Undoable() && count <= undo
      ensures count <= |x.got| && rx.input.Behind(count) == Last(x.got, count)
    {
      if undo > 0 {
        rx.input.BehindLess(undo, count);
        LastOfLast(x.got, undo, count);
      }
    }

    method GetFd() returns (r: Option<Fd>)
      requires Valid() && !broken
      modifies this, rx.Repr
      ensures Valid() && !broken && x == old(x) && f.accepted == old(f.accepted)
      ensures f.got == old(f.got) + if r.Some? then [r.value] else []
    {
      hide Flow, FdFlow, FdQueue.Valid;
      if f.input != [] { FdFlowTaken(f, received, sent); }
      r := rx.GetFd();
      if r.Some? { f := f.(got := f.got + [f.input[0]], input := f.input[1..]); }
    }

    // connection_close_fds at the sender: now every accepted descriptor has been closed, once.
    method CloseSender()
      requires Valid() && !broken
      modifies this, tx.Repr
      ensures Valid() && broken && f.accepted == old(f.accepted) && f.closed == Ids(f.accepted)
    {
      ClosedOrHeld(f, received, sent);
      var gone := tx.fds.Close();
      f := f.(closed := f.closed + gone);
      broken := true;
    }
  }
}
