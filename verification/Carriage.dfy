// Descriptors and the replies they belong to: the daemon queues a descriptor right before it puts
// the first byte of its reply, and so the connection never delivers a byte of a reply before its
// descriptor. That is what reads are taken to bring in Talk.
module Carriage {
  import opened Connection
  import opened Channel
  import opened Letters
  import T = Talk

  // Where in the stream the replies with a descriptor begin, if the first letter begins at `at`.
  function Stamps(mail: seq<Letter>, at: nat): seq<nat> {
    if mail == [] then []
    else (if DeviceIn(mail[0]) == 1 then [at] else []) + Stamps(mail[1..], at + Length(mail[0]))
  }

  // The replies with a descriptor.
  function Devices(mail: seq<Letter>): nat {
    if mail == [] then 0 else DeviceIn(mail[0]) + Devices(mail[1..])
  }

  // Each descriptor was accepted where its reply begins.
  predicate StampedAt(accepted: seq<Stamped>, stamps: seq<nat>) {
    |accepted| == |stamps| && forall i :: 0 <= i < |stamps| ==> accepted[i].at == stamps[i]
  }

  // It stays so when the daemon queues a descriptor with as much put in as the letters so far, and
  // then puts the reply.
  lemma {:induction false} StampsMore(mail: seq<Letter>, x: Letter, at: nat)
    requires AllSealed(mail)
    ensures Stamps(mail + [x], at) == Stamps(mail, at) + if DeviceIn(x) == 1 then [at + |Bytes(mail)|] else []
  {
    if mail == [] {
      assert mail + [x] == [x] && [x][1..] == [];
    } else {
      StampsMore(mail[1..], x, at + Length(mail[0]));
      assert (mail + [x])[1..] == mail[1..] + [x];
    }
  }

  lemma QueuedBeforeReply(mail: seq<Letter>, accepted: seq<Stamped>, x: Letter, fd: Fd)
    requires AllSealed(mail) && StampedAt(accepted, Stamps(mail, 0)) && DeviceIn(x) == 1
    ensures StampedAt(accepted + [Stamped(|Bytes(mail)|, fd)], Stamps(mail + [x], 0))
  {
    StampsMore(mail, x, 0);
  }

  // The replies of which a byte is among the first `n` begin before that.
  lemma {:induction false} BegunIsStamped(mail: seq<Letter>, n: nat, at: nat)
    ensures Begun(mail, n) <= |Stamps(mail, at)|
    ensures forall i :: 0 <= i < Begun(mail, n) ==> Stamps(mail, at)[i] < at + n
  {
    if mail != [] && n > Length(mail[0]) { BegunIsStamped(mail[1..], n - Length(mail[0]), at + Length(mail[0])); }
  }

  // Letters that were read have begun.
  lemma {:induction false} BegunBehind(read: seq<Letter>, mail: seq<Letter>, n: nat)
    requires AllSealed(read)
    ensures Begun(read + mail, |Bytes(read)| + n) == Devices(read) + Begun(mail, n)
  {
    if read == [] {
      assert read + mail == mail;
    } else {
      BegunBehind(read[1..], mail, n);
      assert (read + mail)[1..] == read[1..] + mail;
      assert |Bytes(read)| == Length(read[0]) + |Bytes(read[1..])|;
    }
  }

  lemma BegunHasArrived(x: Stream, f: FdStream, mail: seq<Letter>)
    requires Flow(x) && FdFlow(f, x.received, x.sent) && StampedAt(f.accepted, Stamps(mail, 0))
    ensures Begun(mail, x.received) <= |f.got| + |f.input|
  {
    BegunIsStamped(mail, x.received, 0);
    var b := Begun(mail, x.received);
    if b > 0 { DescriptorComesFirst(x, f, b - 1); }
  }

  // A connection of which these letters were read and these descriptors taken, and which the library
  // then reads: what it has of both makes an arrival.
  lemma ReadIsArrival(x: Stream, f: FdStream, read: seq<Letter>, k: T.Talk, n: nat, m: nat)
    requires Flow(x) && FdFlow(f, x.received, x.sent) && StampedAt(f.accepted, Stamps(read + k.mail, 0))
    requires AllSealed(read) && |x.got| == |Bytes(read)| && |f.got| == Devices(read)
    requires n <= |k.wire| && m <= |k.fdWire| && |x.input| == |k.lib.ring| + n && |f.input| == |k.fds| + m
    ensures T.Arrival(k, n, m)
  {
    BegunHasArrived(x, f, read + k.mail);
    BegunBehind(read, k.mail, |k.lib.ring| + n);
  }
}
