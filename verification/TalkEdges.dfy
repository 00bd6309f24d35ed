// Where the promises of the client library end: what its callers can run into, as runs of the
// library and the daemon that begin with a connection.
module TalkEdges {
  import opened Options
  import opened Ring
  import opened Protocol
  import opened SeatSpec
  import opened SeatInvariant
  import opened SeatRuns
  import opened Libseat
  import opened Letters
  import opened Mailing
  import opened Session
  import T = Talk
  import U = SeatUnbound

  // ---------------------------------------------------------------- behind the reply to open_seat

  // open_seat does not look behind its reply: what has arrived there stays on the ring, and so a
  // message is left there if and only if at least a header had arrived behind the reply.
  lemma OpenSeatLeaves(k: T.Talk, n: nat, m: nat, pinged: bool)
    requires Reachable(k, true) && !k.lib.error && T.Arrival(k, n, m)
    requires k.waiting.Some? && k.waiting.value.req == OpenSeatReq && T.Found(T.Receive(k, n, m), true).Response?
    ensures var f, p := T.Read(T.Receive(k, n, m), true), T.Poll(k, n, m, pinged);
            && f.mail != [] && Sealed(f.mail[0]) && |Wrap(f.mail[0])| <= |f.lib.ring|
            && p.lib.ring == f.lib.ring[|Wrap(f.mail[0])|..] && p.mail == f.mail[1..]
            && p.wire == f.wire && p.requests == f.requests && p.waiting.None?
            && (|p.lib.ring| >= HEADER <==> |f.lib.ring| >= |Wrap(f.mail[0])| + HEADER)
            && f.mail[0].Re? && (p.lib.error <==> f.mail[0].result.reply == Error)
  {
    hide Reachable, T.Finish, ReadAndQueue, Unread;
    ReachableSound(k, true);
    T.ReceiveTight(k, n, m);
    var r := T.Receive(k, n, m);
    FoundReply(r);
    T.ReadTight(r, true);
    WantedIsSafe(r.lib);
    OpenSeatReads(T.Read(r, true), pinged);
  }

  lemma OpenSeatReads(f: T.Talk, pinged: bool)
    requires T.HasReply(f) && |f.owed| == 1 && f.waiting.value.req == OpenSeatReq
    ensures var p := T.Finish(f, pinged);
            && (p.lib.error <==> f.lib.error || f.mail[0].result.reply == Error)
            && p.lib.ring == f.lib.ring[|Wrap(f.mail[0])|..] && p.mail == f.mail[1..]
            && p.wire == f.wire && p.requests == f.requests && p.waiting.None?
  {
    T.ReplyIsThere(f);
    OwnReplyFits(f.lib, OpenSeatReq, f.fds != [], f.mail[0].result);
  }

  // ---------------------------------------------------------------- what the daemon posts

  lemma PostMore(log: seq<Effect>, e: Effect, c: ClientId, ask: Ask, payload: seq<byte>)
    ensures Post(log + [e], c, ask, payload) == Post(log, c, ask, payload) + PostOne(e, c, ask, payload)
  {
    assert (log + [e])[..|log|] == log;
  }

  lemma EntriesAre(s: Seat, r: Seat, es: seq<Effect>)
    requires r.log == s.log + es
    ensures Entries(s, r) == es
  {
  }

  // Opening a free seat enables it at once, if its VT can be opened and the message gets as far as
  // the ring.
  predicate Enables(s: Seat, io: Io) {
    s.active.None? && (s.vtBound ==> io.vtOpen) && !io.send.Dropped?
  }

  // What opening the seat adds to the log behind the reply.
  function Opening(s: Seat, c: ClientId, vt: int, io: Io): seq<Effect> {
    if s.active.Some? || (s.vtBound && !io.vtOpen) then []
    else
      (if s.vtBound then [VtOpened(vt)] else []) +
      match io.send
      case Delivered => [EnableSent(c)]
      case Left => [EnableLeft(c)] + if s.vtBound then [VtClosed(vt)] else []
      case Dropped => if s.vtBound then [VtClosed(vt)] else []
  }

  lemma OpeningPosts(s: Seat, c: ClientId, vt: int, io: Io, ask: Ask, payload: seq<byte>)
    ensures Post(Opening(s, c, vt, io), c, ask, payload) == if Enables(s, io) then [Told(true)] else []
  {
    var es := Opening(s, c, vt, io);
    if es != [] {
      var n := |es| - 1;
      assert es[..n] + [es[n]] == es;
      PostMore(es[..n], es[n], c, ask, payload);
      if n > 0 {
        assert es[..n][..n - 1] + [es[n - 1]] == es[..n];
        PostMore(es[..n - 1], es[n - 1], c, ask, payload);
      }
    }
  }

  lemma OpenClientLogs(s: Seat, c: ClientId, io: Io) returns (vt: int)
    requires c in s.clients && s.clients[c].state == New
    ensures OpenClient(s, c, io).log == s.log + Opening(s, c, vt, io)
  {
    vt := if s.vtBound then VtForOpen(s, c) else 0;
  }

  lemma HandleOpenSeatLogs(s: Seat, c: ClientId, io: Io) returns (vt: int)
    requires c in s.clients && Linked(s) && s.clients[c].state == New && HandleOpenSeat(s, c, io).ok
    ensures HandleOpenSeat(s, c, io).s.log == s.log + ([Replied(c, SeatOpened)] + Opening(s, c, vt, io))
  {
    var told := Emit(AddClient(s, c, io).s, Replied(c, SeatOpened));
    vt := OpenClientLogs(told, c, io);
    Associative(s.log, [Replied(c, SeatOpened)], Opening(s, c, vt, io));
  }

  lemma {:induction false} PostConcat(a: seq<Effect>, b: seq<Effect>, c: ClientId, ask: Ask, payload: seq<byte>)
    ensures Post(a + b, c, ask, payload) == Post(a, c, ask, payload) + Post(b, c, ask, payload)
  {
    hide PostOne;
    if b == [] {
      assert a + b == a;
    } else {
      var n := |b| - 1;
      PostConcat(a, b[..n], c, ask, payload);
      Associative(a, b[..n], [b[n]]);
      assert b[..n] + [b[n]] == b;
      PostMore(a + b[..n], b[n], c, ask, payload);
      PostMore(b[..n], b[n], c, ask, payload);
      Associative(Post(a, c, ask, payload), Post(b[..n], c, ask, payload), PostOne(b[n], c, ask, payload));
    }
  }

  // A turn that opens the seat for a client, and keeps the client, posts the reply and, exactly if
  // the seat is free for it, an enable message right behind it.
  lemma OpenSeatPosts(s: Seat, c: ClientId, t: Turn, ask: Ask, name: seq<byte>)
    requires Inv(s) && c in s.clients && t.step == Serve(c, OpenSeatReq) && c in Take(s, t).clients
    ensures Post(Entries(s, Take(s, t)), c, ask, name)
         == [Re(Result(SeatOpened, name, ask))] + if Enables(s, t.io) then [Told(true)] else []
  {
    ServedAndKept(s, c, t);
    var vt := HandleOpenSeatLogs(s, c, t.io);
    var es := Opening(s, c, vt, t.io);
    EntriesAre(s, Take(s, t), [Replied(c, SeatOpened)] + es);
    PostConcat([Replied(c, SeatOpened)], es, c, ask, name);
    PostReply(c, SeatOpened, ask, name);
    OpeningPosts(s, c, vt, t.io, ask, name);
  }

  lemma PostReply(c: ClientId, reply: Reply, ask: Ask, payload: seq<byte>)
    requires reply != Pong
    ensures Post([Replied(c, reply)], c, ask, payload) == [Re(Result(reply, payload, ask))]
  {
    var e := Replied(c, reply);
    assert [] + [e] == [e];
    PostMore([], e, c, ask, payload);
  }

  lemma ServedAndKept(s: Seat, c: ClientId, t: Turn)
    requires Inv(s) && c in s.clients && t.step == Serve(c, OpenSeatReq) && c in Take(s, t).clients
    ensures Linked(s) && s.clients[c].state == New && s.clients[c].devices == []
    ensures HandleOpenSeat(s, c, t.io).ok && Take(s, t) == HandleOpenSeat(s, c, t.io).s
  {
    HandleKeeps(s, c, OpenSeatReq, t.io);
  }

  // A device the client asks for can be opened, and the descriptor handed out.
  predicate Opens(s: Seat, c: ClientId, io: Io)
    requires c in s.clients
  {
    var ds := s.clients[c].devices;
    && s.clients[c].state == Active && io.resolved.Some? && io.dup && io.putFd && io.put && io.flush
    && (IndexOfPath(ds, io.resolved.value.path) < |ds| || (|ds| < MAX_SEAT_DEVICES && io.open))
    && IsInt(IdFor(s, c, io))
  }

  // The id it gets.
  function IdFor(s: Seat, c: ClientId, io: Io): int
    requires c in s.clients
  {
    var got := OpenDevice(s, c, io);
    if got.at.Some? then got.s.clients[c].devices[got.at.value].id else 0
  }

  lemma OpenDeviceLogs(s: Seat, c: ClientId, io: Io)
    requires c in s.clients && Opens(s, c, io)
    ensures var h := HandleOpenDevice(s, c, io);
            var first, second := OpenedDevice(c, io.resolved.value.path), Replied(c, DeviceOpened(IdFor(s, c, io)));
            h.ok && c in h.s.clients && h.s.log == s.log + ([first] + [second])
  {
    var got := OpenDevice(s, c, io);
    assert got.s.log == s.log + [OpenedDevice(c, io.resolved.value.path)];
  }

  lemma OpenDevicePosts(s: Seat, c: ClientId, t: Turn, ask: Ask, payload: seq<byte>)
    requires Inv(s) && c in s.clients && t.step == Serve(c, OpenDeviceReq) && Opens(s, c, t.io)
    ensures Post(Entries(s, Take(s, t)), c, ask, payload) == [Re(Result(DeviceOpened(IdFor(s, c, t.io)), payload, ask))]
    ensures c in Take(s, t).clients
  {
    OpenDeviceLogs(s, c, t.io);
    DeviceIsServed(s, c, t);
    var first, second := OpenedDevice(c, t.io.resolved.value.path), Replied(c, DeviceOpened(IdFor(s, c, t.io)));
    EntriesAre(s, Take(s, t), [first] + [second]);
    PostConcat([first], [second], c, ask, payload);
    PostReply(c, DeviceOpened(IdFor(s, c, t.io)), ask, payload);
  }

  lemma DeviceIsServed(s: Seat, c: ClientId, t: Turn)
    requires Inv(s) && c in s.clients && t.step == Serve(c, OpenDeviceReq) && s.clients[c].state == Active
    requires HandleOpenDevice(s, c, t.io).ok && t.io.flush
    ensures Take(s, t) == HandleOpenDevice(s, c, t.io).s
  {
  }

  // ---------------------------------------------------------------- runs

  lemma StepKeepsInv(w: World, h: Happening)
    requires Inv(w.seat) && Can(w, h)
    ensures Inv(Session.Step(w, h).seat)
  {
  }

  lemma {:induction false} RunsMore(w: World, hs: seq<Happening>, r: World, h: Happening)
    requires Runs(w, hs, r) && Inv(r.seat) && Can(r, h)
    ensures Runs(w, hs + [h], Session.Step(r, h))
    decreases |hs|
  {
    hide Inv, Can, Session.Step;
    if hs == [] {
      StepKeepsInv(r, h);
      assert hs + [h] == [h];
      assert [h][1..] == [];
    } else {
      RunsMore(Session.Step(w, hs[0]), hs[1..], r, h);
      assert (hs + [h])[1..] == hs[1..] + [h];
    }
  }

  lemma {:induction false} RunsKeepInv(w: World, hs: seq<Happening>, r: World)
    requires Runs(w, hs, r)
    ensures Inv(r.seat)
    decreases |hs|
  {
    if hs != [] { RunsKeepInv(Session.Step(w, hs[0]), hs[1..], r); }
  }

  // The run `hs` leads from a fresh connection `w` to `r`, and no call gave up in it.
  ghost predicate Leads(w: World, hs: seq<Happening>, r: World) {
    Begins(w) && Runs(w, hs, r) && Patient(hs)
  }

  lemma LeadsOn(w: World, hs: seq<Happening>, r: World, h: Happening)
    requires Leads(w, hs, r) && Inv(r.seat) && Can(r, h) && h != Library(T.GiveUp)
    ensures Leads(w, hs + [h], Session.Step(r, h)) && Inv(Session.Step(r, h).seat)
  {
    RunsMore(w, hs, r, h);
    StepKeepsInv(r, h);
  }

  lemma LedState(w: World, hs: seq<Happening>, r: World)
    requires Leads(w, hs, r)
    ensures Reachable(r.talk, true) && Consistent(r) && Prompt(r.talk)
  {
    BeginsConsistent(w);
    RunConsistent(w, hs, r);
    RunPrompt(w, hs, r);
  }

  // A client that has just connected to a daemon without VTs.
  lemma Connected(pid: int, io: Io, io2: Io, k: T.Talk) returns (w: World)
    requires T.Starts(k)
    ensures Begins(w) && w.seat == Run(Init(false), [Turn(Connect(pid), io, io2)])
    ensures w.seat.order == [] && w.seat.groups == []
    ensures w.talk == k && w.seat.active.None? && !w.seat.vtBound
    ensures w.seat.clients[w.id] == Client(pid, false, -1, New, [])
  {
    var t := Turn(Connect(pid), io, io2);
    assert [t][..0] == [];
    w := World(Take(Init(false), t), 0, k);
  }

  // ---------------------------------------------------------------- an event is left behind

  // The talk when open_seat was called and served.
  predicate SeatIsOpen(k: T.Talk, lib: Lib, name: seq<byte>) {
    && k.mail == [Re(Result(SeatOpened, name, Ask(OpenSeatReq, 0)))] + [Told(true)] && k.lib == lib
    && k.requests == [] && k.waiting == Some(Ask(OpenSeatReq, 0)) && k.fdWire == []
  }

  lemma OpenAndEnable(k: T.Talk, name: seq<byte>)
    requires T.Starts(k) && Shaped(SeatOpened, name)
    ensures var letters := [Re(Result(SeatOpened, name, Ask(OpenSeatReq, 0)))] + [Told(true)];
            SeatIsOpen(T.Deliver(T.Begin(k, OpenSeatReq, true), letters, true, true), k.lib, name)
  {
    var x, y := Re(Result(SeatOpened, name, Ask(OpenSeatReq, 0))), Told(true);
    OneLetter(x);
    OneLetter(y);
    ResultsConcat([x], [y]);
    assert Openings([x.result]) == [] by { assert [x.result][1..] == []; }
    assert Results([x] + [y]) == [x.result];
  }

  // A synchronous function is entered.
  lemma CallLeads(w: World, hs: seq<Happening>, v: World, req: Request)
    requires Leads(w, hs, v) && Inv(v.seat) && v.talk.waiting.None? && !v.talk.lib.error && !req.PingReq?
    requires req != CloseSeatReq
    ensures Leads(w, hs + [Library(T.Call(req, true))], v.(talk := T.Begin(v.talk, req, true)))
  {
    LeadsOn(w, hs, v, Library(T.Call(req, true)));
  }

  // The daemon serves the first request.
  lemma ServeLeads(w: World, hs: seq<Happening>, v: World, t: Turn, payload: seq<byte>, ask: Ask, letters: seq<Letter>)
    requires Leads(w, hs, v) && Inv(v.seat) && Serving(v, t, ask)
    requires Post(Entries(v.seat, Take(v.seat, t)), v.id, ask, payload) == letters && AllSealed(letters)
    ensures Leads(w, hs + [Daemon(t, payload)],
                  v.(seat := Take(v.seat, t), talk := T.Deliver(v.talk, letters, true, true)))
  {
    ServedWith(v, t, payload, ask, letters);
    LeadsOn(w, hs, v, Daemon(t, payload));
  }

  // The client asks for the seat; the daemon opens and enables it in one turn.
  lemma SeatIsOpened(w: World, t: Turn, name: seq<byte>) returns (hs: seq<Happening>, r: World)
    requires Begins(w) && t.step == Serve(w.id, OpenSeatReq) && w.id in Take(w.seat, t).clients
    requires Enables(w.seat, t.io) && Shaped(SeatOpened, name)
    ensures Leads(w, hs, r) && r.id == w.id && r.seat == Take(w.seat, t) && SeatIsOpen(r.talk, w.talk.lib, name)
  {
    hide Take;
    hide Inv;
    var ask := Ask(OpenSeatReq, 0);
    hs := [];
    CallLeads(w, hs, w, OpenSeatReq);
    hs := hs + [Library(T.Call(OpenSeatReq, true))];
    var v := w.(talk := T.Begin(w.talk, OpenSeatReq, true));
    OpenSeatPosts(v.seat, v.id, t, ask, name);
    var letters := [Re(Result(SeatOpened, name, ask))] + [Told(true)];
    ServeLeads(w, hs, v, t, name, ask, letters);
    hs, r := hs + [Daemon(t, name)], v.(seat := Take(v.seat, t), talk := T.Deliver(v.talk, letters, true, true));
    OpenAndEnable(w.talk, name);
  }

  // The first request is served, and the client kept.
  ghost predicate Serving(v: World, t: Turn, ask: Ask)
    requires Inv(v.seat)
  {
    && t.step == Serve(v.id, ask.req) && v.id in v.seat.clients && v.id in Take(v.seat, t).clients
    && v.talk.requests != [] && v.talk.requests[0] == T.Asking(ask)
  }

  lemma ServedWith(v: World, t: Turn, payload: seq<byte>, ask: Ask, letters: seq<Letter>)
    requires Inv(v.seat) && Serving(v, t, ask)
    requires Post(Entries(v.seat, Take(v.seat, t)), v.id, ask, payload) == letters && AllSealed(letters)
    ensures Can(v, Daemon(t, payload))
    ensures Session.Step(v, Daemon(t, payload)) ==
            v.(seat := Take(v.seat, t), talk := T.Deliver(v.talk, letters, true, true))
  {
    assert AskOf(v.talk) == ask;
  }

  lemma FoundAtOnce(f: T.Talk)
    requires T.HasReply(f)
    ensures T.Found(f, true).Response? && T.Read(f, true) == f
  {
    HeaderOfFirst(f.lib.ring, f.wire, f.mail);
  }

  // Everything that is on the wire arrives.
  function AllArrives(k: T.Talk): T.Talk {
    T.Receive(k, |k.wire|, |k.fdWire|)
  }

  lemma {:induction false} BegunIsBounded(mail: seq<Letter>, n: nat)
    ensures Begun(mail, n) <= |Openings(Results(mail))|
  {
    if mail != [] && n > 0 {
      var rest := if n > Length(mail[0]) then n - Length(mail[0]) else 0;
      BegunIsBounded(mail[1..], rest);
      OpeningsConcat(ResultIn(mail[0]), Results(mail[1..]));
      if mail[0].Re? { assert [mail[0].result][1..] == []; }
    }
  }

  lemma ReplyArrives(k: T.Talk)
    requires T.Tight(k) && k.waiting.Some? && k.mail != [] && k.mail[0].Re?
    ensures T.Arrival(k, |k.wire|, |k.fdWire|) && T.HasReply(AllArrives(k)) && AllArrives(k).wire == []
  {
    BegunIsBounded(k.mail, |k.lib.ring| + |k.wire|);
    T.ReceiveTight(k, |k.wire|, |k.fdWire|);
    assert |AllArrives(k).lib.ring| == |Bytes(k.mail)|;
  }

  // Between calls, with an enable message on the ring, nothing else under way in either direction,
  // and no ping outstanding that would wake anybody up.
  predicate Stranded(k: T.Talk) {
    && k.waiting.None? && !k.lib.error && k.mail == [Told(true)] && |k.lib.ring| == HEADER
    && k.wire == [] && k.requests == []
  }

  // The reply to open_seat and the enable message arrive together.
  lemma BothArrive(k: T.Talk, lib: Lib, name: seq<byte>)
    requires Reachable(k, true) && T.Tight(k) && SeatIsOpen(k, lib, name) && !lib.error
    ensures T.Arrival(k, |k.wire|, |k.fdWire|) && Stranded(T.Poll(k, |k.wire|, |k.fdWire|, true))
  {
    hide Reachable, T.Poll;
    ReplyArrives(k);
    FoundAtOnce(AllArrives(k));
    OpenSeatLeaves(k, |k.wire|, |k.fdWire|, true);
    var f := AllArrives(k);
    BytesOfFirst(f.lib.ring, f.wire, f.mail);
    assert f.mail[1..] == [Told(true)];
    assert [Told(true)][1..] == [];
  }

  // Opening a free seat can leave its enable message behind, unread and unannounced.
  lemma EventLeftBehind(w: World, t: Turn, name: seq<byte>) returns (hs: seq<Happening>, r: World)
    requires Begins(w) && t.step == Serve(w.id, OpenSeatReq) && w.id in Take(w.seat, t).clients
    requires Enables(w.seat, t.io) && Shaped(SeatOpened, name)
    ensures Leads(w, hs, r) && r.id == w.id && r.seat == Take(w.seat, t) && Stranded(r.talk)
  {
    hide Take;
    hide Inv;
    var v: World;
    hs, v := SeatIsOpened(w, t, name);
    LedState(w, hs, v);
    var k := v.talk;
    BothArrive(k, w.talk.lib, name);
    var h := Library(T.Await(|k.wire|, |k.fdWire|, true));
    LeadsOn(w, hs, v, h);
    hs, r := hs + [h], Session.Step(v, h);
  }

  // ---------------------------------------------------------------- the reply to another call

  // Between calls, with nothing under way.
  ghost predicate AtRest(k: T.Talk) {
    T.Sound(k) && k.waiting.None? && !k.lib.error && k.mail == [] && k.owed == [] && k.requests == [] && k.connected
  }

  lemma NoLetters(mail: seq<Letter>)
    requires AllSealed(mail) && |Bytes(mail)| < HEADER
    ensures mail == []
  {
  }

  lemma ReadsAll(k: T.Talk)
    requires T.Tight(k) && k.owed == [] && k.wire == []
    ensures var r := T.Read(k, false);
            T.Found(k, false) == Nothing && r.mail == [] && r.lib.error == k.lib.error
  {
    NoSurprise(k);
    var taken := ScanTakes(k.lib, false, k.wire, k.mail);
    NoLetters(Unread(k.lib, k.mail));
  }

  // The application dispatches, and finds the message.
  lemma DispatchClears(k: T.Talk)
    requires T.Sound(k) && Stranded(k) && Prompt(k) && k.connected
    ensures T.Arrival(k, 0, 0) && AtRest(T.Half(k, 0, 0))
  {
    hide Results, Prompt, ReadAndQueue, Unread;
    BegunIsBounded(k.mail, |k.lib.ring|);
    assert Results(k.mail) == [] by { OneLetter(Told(true)); }
    T.ReceiveTight(k, 0, 0);
    ReadsAll(T.Receive(k, 0, 0));
    T.ActSound(k, T.Dispatch(0, 0));
  }

  lemma DispatchLeads(w: World, hs: seq<Happening>, v: World)
    requires Leads(w, hs, v) && Stranded(v.talk) && v.id in v.seat.clients
    ensures Inv(v.seat) && T.Arrival(v.talk, 0, 0) && AtRest(T.Half(v.talk, 0, 0))
    ensures Leads(w, hs + [Library(T.Dispatch(0, 0))], v.(talk := T.Half(v.talk, 0, 0)))
  {
    hide Inv, Runs, T.Half, T.Tight, T.Rests;
    LedState(w, hs, v);
    DispatchClears(v.talk);
    LeadsOn(w, hs, v, Library(T.Dispatch(0, 0)));
  }

  lemma OpenedIsActive(s: Seat, c: ClientId, t: Turn)
    requires Inv(s) && c in s.clients && t.step == Serve(c, OpenSeatReq) && c in Take(s, t).clients
    requires Enables(s, t.io) && t.io.send.Delivered?
    ensures Take(s, t).clients[c].state == Active && Take(s, t).clients[c].devices == []
  {
    hide Inv, Take;
    ServedAndKept(s, c, t);
    OpenedAtOnce(s, c, t.io);
  }

  lemma OpenedAtOnce(s: Seat, c: ClientId, io: Io)
    requires c in s.clients && Linked(s) && s.clients[c].state == New && s.clients[c].devices == []
    requires HandleOpenSeat(s, c, io).ok && Enables(s, io) && io.send.Delivered?
    ensures var r := HandleOpenSeat(s, c, io).s;
            c in r.clients && r.clients[c].state == Active && r.clients[c].devices == []
  {
    hide MinFree, SessionSet, OwnsVt;
  }

  // The client has the seat, and nothing is under way.
  lemma HasSeat(w: World, t: Turn, name: seq<byte>) returns (hs: seq<Happening>, r: World)
    requires Begins(w) && t.step == Serve(w.id, OpenSeatReq) && w.id in Take(w.seat, t).clients
    requires Enables(w.seat, t.io) && t.io.send.Delivered? && Shaped(SeatOpened, name)
    ensures Leads(w, hs, r) && r.id == w.id && AtRest(r.talk) && Inv(r.seat)
    ensures r.id in r.seat.clients && r.seat.clients[r.id].state == Active && r.seat.clients[r.id].devices == []
  {
    hide Take;
    hide Inv;
    var v: World;
    hs, v := EventLeftBehind(w, t, name);
    OpenedIsActive(w.seat, w.id, t);
    DispatchLeads(w, hs, v);
    hs, r := hs + [Library(T.Dispatch(0, 0))], v.(talk := T.Half(v.talk, 0, 0));
  }

  // One open_device gives up, and another one is made.
  function TwoCalls(k: T.Talk): T.Talk {
    T.Begin(T.Begin(k, OpenDeviceReq, true).(waiting := None, settled := false), OpenDeviceReq, true)
  }

  lemma TwoCallsSound(k: T.Talk)
    requires AtRest(k)
    ensures var r := TwoCalls(k);
            var first, second := Ask(OpenDeviceReq, k.calls), Ask(OpenDeviceReq, k.calls + 1);
            && T.Sound(r) && !r.lib.error && r.mail == [] && r.connected && r.owed == [first, second]
            && r.requests == [T.Asking(first), T.Asking(second)] && r.waiting == Some(second)
  {
    hide T.Sound, T.Tight;
    var a, b := T.Call(OpenDeviceReq, true), T.Do(k, T.Call(OpenDeviceReq, true));
    T.ActSound(k, a);
    T.ActSound(b, T.GiveUp);
    T.ActSound(T.Do(b, T.GiveUp), a);
  }

  // The first of them is served.
  lemma FirstIsServed(r: T.Talk, ask: Ask, id: int, payload: seq<byte>)
    requires T.Sound(r) && !r.lib.error && r.connected && r.requests != [] && r.requests[0] == T.Asking(ask)
    requires ask.req == OpenDeviceReq && Shaped(DeviceOpened(id), payload)
    ensures T.Tight(T.Deliver(r, [Re(Result(DeviceOpened(id), payload, ask))], true, true))
  {
    hide T.Sound, T.Tight;
    var x := Re(Result(DeviceOpened(id), payload, ask));
    OneLetter(x);
    assert Results([x]) == [x.result] && Pongs([x]) == 0;
    T.DeliverTight(r, [x], true, true) by { assert T.Tight(r) by { TightIfSound(r); } }
  }

  lemma TightIfSound(k: T.Talk)
    requires T.Sound(k) && !k.lib.error
    ensures T.Tight(k)
  {
  }

  // A call is about to read the reply to another one, with the descriptor that came for that one,
  // and takes both for its own.
  ghost predicate Confused(f: T.Talk) {
    && T.HasReply(f) && T.Found(f, true).Response? && f.mail[0].result.ask != f.waiting.value
    && f.fds != [] && f.fds[0] == f.mail[0].result.ask && T.Outcome(f).outcome == Fine
  }

  lemma TakesTheOther(k: T.Talk, ask: Ask)
    requires T.Tight(k) && k.mail != [] && k.mail[0].Re? && k.mail[0].result.reply.DeviceOpened?
    requires k.mail[0].result.ask == ask && k.waiting.Some? && k.waiting.value != ask
    requires k.waiting.value.req == OpenDeviceReq
    ensures T.Arrival(k, |k.wire|, |k.fdWire|) && Confused(AllArrives(k))
  {
    ReplyArrives(k);
    var f := AllArrives(k);
    FoundAtOnce(f);
    T.ReplyIsThere(f);
    T.DescriptorIsThere(f);
    OwnReplyFits(f.lib, OpenDeviceReq, true, f.mail[0].result);
  }

  // The library does something on its own.
  lemma LibraryRuns(w: World, hs: seq<Happening>, v: World, a: T.Act)
    requires Runs(w, hs, v) && Inv(v.seat) && !a.Post? && T.Enabled(v.talk, a)
    ensures Runs(w, hs + [Library(a)], v.(talk := T.Do(v.talk, a)))
  {
    hide Inv, T.Do, Runs;
    RunsMore(w, hs, v, Library(a));
  }

  lemma TwoCallsRun(w: World, hs: seq<Happening>, v: World) returns (gs: seq<Happening>)
    requires Runs(w, hs, v) && Inv(v.seat) && AtRest(v.talk)
    ensures Runs(w, gs, v.(talk := TwoCalls(v.talk)))
  {
    hide Inv, Runs, T.Sound;
    var a := T.Call(OpenDeviceReq, true);
    LibraryRuns(w, hs, v, a);
    var u := v.(talk := T.Do(v.talk, a));
    LibraryRuns(w, hs + [Library(a)], u, T.GiveUp);
    var x := u.(talk := T.Do(u.talk, T.GiveUp));
    LibraryRuns(w, hs + [Library(a)] + [Library(T.GiveUp)], x, a);
    gs := hs + [Library(a)] + [Library(T.GiveUp)] + [Library(a)];
  }

  // A call gave up while its reply was on its way: the next one of its kind takes that reply for
  // its own, whenever the client can open a device and nothing else is under way.
  lemma GivingUpMixesReplies(w: World, hs: seq<Happening>, v: World, t: Turn)
    returns (gs: seq<Happening>, r: World)
    requires Runs(w, hs, v) && Inv(v.seat) && AtRest(v.talk) && v.id in v.seat.clients
    requires t.step == Serve(v.id, OpenDeviceReq) && Opens(v.seat, v.id, t.io)
    ensures Runs(w, gs, r) && T.Arrival(r.talk, |r.talk.wire|, |r.talk.fdWire|) && Confused(AllArrives(r.talk))
  {
    hide Inv, Runs, T.Sound, T.Tight, Take, Opens, AtRest, IdFor, EncodeInt;
    IdIsInt(v.seat, v.id, t.io);
    gs := TwoCallsRun(w, hs, v);
    TwoCallsSound(v.talk);
    var u, ask := v.(talk := TwoCalls(v.talk)), Ask(OpenDeviceReq, v.talk.calls);
    var id := IdFor(u.seat, u.id, t.io);
    var payload := EncodeInt(id);
    OpenDevicePosts(u.seat, u.id, t, ask, payload);
    var x := Re(Result(DeviceOpened(id), payload, ask));
    ServedWith(u, t, payload, ask, [x]);
    RunsMore(w, gs, u, Daemon(t, payload));
    gs, r := gs + [Daemon(t, payload)], Session.Step(u, Daemon(t, payload));
    FirstIsServed(u.talk, ask, id, payload);
    TakesTheOther(r.talk, ask);
  }

  lemma IdIsInt(s: Seat, c: ClientId, io: Io)
    requires c in s.clients && Opens(s, c, io)
    ensures IsInt(IdFor(s, c, io))
  {
  }

  // So it happens: from an idle daemon, with any device.
  lemma ConfusionHappens(pid: int, io: Io, io2: Io, k: T.Talk, name: seq<byte>)
    returns (w: World, hs: seq<Happening>, r: World)
    requires T.Starts(k) && Shaped(SeatOpened, name)
    requires io.put && io.flush && io.send.Delivered? && io.resolved.Some? && io.open && io.dup && io.putFd
    ensures w.seat == Run(Init(false), [Turn(Connect(pid), io, io2)]) && Begins(w) && Runs(w, hs, r)
    ensures T.Arrival(r.talk, |r.talk.wire|, |r.talk.fdWire|) && Confused(AllArrives(r.talk))
  {
    hide Inv, Runs, T.Sound, T.Tight, Take, AtRest, Run;
    w := Connected(pid, io, io2, k);
    var t, d := Turn(Serve(w.id, OpenSeatReq), io, io2), Turn(Serve(w.id, OpenDeviceReq), io, io2);
    IdleSeatOpens(w.seat, w.id, t);
    var v: World;
    hs, v := HasSeat(w, t, name);
    hs, r := GivingUpMixesReplies(w, hs, v, d);
  }

  lemma IdleSeatOpens(s: Seat, c: ClientId, t: Turn)
    requires Inv(s) && !s.vtBound && c in s.clients && !s.clients[c].seated && s.clients[c].session == -1
    requires t.step == Serve(c, OpenSeatReq) && t.io.put && t.io.flush
    ensures c in Take(s, t).clients
  {
  }

  // ---------------------------------------------------------------- two events at a time

  // Reading a message at the front that is an event.
  lemma ReadsEvent(l: Lib, mail: seq<Letter>, enable: bool)
    requires AllSealed(mail) && mail != [] && mail[0] == Told(enable) && l.ring == Bytes(mail)
    ensures var r := QueueEvent(l.(ring := Bytes(mail[1..])), EventOf(enable));
            ReadAndQueue(l, true) == ReadAndQueue(r, true) && Unread(l, mail) == Unread(r, mail[1..])
  {
    AbsorbsEvent(l, mail, enable);
    hide Bytes, Absorb, NextHeader, InBackground;
  }

  lemma AbsorbsEvent(l: Lib, mail: seq<Letter>, enable: bool)
    requires AllSealed(mail) && mail != [] && mail[0] == Told(enable) && l.ring == Bytes(mail)
    ensures |l.ring| >= HEADER && InBackground(NextHeader(l).opcode)
    ensures Absorb(l) == QueueEvent(l.(ring := Bytes(mail[1..])), EventOf(enable))
  {
    assert |Wrap(mail[0])| == HEADER && |l.ring| == HEADER + |Bytes(mail[1..])|;
    hide Bytes, Wrap;
    assert l.ring + [] == l.ring;
    HeaderOfFirst(l.ring, [], mail);
    BytesOfFirst(l.ring, [], mail);
    assert l.ring[HEADER..] + [] == l.ring[HEADER..];
  }

  // And one that is a refusal.
  lemma ReadsRefusal(l: Lib, x: Letter)
    requires x.Re? && Sealed(x) && x.result.reply == Error && l.ring == Wrap(x)
    ensures ReadAndQueue(l, true) == Scan(l, Response(OpcodeOf(Error))) && Unread(l, [x]) == [x]
    ensures OnRing(l.ring, x.result)
  {
    assert [x][1..] == [] && Bytes([x]) == Wrap(x) + [] == Wrap(x);
    assert l.ring + [] == Bytes([x]);
    HeaderOfFirst(l.ring, [], [x]);
    assert l.ring[..|Wrap(x)|] == Wrap(x);
  }

  // The library when both events are pending, the older one behind the newer one.
  function BothPending(l: Lib): Lib {
    QueueEvent(QueueEvent(l.(ring := []), EventOf(true)), EventOf(false))
  }

  lemma ReadsThree(l: Lib, x: Letter)
    requires x.Re? && Sealed(x) && x.result.reply == Error && AllSealed([Told(true), Told(false), x])
    requires l.ring == Bytes([Told(true), Told(false), x])
    ensures ReadAndQueue(l, true) == Scan(BothPending(l).(ring := Wrap(x)), Response(OpcodeOf(Error)))
    ensures Unread(l, [Told(true), Told(false), x]) == [x]
  {
    var mail := [Told(true), Told(false), x];
    assert mail[1..] == [Told(false), x] && mail[1..][1..] == [x] && [x][1..] == [];
    assert Bytes([x]) == Wrap(x) + [] == Wrap(x);
    hide Bytes, Wrap, ReadAndQueue, Unread;
    ReadsEvent(l, mail, true);
    var m := QueueEvent(l.(ring := Bytes(mail[1..])), EventOf(true));
    ReadsEvent(m, mail[1..], false);
    ReadsRefusal(QueueEvent(m.(ring := Wrap(x)), EventOf(false)), x);
  }

  // Two events are pending, and the listener would hear of the newer one first.
  predicate Reversed(l: Lib) {
    && !l.error && NewestFirst(l) && |l.events| == 2
    && Opcodes(l.events) == [EventOf(false), EventOf(true)] && Batch(l) == [EventOf(true), EventOf(false)]
  }

  lemma BothAreReversed(l: Lib)
    requires l.events == [] && !l.error
    ensures Reversed(BothPending(l)) && Reversed(CheckPending(BothPending(l), true))
  {
  }

  // A refused open_device reads both.
  lemma RefusalReversed(k: T.Talk, x: Letter)
    requires T.Tight(k) && !k.lib.error && k.lib.events == [] && k.mail == [Told(true), Told(false), x]
    requires x.Re? && x.result.reply == Error && k.waiting.Some? && k.waiting.value.req == OpenDeviceReq
    ensures T.Arrival(k, |k.wire|, |k.fdWire|)
    ensures var p := T.Poll(k, |k.wire|, |k.fdWire|, true); p.waiting.None? && Reversed(p.lib)
  {
    hide Bytes, Wrap, ReadAndQueue, Unread, Results, T.Tight, T.Finish, Reversed;
    ReplyAtTheEnd(k, x);
    var r := AllArrives(k);
    ReadsThree(r.lib, x);
    RefusalEnds(T.Read(r, true), x, k.lib);
  }

  lemma ReplyAtTheEnd(k: T.Talk, x: Letter)
    requires T.Tight(k) && x in k.mail
    ensures T.Arrival(k, |k.wire|, |k.fdWire|) && AllSealed(k.mail) && Sealed(x)
    ensures AllArrives(k).lib.ring == Bytes(k.mail)
  {
    hide T.Owes, T.Pinged, T.Heard;
    BegunIsBounded(k.mail, |k.lib.ring| + |k.wire|);
    assert k.wire[..|k.wire|] == k.wire;
  }

  lemma RefusalEnds(f: T.Talk, x: Letter, l: Lib)
    requires Sealed(x) && x.Re? && x.result.reply == Error && f.waiting.Some? && f.waiting.value.req == OpenDeviceReq
    requires l.events == [] && !l.error && f.lib == BothPending(l).(ring := Wrap(x)) && f.mail == [x]
    ensures var p := T.Finish(f, true); p.waiting.None? && Reversed(p.lib)
  {
    hide Wrap, Reversed, Opcodes, Batch;
    assert f.lib.ring[..|Wrap(x)|] == Wrap(x) && f.lib.ring[|Wrap(x)|..] == [];
    OwnReplyFits(f.lib, OpenDeviceReq, f.fds != [], x.result);
    assert T.Consume(f).lib == BothPending(l);
    BothAreReversed(l);
  }

  lemma EventPosts(s: Seat, c: ClientId, t: Turn, ask: Ask, payload: seq<byte>)
    requires Inv(s) && U.Alone(s, c) && t.step.Event? && t.step.newVt != 1 && t.io.send.Delivered?
    ensures Post(Entries(s, Take(s, t)), c, ask, payload) == [Told(false)] && c in Take(s, t).clients
  {
    hide Take, Inv, Post;
    U.EventDisables(s, c, t);
    var a, b := VtChanged(t.step.oldVt, t.step.newVt), DisableSent(c);
    Associative(s.log, [a], [b]);
    EntriesAre(s, Take(s, t), [a] + [b]);
    assert [] + [a] == [a];
    PostNothing(c, ask, payload);
    PostMore([], a, c, ask, payload);
    PostMore([a], b, c, ask, payload);
  }

  lemma PostNothing(c: ClientId, ask: Ask, payload: seq<byte>)
    ensures Post([], c, ask, payload) == []
  {
  }

  lemma EventLeads(w: World, hs: seq<Happening>, v: World, t: Turn)
    requires Leads(w, hs, v) && Inv(v.seat) && U.Alone(v.seat, v.id)
    requires t.step.Event? && t.step.newVt != 1 && t.io.send.Delivered?
    ensures Leads(w, hs + [Daemon(t, [])],
                  v.(seat := Take(v.seat, t), talk := T.Deliver(v.talk, [Told(false)], false, true)))
  {
    hide Take, Inv, Runs, Begins, Post;
    EventPosts(v.seat, v.id, t, AskOf(v.talk), []);
    LeadsOn(w, hs, v, Daemon(t, []));
  }

  // A device cannot be opened by a client that is not ACTIVE.
  lemma RefusedPosts(s: Seat, c: ClientId, t: Turn, ask: Ask, payload: seq<byte>)
    requires Inv(s) && c in s.clients && s.clients[c].seated && s.clients[c].state != Active
    requires t.step == Serve(c, OpenDeviceReq) && t.io.put && t.io.flush
    ensures Post(Entries(s, Take(s, t)), c, ask, payload) == [Re(Result(Error, payload, ask))]
    ensures c in Take(s, t).clients
  {
    RefusedLogs(s, c, t);
    hide Take, Inv, Post;
    EntriesAre(s, Take(s, t), [Replied(c, Error)]);
    PostReply(c, Error, ask, payload);
  }

  lemma RefusedLogs(s: Seat, c: ClientId, t: Turn)
    requires Inv(s) && c in s.clients && s.clients[c].seated && s.clients[c].state != Active
    requires t.step == Serve(c, OpenDeviceReq) && t.io.put && t.io.flush
    ensures Take(s, t).log == s.log + [Replied(c, Error)] && c in Take(s, t).clients
  {
    hide Ready;
    IsLinked(s);
  }

  // The client that has just opened the seat has had no event yet.
  lemma NoEventYet(k: T.Talk)
    requires T.Sound(k) && Stranded(k) && |k.told| == 1
    ensures k.lib.events == []
  {
    hide T.Streams, T.Owes, T.Pinged, T.Carried, T.Rests, Arrivals, Flat;
    OneLetter(Told(true));
  }

  lemma OneMessage(w: World, hs: seq<Happening>, v: World, t: Turn)
    requires Leads(w, hs, v) && v.id == w.id && v.seat == Take(w.seat, t)
    requires Take(w.seat, t).log == w.seat.log + [Replied(w.id, SeatOpened)] + [EnableSent(w.id)]
    ensures T.Sound(v.talk) && |v.talk.told| == 1
  {
    hide Take, Inv, Runs, AllTold, T.Sound, T.Starts;
    LedState(w, hs, v);
    ToldMore(w.seat.log, Replied(w.id, SeatOpened), w.id);
    ToldMore(w.seat.log + [Replied(w.id, SeatOpened)], EnableSent(w.id), w.id);
  }

  // The client has the seat, and its enable message is still on the ring.
  lemma HasSeatUnread(w: World, t: Turn, name: seq<byte>) returns (hs: seq<Happening>, v: World)
    requires Begins(w) && !w.seat.vtBound && w.seat.order == [] && w.seat.groups == []
    requires w.seat.clients[w.id].session == -1 && Shaped(SeatOpened, name)
    requires t.step == Serve(w.id, OpenSeatReq) && t.io.put && t.io.flush && t.io.send.Delivered?
    ensures Leads(w, hs, v) && v.id == w.id && Inv(v.seat) && U.Alone(v.seat, v.id)
    ensures Stranded(v.talk) && v.talk.lib.events == []
  {
    NobodyIsActive(w.seat);
    U.OpensAlone(w.seat, w.id, t);
    hide Take, Inv, Runs, U.Alone, T.Sound, Stranded;
    hs, v := EventLeftBehind(w, t, name);
    OneMessage(w, hs, v, t);
    NoEventYet(v.talk);
  }

  lemma NobodyIsActive(s: Seat)
    requires Inv(s) && s.order == []
    ensures s.active.None?
  {
  }

  // What the refused call will find.
  lemma ThreeLetters(k: T.Talk, ask: Ask, payload: seq<byte>)
    requires Stranded(k) && |payload| == 4 && ask == Ask(OpenDeviceReq, k.calls)
    ensures var a := T.Deliver(k, [Told(false)], false, true);
            var b := T.Begin(a, OpenDeviceReq, true);
            var r := T.Deliver(b, [Re(Result(Error, payload, ask))], true, true);
            && r.mail == [Told(true), Told(false), Re(Result(Error, payload, ask))] && r.lib == k.lib
            && r.waiting == Some(ask) && b.requests == [T.Asking(ask)] && b.waiting == Some(ask)
  {
  }

  // It happens: a client opens the seat and does not read its enable message, a VT event takes the
  // seat away, and its next open_device is refused. Then both events are pending, newest first.
  lemma WrongOrderHappens(pid: int, oldVt: int, newVt: int, io: Io, io2: Io, k: T.Talk, name: seq<byte>,
                          payload: seq<byte>)
    returns (w: World, hs: seq<Happening>, r: World)
    requires T.Starts(k) && Shaped(SeatOpened, name) && |payload| == 4 && newVt != 1
    requires io.put && io.flush && io.send.Delivered?
    ensures w.seat == Run(Init(false), [Turn(Connect(pid), io, io2)]) && Leads(w, hs, r)
    ensures r.talk.waiting.None? && Reversed(r.talk.lib)
  {
    hide Inv, Runs, T.Sound, T.Tight, Take, Run, U.Alone, Stranded, Reversed, Shaped;
    w := Connected(pid, io, io2, k);
    var v: World;
    hs, v := HasSeatUnread(w, Turn(Serve(w.id, OpenSeatReq), io, io2), name);
    hs, v := EventAndRefusal(w, hs, v, oldVt, newVt, io, io2, payload);
    LedState(w, hs, v);
    var x := v.talk.mail[2];
    RefusalReversed(v.talk, x) by { TightIfSound(v.talk); }
    var h := Library(T.Await(|v.talk.wire|, |v.talk.fdWire|, true));
    LeadsOn(w, hs, v, h);
    hs, r := hs + [h], Session.Step(v, h);
  }

  // Ready to read two events and a refusal.
  predicate RefusalAhead(k: T.Talk) {
    && !k.lib.error && k.lib.events == [] && |k.mail| == 3
    && k.mail == [Told(true), Told(false), k.mail[2]] && k.mail[2].Re? && k.mail[2].result.reply == Error
    && k.waiting.Some? && k.waiting.value.req == OpenDeviceReq
  }

  lemma EventAndRefusal(w: World, hs: seq<Happening>, v: World, oldVt: int, newVt: int, io: Io, io2: Io,
                        payload: seq<byte>)
    returns (gs: seq<Happening>, r: World)
    requires Leads(w, hs, v) && Inv(v.seat) && U.Alone(v.seat, v.id) && Stranded(v.talk) && v.talk.lib.events == []
    requires newVt != 1 && io.put && io.flush && io.send.Delivered? && |payload| == 4
    ensures Leads(w, gs, r) && RefusalAhead(r.talk)
  {
    hide Inv, Take, Leads, U.Alone, Bytes, Openings, Post, Events;
    var e, d := Turn(Event(oldVt, newVt), io, io2), Turn(Serve(v.id, OpenDeviceReq), io, io2);
    var ask := Ask(OpenDeviceReq, v.talk.calls);
    var x := Re(Result(Error, payload, ask));
    ThreeLetters(v.talk, ask, payload);
    EventLeads(w, hs, v, e);
    U.EventDisables(v.seat, v.id, e);
    var a := v.(seat := Take(v.seat, e), talk := T.Deliver(v.talk, [Told(false)], false, true));
    gs := hs + [Daemon(e, [])];
    CallLeads(w, gs, a, OpenDeviceReq);
    var b := a.(talk := T.Begin(a.talk, OpenDeviceReq, true));
    gs := gs + [Library(T.Call(OpenDeviceReq, true))];
    RefusedPosts(b.seat, b.id, d, ask, payload);
    ServeLeads(w, gs, b, d, payload, ask, [x]);
    gs, r := gs + [Daemon(d, payload)], b.(seat := Take(b.seat, d), talk := T.Deliver(b.talk, [x], true, true));
  }
}
