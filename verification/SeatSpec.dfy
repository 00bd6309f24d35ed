// The seat of seatd/seat.c as a value, and every operation on it as a function from the state
// before the call to the state after it.
//
// A `struct client *` is a key of `clients`. Every answer of the kernel or of a socket that the
// C code branches on is a field of `Io`. What the code sends out is appended to `log`, so that
// statements about whole runs can speak about messages and not only about fields.
module SeatSpec {
  import opened Options

  type ClientId = nat

  const MAX_SEAT_DEVICES: nat := 128

  datatype ClientState = New | Active | PendingDisable | Disabled | Closed

  datatype DeviceKind = Evdev | Hidraw | Drm | Wscons

  // `revokeFailed` is a history variable: some attempt to revoke this device has failed.
  datatype Device = Device(id: int, path: string, kind: DeviceKind, refCnt: int, active: bool, revokeFailed: bool)

  // `seated` is `client->seat != NULL`; there is only one seat.
  datatype Client = Client(pid: int, seated: bool, session: int, state: ClientState, devices: seq<Device>)

  datatype GroupVt = GroupVt(vt: int, owner: ClientId)

  datatype Reply =
    | SeatOpened
    | SeatClosed
    | DeviceOpened(id: int)
    | DeviceClosed
    | SeatDisabled
    | SessionSwitched
    | Pong
    | Error

  datatype Effect =
    | EnableSent(c: ClientId)
    | DisableSent(c: ClientId)
    | EnableLeft(c: ClientId)           // the send failed with the message on the ring
    | DisableLeft(c: ClientId)
    | DisableAcked(c: ClientId)
    | Replied(c: ClientId, reply: Reply)
    | OpenedDevice(c: ClientId, path: string)
    | ClosedDevice(c: ClientId, path: string)
    | VtOpened(vt: int)
    | VtClosed(vt: int)
    | VtActivated(vt: int)              // VT_ACTIVATE was accepted by the kernel
    | VtChanged(oldVt: int, newVt: int) // a VT event was handled
    | Gone(c: ClientId)                 // client_destroy

  datatype Seat = Seat(
    vtBound: bool,
    curVt: int,
    pendingVt: int,
    active: Option<ClientId>,
    next: Option<ClientId>,
    order: seq<ClientId>,            // seat->clients, newest first
    clients: map<ClientId, Client>,  // every connected client, seated or idle
    groups: seq<GroupVt>,            // seat->group_vts, newest first
    nextId: nat,
    log: seq<Effect>)

  datatype Node = Node(path: string, kind: DeviceKind)

  // An event message goes out; or its flush fails, and it stays on the ring for a later flush; or
  // it does not even get there. The daemon sees a failure in both of the latter cases.
  datatype Sending = Delivered | Left | Dropped

  // The answers a single step may get from outside the daemon.
  datatype Io = Io(
    vt: int,                 // terminal_current_vt, not positive when tty0 cannot be read
    vtOpen: bool,            // vt_open
    vtSwitch: bool,          // vt_switch
    freeVt: int,             // terminal_find_available, -1 on failure
    send: Sending,           // client_send_enable_seat or client_send_disable_seat
    put: bool,               // queueing the reply
    putFd: bool,             // connection_put_fd
    flush: bool,             // client_flush after the reply
    resolved: Option<Node>,  // realpath and the device type tests
    open: bool,              // open(2) on the device
    dup: bool,               // dup(2) on its descriptor
    revokeFails: set<int>)   // ids of the devices whose revocation is refused

  datatype Done = Done(s: Seat, ok: bool)

  function Init(vtBound: bool): (s: Seat) {
    Seat(vtBound, -1, 0, None, None, [], map[], [], 0, [])
  }

  // ---------------------------------------------------------------- devices

  function DeactivateDevice(d: Device, fails: set<int>): Device {
    if !d.active then d
    else if d.kind != Wscons && d.id in fails then d.(revokeFailed := true)
    else d.(active := false)
  }

  function ActivateDevice(d: Device): Device {
    if !d.active && d.kind == Drm then d.(active := true) else d
  }

  function DropDevice(d: Device, fails: set<int>): Device {
    if d.kind == Drm then DeactivateDevice(d, fails) else d
  }

  function DeactivateAll(ds: seq<Device>, fails: set<int>): (r: seq<Device>)
    ensures |r| == |ds| && forall i :: 0 <= i < |ds| ==> r[i] == DeactivateDevice(ds[i], fails)
  {
    seq(|ds|, i requires 0 <= i < |ds| => DeactivateDevice(ds[i], fails))
  }

  function ActivateAll(ds: seq<Device>): (r: seq<Device>)
    ensures |r| == |ds| && forall i :: 0 <= i < |ds| ==> r[i] == ActivateDevice(ds[i])
  {
    seq(|ds|, i requires 0 <= i < |ds| => ActivateDevice(ds[i]))
  }

  function DropDrm(ds: seq<Device>, fails: set<int>): (r: seq<Device>)
    ensures |r| == |ds| && forall i :: 0 <= i < |ds| ==> r[i] == DropDevice(ds[i], fails)
  {
    seq(|ds|, i requires 0 <= i < |ds| => DropDevice(ds[i], fails))
  }

  // The index of the first device with this id, or the length of the table.
  function IndexOfId(ds: seq<Device>, id: int): (i: nat)
    ensures i <= |ds| && (i < |ds| ==> ds[i].id == id)
    ensures forall j :: 0 <= j < i ==> ds[j].id != id
  {
    if ds == [] || ds[0].id == id then 0 else 1 + IndexOfId(ds[1..], id)
  }

  function IndexOfPath(ds: seq<Device>, path: string): (i: nat)
    ensures i <= |ds| && (i < |ds| ==> ds[i].path == path)
    ensures forall j :: 0 <= j < i ==> ds[j].path != path
  {
    if ds == [] || ds[0].path == path then 0 else 1 + IndexOfPath(ds[1..], path)
  }

  // One more than the largest id in use, and 1 for an empty table.
  function FreshDeviceId(ds: seq<Device>): (id: int)
    ensures id >= 1
    ensures forall i :: 0 <= i < |ds| ==> ds[i].id < id
    ensures id == 1 || exists i :: 0 <= i < |ds| && ds[i].id == id - 1
  {
    if ds == [] then 1
    else
      var rest := FreshDeviceId(ds[..|ds| - 1]);
      if ds[|ds| - 1].id >= rest then ds[|ds| - 1].id + 1 else rest
  }

  function RemoveAt<T>(xs: seq<T>, i: nat): seq<T>
    requires i < |xs|
  {
    xs[..i] + xs[i + 1..]
  }

  // seat_close_device on the i-th entry of the table.
  function CloseAt(ds: seq<Device>, i: nat): seq<Device>
    requires i < |ds|
  {
    if ds[i].refCnt > 1 then ds[i := ds[i].(refCnt := ds[i].refCnt - 1)] else RemoveAt(ds, i)
  }

  // ---------------------------------------------------------------- VT ownership

  function GroupOwner(groups: seq<GroupVt>, vt: int): (r: Option<ClientId>)
    ensures r.None? <==> forall i :: 0 <= i < |groups| ==> groups[i].vt != vt
    ensures r.Some? ==> GroupVt(vt, r.value) in groups
  {
    if groups == [] then None
    else if groups[0].vt == vt then Some(groups[0].owner)
    else GroupOwner(groups[1..], vt)
  }

  predicate OwnsVt(s: Seat, c: ClientId, vt: int)
    requires c in s.clients
  {
    || s.clients[c].session == vt
    || (s.clients[c].seated && GroupOwner(s.groups, vt) == Some(c))
  }

  function VtForOpen(s: Seat, c: ClientId): int
    requires c in s.clients
  {
    if s.curVt > 0 && OwnsVt(s, c, s.curVt) then s.curVt else s.clients[c].session
  }

  predicate Listed(s: Seat) {
    forall i :: 0 <= i < |s.order| ==> s.order[i] in s.clients
  }

  // What every operation relies on: lists and pointers lead to existing clients.
  predicate Linked(s: Seat) {
    && Listed(s)
    && (s.next.Some? ==> s.next.value in s.clients)
    && (s.active.Some? ==> s.active.value in s.clients)
  }

  // The first client in list order that owns the VT.
  function FirstOwner(s: Seat, vt: int, from: nat): (r: Option<ClientId>)
    requires Listed(s) && from <= |s.order|
    ensures r.None? ==> forall i :: from <= i < |s.order| ==> !OwnsVt(s, s.order[i], vt)
    ensures r.Some? ==> r.value in s.order && OwnsVt(s, r.value, vt)
    decreases |s.order| - from
  {
    if from == |s.order| then None
    else if OwnsVt(s, s.order[from], vt) then Some(s.order[from])
    else FirstOwner(s, vt, from + 1)
  }

  function UpdateVt(s: Seat, vt: int): Seat {
    if vt > 0 then s.(curVt := vt) else s
  }

  // ---------------------------------------------------------------- activation

  function SetClient(s: Seat, c: ClientId, cl: Client): Seat {
    s.(clients := s.clients[c := cl])
  }

  function Emit(s: Seat, e: Effect): Seat {
    s.(log := s.log + [e])
  }

  // seat_open_client once the VT is open.
  function OpenOn(s: Seat, c: ClientId, vt: int, io: Io): Seat
    requires c in s.clients
  {
    var cl := s.clients[c];
    var up := ActivateAll(cl.devices);
    if io.send.Delivered? then
      Emit(SetClient(s, c, cl.(state := Active, devices := up)), EnableSent(c)).(active := Some(c))
    else
      var s0 := if io.send.Left? then Emit(s, EnableLeft(c)) else s;
      var s1 := SetClient(s0, c, cl.(devices := DeactivateAll(up, io.revokeFails)));
      if s.vtBound then Emit(s1, VtClosed(vt)) else s1
  }

  function OpenClient(s: Seat, c: ClientId, io: Io): Seat
    requires c in s.clients
  {
    var cl := s.clients[c];
    if cl.state != New && cl.state != Disabled then s
    else if s.active.Some? then s
    else if !s.vtBound then OpenOn(s, c, cl.session, io)
    else if !io.vtOpen then s
    else OpenOn(Emit(s, VtOpened(VtForOpen(s, c))), c, VtForOpen(s, c), io)
  }

  // Whom seat_activate chooses: the queued client, else on a VT-bound seat the first owner of the
  // current VT, else the first client of the list.
  function Candidate(s: Seat): (r: Option<ClientId>)
    requires Listed(s) && (s.next.Some? ==> s.next.value in s.clients)
    ensures r.Some? ==> r.value in s.clients && (r == s.next || r.value in s.order)
    ensures r.Some? && s.next.None? && s.vtBound ==> OwnsVt(s, r.value, s.curVt)
  {
    if s.next.Some? then s.next
    else if s.order == [] || (s.vtBound && s.curVt == -1) then None
    else if s.vtBound then FirstOwner(s, s.curVt, 0)
    else Some(s.order[0])
  }

  function Activate(s: Seat, io: Io): Seat
    requires Listed(s) && (s.next.Some? ==> s.next.value in s.clients)
  {
    var chosen := Candidate(s);
    if s.active.Some? || chosen.None? then s else OpenClient(s.(next := None), chosen.value, io)
  }

  function DisableClient(s: Seat, c: ClientId, io: Io): Seat
    requires c in s.clients
  {
    var cl := s.clients[c];
    if cl.state != Active then s
    else
      var s1 := SetClient(s, c, cl.(state := PendingDisable, devices := DeactivateAll(cl.devices, io.revokeFails)));
      match io.send
      case Delivered => Emit(s1, DisableSent(c))
      case Left => Emit(s1, DisableLeft(c))
      case Dropped => s1
  }

  function AckDisable(s: Seat, c: ClientId, io: Io): Done
    requires c in s.clients && Listed(s) && (s.next.Some? ==> s.next.value in s.clients)
  {
    if s.clients[c].state != PendingDisable then Done(s, false)
    else
      var s1 := Emit(SetClient(s, c, s.clients[c].(state := Disabled)), DisableAcked(c));
      if s.active != Some(c) then Done(s1, true)
      else Done(Activate(s1.(active := None), io), true)
  }

  // ---------------------------------------------------------------- membership

  // The least number from `n` on that is not in `used`.
  function MinFree(used: set<int>, n: int): (r: int)
    ensures r >= n && r !in used
    ensures forall k :: n <= k < r ==> k in used
    decreases used
  {
    if n in used then MinFree(used - {n}, n + 1) else n
  }

  function SessionSet(s: Seat): set<int>
    requires Listed(s)
  {
    set i | 0 <= i < |s.order| :: s.clients[s.order[i]].session
  }

  function Join(s: Seat, c: ClientId, session: int): Seat
    requires c in s.clients
  {
    SetClient(s, c, s.clients[c].(session := session, seated := true)).(order := [c] + s.order)
  }

  function AddClient(s: Seat, c: ClientId, io: Io): Done
    requires c in s.clients && Listed(s) && (s.active.Some? ==> s.active.value in s.clients)
  {
    if s.clients[c].seated then Done(s, false)
    else if s.vtBound && s.active.Some? && s.clients[s.active.value].state != PendingDisable then Done(s, false)
    else if s.clients[c].session != -1 then Done(s, false)
    else if s.vtBound then JoinOnVt(UpdateVt(s, io.vt), c)
    else Done(Join(s, c, MinFree(SessionSet(s), 1)), true)
  }

  // On a VT-bound seat the session of a client is the VT it joins on.
  function JoinOnVt(s: Seat, c: ClientId): Done
    requires c in s.clients && Listed(s)
  {
    if s.curVt == -1 then Done(s, false)
    else if s.active.Some? && s.curVt in SessionSet(s) then Done(s, false)
    else Done(Join(s, c, s.curVt), true)
  }

  function Without(order: seq<ClientId>, c: ClientId): (r: seq<ClientId>)
    ensures forall x :: x in r <==> x in order && x != c
    ensures forall i :: 0 <= i < |r| ==> r[i] in order
  {
    if order == [] then []
    else if order[0] == c then Without(order[1..], c)
    else [order[0]] + Without(order[1..], c)
  }

  function GroupsNotOf(groups: seq<GroupVt>, c: ClientId): (r: seq<GroupVt>)
    ensures forall g :: g in r <==> g in groups && g.owner != c
  {
    if groups == [] then []
    else if groups[0].owner == c then GroupsNotOf(groups[1..], c)
    else [groups[0]] + GroupsNotOf(groups[1..], c)
  }

  function GroupsOfClosed(groups: seq<GroupVt>, c: ClientId): (r: seq<Effect>)
    ensures forall i :: 0 <= i < |r| ==> r[i].VtClosed?
  {
    if groups == [] then []
    else if groups[0].owner == c then [VtClosed(groups[0].vt)] + GroupsOfClosed(groups[1..], c)
    else GroupsOfClosed(groups[1..], c)
  }

  // The reference counts of a table added up; an entry always counts for at least one.
  function Weight(ds: seq<Device>): nat {
    if ds == [] then 0
    else Weight(ds[1..]) + if ds[0].refCnt > 1 then ds[0].refCnt else 1
  }

  lemma CloseAtLowersWeight(ds: seq<Device>)
    requires ds != []
    ensures Weight(CloseAt(ds, 0)) < Weight(ds)
  {
    if ds[0].refCnt > 1 {
      assert CloseAt(ds, 0)[1..] == ds[1..];
    } else {
      assert CloseAt(ds, 0) == ds[1..];
    }
  }

  // The closes that the removal loop performs: the head of the table until it is empty.
  function ClosesOf(c: ClientId, ds: seq<Device>): seq<Effect>
    decreases Weight(ds)
  {
    if ds == [] then []
    else
      CloseAtLowersWeight(ds);
      [ClosedDevice(c, ds[0].path)] + ClosesOf(c, CloseAt(ds, 0))
  }

  // The state seat_remove_client has reached when it looks for another client to activate.
  function Detach(s: Seat, c: ClientId): Seat
    requires c in s.clients
  {
    s.(
      next := if s.next == Some(c) then None else s.next,
      active := if s.active == Some(c) then None else s.active,
      order := Without(s.order, c),
      clients := s.clients[c := s.clients[c].(seated := false, state := Closed, devices := [])],
      groups := GroupsNotOf(s.groups, c),
      log := s.log + ClosesOf(c, s.clients[c].devices)
             + if s.vtBound then GroupsOfClosed(s.groups, c) else [])
  }

  // ... and the state once another client had its chance.
  function Vacate(s: Seat, c: ClientId, io: Io): Seat
    requires c in s.clients && Listed(s) && (s.next.Some? ==> s.next.value in s.clients)
  {
    if s.active == Some(c) then Activate(Detach(s, c), io) else Detach(s, c)
  }

  function RemoveClient(s: Seat, c: ClientId, io: Io): Seat
    requires c in s.clients && Listed(s) && (s.next.Some? ==> s.next.value in s.clients)
  {
    var r := Vacate(s, c, io);
    if s.vtBound && (if s.active == Some(c) then r.active.None? else s.clients[c].state != Closed)
    then Emit(r, VtClosed(s.clients[c].session))
    else r
  }

  // ---------------------------------------------------------------- device requests

  function SetDevices(s: Seat, c: ClientId, ds: seq<Device>): Seat
    requires c in s.clients
  {
    SetClient(s, c, s.clients[c].(devices := ds))
  }

  // `at` is the place of the opened device in the client's table.
  datatype Opened = Opened(s: Seat, at: Option<nat>)

  function OpenDevice(s: Seat, c: ClientId, io: Io): (r: Opened)
    requires c in s.clients
    ensures r.at.Some? ==> c in r.s.clients && r.at.value < |r.s.clients[c].devices|
  {
    var cl := s.clients[c];
    if cl.state != Active || io.resolved.None? then Opened(s, None)
    else
      var Node(path, kind) := io.resolved.value;
      var i := IndexOfPath(cl.devices, path);
      if i < |cl.devices| then
        var d := cl.devices[i];
        Opened(Emit(SetDevices(s, c, cl.devices[i := d.(refCnt := d.refCnt + 1)]), OpenedDevice(c, path)), Some(i))
      else if |cl.devices| >= MAX_SEAT_DEVICES || !io.open then Opened(s, None)
      else
        var id := FreshDeviceId(cl.devices);
        var ds := [Device(id, path, kind, 1, true, false)] + cl.devices;
        Opened(Emit(SetDevices(s, c, ds), OpenedDevice(c, path)), Some(0))
  }

  function CloseDevice(s: Seat, c: ClientId, i: nat): Seat
    requires c in s.clients && i < |s.clients[c].devices|
  {
    Emit(SetDevices(s, c, CloseAt(s.clients[c].devices, i)), ClosedDevice(c, s.clients[c].devices[i].path))
  }

  // ---------------------------------------------------------------- switching

  function IndexOfSession(s: Seat, session: int, from: nat): (i: nat)
    requires Listed(s) && from <= |s.order|
    ensures from <= i <= |s.order| && (i < |s.order| ==> s.clients[s.order[i]].session == session)
    ensures forall j :: from <= j < i ==> s.clients[s.order[j]].session != session
    decreases |s.order| - from
  {
    if from == |s.order| || s.clients[s.order[from]].session == session then from
    else IndexOfSession(s, session, from + 1)
  }

  function SwitchTo(s: Seat, vt: int, io: Io): Done {
    if io.vtSwitch then Done(Emit(s, VtActivated(vt)).(pendingVt := vt), true)
    else Done(s.(pendingVt := 0), false)
  }

  function SetNextSession(s: Seat, c: ClientId, session: int, io: Io): Done
    requires c in s.clients && Listed(s)
  {
    if s.clients[c].state != Active || session <= 0 then Done(s, false)
    else if s.vtBound && s.curVt == session then Done(s, true)
    else if !s.vtBound && session == s.clients[c].session then Done(s, true)
    else if s.pendingVt > 0 then Done(s, false)
    else if s.next.Some? then Done(s, true)
    else if s.vtBound then SwitchTo(s, session, io)
    else
      var i := IndexOfSession(s, session, 0);
      if i == |s.order| then Done(s, false)
      else Done(DisableClient(s.(next := Some(s.order[i])), c, io), true)
  }

  function SwitchVt(s: Seat, vt: int, io: Io): Done {
    if !s.vtBound || vt <= 0 || io.vt <= 0 then Done(s, false)
    else
      var s1 := UpdateVt(s, io.vt);
      if s1.curVt == vt then Done(s1, true)
      else if s1.pendingVt > 0 then Done(s1, false)
      else SwitchTo(s1, vt, io)
  }

  // ---------------------------------------------------------------- grouped VTs

  function CreateGroupVt(s: Seat, owner: ClientId, requested: int, io: Io): Done
    requires owner in s.clients
  {
    if !s.vtBound || !s.clients[owner].seated then Done(s, false)
    else if requested <= 0 && io.freeVt == -1 then Done(s, false)
    else
      var vt := if requested <= 0 then io.freeVt else requested;
      if vt == s.clients[owner].session || GroupOwner(s.groups, vt).Some? || !io.vtOpen then Done(s, false)
      else Done(Emit(s.(groups := [GroupVt(vt, owner)] + s.groups), VtOpened(vt)), true)
  }

  function IndexOfGroup(groups: seq<GroupVt>, vt: int): (i: nat)
    ensures i <= |groups| && (i < |groups| ==> groups[i].vt == vt)
    ensures forall j :: 0 <= j < i ==> groups[j].vt != vt
  {
    if groups == [] || groups[0].vt == vt then 0 else 1 + IndexOfGroup(groups[1..], vt)
  }

  function DestroyGroupVt(s: Seat, vt: int): Done {
    var i := IndexOfGroup(s.groups, vt);
    if i == |s.groups| then Done(s, false)
    else
      var s1 := s.(groups := RemoveAt(s.groups, i));
      Done(if s.vtBound then Emit(s1, VtClosed(vt)) else s1, true)
  }

  // ---------------------------------------------------------------- VT signals and events

  function VtRelease(s: Seat, io: Io): Seat
    requires s.active.Some? ==> s.active.value in s.clients
  {
    if !s.vtBound then s
    else
      var s1 := UpdateVt(s, io.vt);
      if s1.active.None? || s1.clients[s1.active.value].state != Active then s1
      else
        var c := s1.active.value;
        if s1.pendingVt > 0 && OwnsVt(s1, c, s1.pendingVt) then s1
        else SetDevices(s1, c, DropDrm(s1.clients[c].devices, io.revokeFails))
  }

  function VtAcquire(s: Seat, io: Io): Seat {
    if s.vtBound then UpdateVt(s, io.vt) else s
  }

  // What the new current VT means for the active client.
  function FollowVt(s: Seat, io: Io): Seat
    requires Linked(s)
  {
    if s.active.None? then Activate(s, io)
    else
      var c := s.active.value;
      if OwnsVt(s, c, s.curVt) then SetDevices(s, c, ActivateAll(s.clients[c].devices))
      else DisableClient(s, c, io)
  }

  // The new VT is current, and no switch is pending any more.
  function Moved(s: Seat, oldVt: int, newVt: int): Seat {
    Emit(s.(pendingVt := if s.pendingVt > 0 then 0 else s.pendingVt, curVt := newVt), VtChanged(oldVt, newVt))
  }

  function VtEvent(s: Seat, oldVt: int, newVt: int, io: Io): Seat
    requires Linked(s)
  {
    FollowVt(Moved(s, oldVt, newVt), io)
  }

  // ---------------------------------------------------------------- requests and steps

  datatype Request =
    | OpenSeatReq
    | CloseSeatReq
    | OpenDeviceReq
    | CloseDeviceReq(id: int)
    | DisableSeatReq
    | SwitchSessionReq(session: int)
    | PingReq

  // Everything the event loop can hand to the seat.
  datatype Step =
    | Connect(pid: int)
    | Serve(c: ClientId, req: Request)
    | Disconnect(c: ClientId)           // hangup, socket error or protocol error
    | ControlCreate(pid: int, vt: int)
    | ControlDestroy(vt: int)
    | ControlActiveVt
    | ControlSwitch(vt: int)
    | SignalRelease
    | SignalAcquire
    | Event(oldVt: int, newVt: int)

  function Answer(s: Seat, c: ClientId, reply: Reply, io: Io): Done {
    if io.put then Done(Emit(s, Replied(c, reply)), true) else Done(s, false)
  }

  function HandleOpenSeat(s: Seat, c: ClientId, io: Io): Done
    requires c in s.clients && Linked(s)
  {
    var added := AddClient(s, c, io);
    if !added.ok then added
    else
      var told := Answer(added.s, c, SeatOpened, io);
      if !told.ok then told else Done(OpenClient(told.s, c, io), true)
  }

  function HandleOpenDevice(s: Seat, c: ClientId, io: Io): Done
    requires c in s.clients
  {
    var got := OpenDevice(s, c, io);
    if got.at.None? then Answer(s, c, Error, io)
    else if !io.dup then Answer(CloseDevice(got.s, c, got.at.value), c, Error, io)
    else if !io.putFd then Done(got.s, false)
    else Answer(got.s, c, DeviceOpened(got.s.clients[c].devices[got.at.value].id), io)
  }

  function HandleCloseDevice(s: Seat, c: ClientId, id: int, io: Io): Done
    requires c in s.clients
  {
    var i := IndexOfId(s.clients[c].devices, id);
    if id == 0 || i == |s.clients[c].devices| then Answer(s, c, Error, io)
    else Answer(CloseDevice(s, c, i), c, DeviceClosed, io)
  }

  function Handle(s: Seat, c: ClientId, req: Request, io: Io): Done
    requires c in s.clients && Linked(s)
  {
    match req
    case PingReq => Answer(s, c, Pong, io)
    case OpenSeatReq => HandleOpenSeat(s, c, io)
    case _ =>
      if !s.clients[c].seated then Done(s, false)
      else match req
        case CloseSeatReq => Answer(RemoveClient(s, c, io), c, SeatClosed, io)
        case OpenDeviceReq => HandleOpenDevice(s, c, io)
        case CloseDeviceReq(id) => HandleCloseDevice(s, c, id, io)
        case DisableSeatReq =>
          var acked := AckDisable(s, c, io);
          Answer(acked.s, c, if acked.ok then SeatDisabled else Error, io)
        case SwitchSessionReq(session) =>
          var queued := SetNextSession(s, c, session, io);
          Answer(queued.s, c, if queued.ok then SessionSwitched else Error, io)
        case _ => Done(s, false)
  }

  function Destroy(s: Seat, c: ClientId, io: Io): Seat
    requires c in s.clients && Linked(s)
  {
    var s1 := if s.clients[c].seated then RemoveClient(s, c, io) else s;
    Emit(s1.(clients := s1.clients - {c}), Gone(c))
  }

  // The first member, in list order, that runs as this process.
  function IndexOfPid(s: Seat, pid: int, from: nat): (i: nat)
    requires Listed(s) && from <= |s.order|
    ensures from <= i <= |s.order| && (i < |s.order| ==> s.clients[s.order[i]].pid == pid)
    ensures forall j :: from <= j < i ==> s.clients[s.order[j]].pid != pid
    decreases |s.order| - from
  {
    if from == |s.order| || s.clients[s.order[from]].pid == pid then from
    else IndexOfPid(s, pid, from + 1)
  }
}
