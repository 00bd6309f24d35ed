// The seat as the daemon keeps it: one object whose fields the operations of seatd/seat.c update
// in place. Every method is proved to reach the state its specification function describes.
module SeatDaemon {
  import opened Options
  import opened SeatSpec
  import opened SeatInvariant

  class SeatObject {
    const vtBound: bool
    var curVt: int
    var pendingVt: int
    var active: Option<ClientId>
    var next: Option<ClientId>
    var order: seq<ClientId>
    var clients: map<ClientId, Client>
    var groups: seq<GroupVt>
    var nextId: nat
    var log: seq<Effect>

    function Model(): Seat
      reads this
    {
      Seat(vtBound, curVt, pendingVt, active, next, order, clients, groups, nextId, log)
    }

    ghost predicate Valid()
      reads this
    {
      Inv(Model())
    }

    constructor (vtBound: bool)
      ensures Valid() && Model() == Init(vtBound)
    {
      this.vtBound := vtBound;
      curVt, pendingVt, active, next := -1, 0, None, None;
      order, clients, groups, nextId, log := [], map[], [], 0, [];
    }

    // ---------------------------------------------------------------- queries

    method FindGroupVt(vt: int) returns (owner: Option<ClientId>)
      ensures owner == GroupOwner(groups, vt)
    {
      var i := 0;
      while i < |groups|
        invariant 0 <= i <= |groups|
        invariant GroupOwner(groups, vt) == GroupOwner(groups[i..], vt)
      {
        if groups[i].vt == vt { return Some(groups[i].owner); }
        i := i + 1;
      }
      return None;
    }

    method ClientOwnsVt(c: ClientId, vt: int) returns (owns: bool)
      requires c in clients
      ensures owns == OwnsVt(Model(), c, vt)
    {
      if clients[c].session == vt { return true; }
      if !clients[c].seated { return false; }
      var owner := FindGroupVt(vt);
      return owner == Some(c);
    }

    // The client of the list that owns the current VT, searched from the head.
    method FindOwner() returns (r: Option<ClientId>)
      requires Listed(Model())
      ensures r == FirstOwner(Model(), curVt, 0)
    {
      var i := 0;
      while i < |order|
        invariant 0 <= i <= |order|
        invariant FirstOwner(Model(), curVt, 0) == FirstOwner(Model(), curVt, i)
      {
        var owns := ClientOwnsVt(order[i], curVt);
        if owns { return Some(order[i]); }
        i := i + 1;
      }
      return None;
    }

    method FindDevice(c: ClientId, id: int) returns (r: Option<nat>)
      requires c in clients
      ensures var i := IndexOfId(clients[c].devices, id);
              r == if id == 0 || i == |clients[c].devices| then None else Some(i)
    {
      if id == 0 { return None; }
      var ds := clients[c].devices;
      var i := 0;
      while i < |ds|
        invariant 0 <= i <= |ds|
        invariant IndexOfId(ds, id) == i + IndexOfId(ds[i..], id)
      {
        if ds[i].id == id { return Some(i); }
        assert ds[i..][1..] == ds[i + 1..];
        i := i + 1;
      }
      return None;
    }

    // The search for a session restarts at the head of the list after every collision.
    method FreeSession() returns (n: int)
      requires Listed(Model())
      ensures n == MinFree(SessionSet(Model()), 1)
    {
      ghost var used := SessionSet(Model());
      n := 1;
      var i := 0;
      AtMostMembers(Model(), n);
      while i < |order|
        invariant 1 <= n <= |order| + 1 && 0 <= i <= |order|
        invariant forall k :: 1 <= k < n ==> k in used
        invariant forall j :: 0 <= j < i ==> clients[order[j]].session != n
        decreases |order| + 1 - n, |order| - i
      {
        if clients[order[i]].session == n {
          assert n in used;
          AtMostMembers(Model(), n + 1);
          n, i := n + 1, 0;
        } else {
          i := i + 1;
        }
      }
      LeastIsMinFree(used, n);
    }

    // ---------------------------------------------------------------- devices of one client

    method SetDevice(c: ClientId, i: nat, d: Device)
      requires c in clients && i < |clients[c].devices|
      modifies this`clients
      ensures clients == old(clients)[c := old(clients[c]).(devices := old(clients[c].devices)[i := d])]
    {
      clients := clients[c := clients[c].(devices := clients[c].devices[i := d])];
    }

    method ActivateDevices(c: ClientId)
      requires c in clients
      modifies this`clients
      ensures Model() == SetDevices(old(Model()), c, ActivateAll(old(clients[c].devices)))
    {
      ghost var was := clients[c].devices;
      var i := 0;
      while i < |clients[c].devices|
        invariant 0 <= i <= |was| && c in clients && |clients[c].devices| == |was|
        invariant clients == old(clients)[c := old(clients[c]).(devices := clients[c].devices)]
        invariant forall j :: 0 <= j < |was| ==>
                  clients[c].devices[j] == if j < i then ActivateDevice(was[j]) else was[j]
      {
        SetDevice(c, i, ActivateDevice(clients[c].devices[i]));
        i := i + 1;
      }
      assert clients[c].devices == ActivateAll(was);
    }

    method DeactivateDevices(c: ClientId, fails: set<int>)
      requires c in clients
      modifies this`clients
      ensures Model() == SetDevices(old(Model()), c, DeactivateAll(old(clients[c].devices), fails))
    {
      ghost var was := clients[c].devices;
      var i := 0;
      while i < |clients[c].devices|
        invariant 0 <= i <= |was| && c in clients && |clients[c].devices| == |was|
        invariant clients == old(clients)[c := old(clients[c]).(devices := clients[c].devices)]
        invariant forall j :: 0 <= j < |was| ==>
                    clients[c].devices[j] == if j < i then DeactivateDevice(was[j], fails) else was[j]
      {
        SetDevice(c, i, DeactivateDevice(clients[c].devices[i], fails));
        i := i + 1;
      }
      assert clients[c].devices == DeactivateAll(was, fails);
    }

    method DropMaster(c: ClientId, fails: set<int>)
      requires c in clients
      modifies this`clients
      ensures Model() == SetDevices(old(Model()), c, DropDrm(old(clients[c].devices), fails))
    {
      ghost var was := clients[c].devices;
      var i := 0;
      while i < |clients[c].devices|
        invariant 0 <= i <= |was| && c in clients && |clients[c].devices| == |was|
        invariant clients == old(clients)[c := old(clients[c]).(devices := clients[c].devices)]
        invariant forall j :: 0 <= j < |was| ==>
                    clients[c].devices[j] == if j < i then DropDevice(was[j], fails) else was[j]
      {
        var d := clients[c].devices[i];
        if d.kind == Drm && d.active { SetDevice(c, i, DeactivateDevice(d, fails)); }
        i := i + 1;
      }
      assert clients[c].devices == DropDrm(was, fails);
    }

    method RestoreMaster(c: ClientId)
      requires c in clients
      modifies this`clients
      ensures Model() == SetDevices(old(Model()), c, ActivateAll(old(clients[c].devices)))
    {
      ghost var was := clients[c].devices;
      var i := 0;
      while i < |clients[c].devices|
        invariant 0 <= i <= |was| && c in clients && |clients[c].devices| == |was|
        invariant clients == old(clients)[c := old(clients[c]).(devices := clients[c].devices)]
        invariant forall j :: 0 <= j < |was| ==>
                  clients[c].devices[j] == if j < i then ActivateDevice(was[j]) else was[j]
      {
        var d := clients[c].devices[i];
        if d.kind == Drm && !d.active { SetDevice(c, i, d.(active := true)); }
        i := i + 1;
      }
      assert clients[c].devices == ActivateAll(was);
    }

    method CloseDeviceAt(c: ClientId, i: nat)
      requires c in clients && i < |clients[c].devices|
      modifies this`clients, this`log
      ensures Model() == CloseDevice(old(Model()), c, i)
    {
      var d := clients[c].devices[i];
      log := log + [ClosedDevice(c, d.path)];
      if d.refCnt > 1 {
        SetDevice(c, i, d.(refCnt := d.refCnt - 1));
      } else {
        clients := clients[c := clients[c].(devices := RemoveAt(clients[c].devices, i))];
      }
    }

    // The loop of seat_open_device: a device with this path, or the next id to give out.
    static method LookUp(ds: seq<Device>, path: string) returns (i: nat, id: int)
      ensures i == IndexOfPath(ds, path) && (i == |ds| ==> id == FreshDeviceId(ds))
    {
      i, id := 0, 1;
      while i < |ds|
        invariant i <= |ds| && IndexOfPath(ds, path) >= i && id == FreshDeviceId(ds[..i])
      {
        if ds[i].path == path { return; }
        assert ds[..i + 1][..i] == ds[..i];
        if ds[i].id >= id { id := ds[i].id + 1; }
        i := i + 1;
      }
      assert ds[..i] == ds;
    }

    // seat_open_device
    method OpenDeviceFor(c: ClientId, io: Io) returns (at: Option<nat>)
      requires Valid() && c in clients && clients[c].seated
      modifies this`clients, this`log
      ensures Opened(Model(), at) == OpenDevice(old(Model()), c, io)
    {
      if clients[c].state != Active { return None; }
      assert active == Some(c);
      if io.resolved.None? { return None; }
      var Node(path, kind) := io.resolved.value;
      var ds := clients[c].devices;
      var i, id := LookUp(ds, path);
      if i < |ds| {
        SetDevice(c, i, ds[i].(refCnt := ds[i].refCnt + 1));
        log := log + [OpenedDevice(c, path)];
        return Some(i);
      }
      if |ds| >= MAX_SEAT_DEVICES || !io.open { return None; }
      clients := clients[c := clients[c].(devices := [Device(id, path, kind, 1, true, false)] + ds)];
      log := log + [OpenedDevice(c, path)];
      return Some(0);
    }

    // ---------------------------------------------------------------- activation

    method UpdateCurrentVt(vt: int)
      modifies this`curVt
      ensures Model() == UpdateVt(old(Model()), vt)
    {
      if vt > 0 { curVt := vt; }
    }

    method SetState(c: ClientId, state: ClientState)
      requires c in clients
      modifies this`clients
      ensures clients == old(clients)[c := old(clients[c]).(state := state)]
    {
      clients := clients[c := clients[c].(state := state)];
    }

    // seat_open_client
    method OpenSeatFor(c: ClientId, io: Io)
      requires c in clients && clients[c].seated
      modifies this
      ensures Model() == OpenClient(old(Model()), c, io)
    {
      if clients[c].state != New && clients[c].state != Disabled { return; }
      if active.Some? { return; }
      var vt := clients[c].session;
      if curVt > 0 {
        var owns := ClientOwnsVt(c, curVt);
        if owns { vt := curVt; }
      }
      if vtBound {
        if !io.vtOpen { return; }
        log := log + [VtOpened(vt)];
      }
      OpenOnVt(c, vt, io);
    }

    // seat_open_client from the activation of the devices on
    method OpenOnVt(c: ClientId, vt: int, io: Io)
      requires c in clients
      modifies this`clients, this`log, this`active
      ensures Model() == OpenOn(old(Model()), c, vt, io)
    {
      hide ActivateAll, DeactivateAll;
      ActivateDevices(c);
      if !io.send.Delivered? {
        GiveUp(c, vt, io);
        return;
      }
      SetState(c, Active);
      active := Some(c);
      log := log + [EnableSent(c)];
    }

    // Its way back after a failed send.
    method GiveUp(c: ClientId, vt: int, io: Io)
      requires c in clients
      modifies this`clients, this`log
      ensures clients ==
              old(clients)[c := old(clients)[c].(devices := DeactivateAll(old(clients)[c].devices, io.revokeFails))]
      ensures log == old(log) +
                (if io.send.Left? then [EnableLeft(c)] else []) + (if vtBound then [VtClosed(vt)] else [])
    {
      hide DeactivateAll;
      if io.send.Left? { log := log + [EnableLeft(c)]; }
      DeactivateDevices(c, io.revokeFails);
      if vtBound { log := log + [VtClosed(vt)]; }
    }

    // seat_activate
    method ActivateNext(io: Io)
      requires Ready(Model())
      modifies this
      ensures Model() == Activate(old(Model()), io)
    {
      if active.Some? { return; }
      var chosen: Option<ClientId>;
      if next.Some? {
        chosen := next;
        next := None;
      } else if order == [] {
        return;
      } else if vtBound {
        if curVt == -1 { return; }
        chosen := FindOwner();
        if chosen.None? { return; }
      } else {
        chosen := Some(order[0]);
      }
      OpenSeatFor(chosen.value, io);
    }

    // seat_disable_client
    method DisableActive(c: ClientId, io: Io)
      requires c in clients && (clients[c].state == Active ==> active == Some(c))
      modifies this
      ensures Model() == DisableClient(old(Model()), c, io)
    {
      if clients[c].state != Active { return; }
      assert active == Some(c);
      DeactivateDevices(c, io.revokeFails);
      SetState(c, PendingDisable);
      match io.send
      case Delivered => log := log + [DisableSent(c)];
      case Left => log := log + [DisableLeft(c)];
      case Dropped =>
    }

    // seat_ack_disable_client: the return for a client that is not the active one is never taken.
    method AcknowledgeDisable(c: ClientId, io: Io) returns (ok: bool)
      requires Valid() && c in order
      modifies this
      ensures Valid() && Done(Model(), ok) == AckDisable(old(Model()), c, io)
    {
      hide Ready, Activate;
      MemberIs(Model(), c);
      AckDisableKeeps(Model(), c, io);
      if clients[c].state != PendingDisable { return false; }
      AckedIsReady(Model(), c);
      assert active == Some(c);
      SetState(c, Disabled);
      log := log + [DisableAcked(c)];
      active := None;
      ActivateNext(io);
      return true;
    }

    // ---------------------------------------------------------------- membership

    method SessionTaken(session: int) returns (taken: bool)
      requires Listed(Model())
      ensures taken == (session in SessionSet(Model()))
    {
      var i := 0;
      while i < |order|
        invariant 0 <= i <= |order|
        invariant forall j :: 0 <= j < i ==> clients[order[j]].session != session
      {
        if clients[order[i]].session == session { return true; }
        i := i + 1;
      }
      return false;
    }

    // seat_add_client
    method Add(c: ClientId, io: Io) returns (ok: bool)
      requires Valid() && c in clients
      modifies this
      ensures Valid() && Done(Model(), ok) == AddClient(old(Model()), c, io)
    {
      hide Ready, MinFree, SessionSet;
      IsLinked(Model());
      AddClientKeeps(Model(), c, io);
      if clients[c].seated { return false; }
      if vtBound && active.Some? && clients[active.value].state != PendingDisable { return false; }
      if clients[c].session != -1 { return false; }
      if vtBound {
        UpdateCurrentVt(io.vt);
        ok := EnterOnVt(c);
      } else {
        var session := FreeSession();
        Enter(c, session);
        ok := true;
      }
    }

    method Enter(c: ClientId, session: int)
      requires c in clients
      modifies this`clients, this`order
      ensures Model() == Join(old(Model()), c, session)
    {
      clients := clients[c := clients[c].(session := session, seated := true)];
      order := [c] + order;
    }

    method EnterOnVt(c: ClientId) returns (ok: bool)
      requires c in clients && Listed(Model())
      modifies this`clients, this`order
      ensures Done(Model(), ok) == JoinOnVt(old(Model()), c)
    {
      if curVt == -1 { return false; }
      if active.Some? {
        var taken := SessionTaken(curVt);
        if taken { return false; }
      }
      Enter(c, curVt);
      return true;
    }

    method Unlink(c: ClientId)
      modifies this`order
      ensures order == Without(old(order), c)
    {
      var i := 0;
      ghost var was := order;
      var kept := [];
      while i < |order|
        invariant 0 <= i <= |order| && order == was
        invariant kept + Without(was[i..], c) == Without(was, c)
      {
        assert was[i..][1..] == was[i + 1..];
        if order[i] != c { kept := kept + [order[i]]; }
        i := i + 1;
      }
      order := kept;
    }

    // The removal loop: the head of the table is closed until the table is empty.
    method CloseAllDevices(c: ClientId)
      requires c in clients
      modifies this`clients, this`log
      ensures clients == old(clients)[c := old(clients[c]).(devices := [])]
      ensures log == old(log) + ClosesOf(c, old(clients[c].devices))
    {
      while clients[c].devices != []
        invariant c in clients
        invariant clients == old(clients)[c := old(clients[c]).(devices := clients[c].devices)]
        invariant log + ClosesOf(c, clients[c].devices) == old(log) + ClosesOf(c, old(clients[c].devices))
        decreases Weight(clients[c].devices)
      {
        CloseAtLowersWeight(clients[c].devices);
        CloseDeviceAt(c, 0);
      }
    }

    // The walk over the grouped VTs, which unlinks entries as it goes.
    method DropGroupsOf(c: ClientId)
      modifies this`groups, this`log
      ensures groups == GroupsNotOf(old(groups), c)
      ensures log == old(log) + if vtBound then GroupsOfClosed(old(groups), c) else []
    {
      hide GroupsNotOf, GroupsOfClosed;
      ghost var kept: seq<GroupVt>, rest, closed: seq<Effect> := [], groups, [];
      var i := 0;
      while i < |groups|
        invariant groups == kept + rest && i == |kept|
        invariant kept + GroupsNotOf(rest, c) == GroupsNotOf(old(groups), c)
        invariant closed + GroupsOfClosed(rest, c) == GroupsOfClosed(old(groups), c)
        invariant log == old(log) + if vtBound then closed else []
        decreases |rest|
      {
        var g := groups[i];
        assert g == rest[0];
        GroupsStep(rest, c);
        if g.owner == c {
          if vtBound { log := log + [VtClosed(g.vt)]; }
          closed := closed + [VtClosed(g.vt)];
          groups := groups[..i] + groups[i + 1..];
          assert groups == kept + rest[1..];
        } else {
          kept := kept + [g];
          i := i + 1;
        }
        rest := rest[1..];
      }
      GroupsStep(rest, c);
    }

    // One turn of the loop on either list.
    static lemma GroupsStep(groups: seq<GroupVt>, c: ClientId)
      ensures groups == [] ==> GroupsNotOf(groups, c) == [] && GroupsOfClosed(groups, c) == []
      ensures groups != [] && groups[0].owner == c ==>
              && GroupsNotOf(groups, c) == GroupsNotOf(groups[1..], c)
              && GroupsOfClosed(groups, c) == [VtClosed(groups[0].vt)] + GroupsOfClosed(groups[1..], c)
      ensures groups != [] && groups[0].owner != c ==>
              && GroupsNotOf(groups, c) == [groups[0]] + GroupsNotOf(groups[1..], c)
              && GroupsOfClosed(groups, c) == GroupsOfClosed(groups[1..], c)
    {
    }

    // The first half of seat_remove_client.
    method Strip(c: ClientId)
      requires c in clients
      modifies this
      ensures Model() == Detach(old(Model()), c)
    {
      hide ClosesOf, GroupsOfClosed, GroupsNotOf, Without;
      if next == Some(c) { next := None; }
      Unlink(c);
      CloseAllDevices(c);
      DropGroupsOf(c);
      if active == Some(c) { active := None; }
      clients := clients[c := clients[c].(seated := false, state := Closed)];
      assert clients == old(clients)[c := old(clients[c]).(seated := false, state := Closed, devices := [])];
      assert log == old(log) + ClosesOf(c, old(clients[c].devices)) +
               if vtBound then GroupsOfClosed(old(groups), c) else [];
    }

    // seat_remove_client
    method Remove(c: ClientId, io: Io)
      requires Valid() && c in order
      modifies this
      ensures Valid() && Model() == RemoveClient(old(Model()), c, io)
    {
      hide Ready, Detach, Activate;
      MemberIs(Model(), c);
      RemoveClientKeeps(Model(), c, io);
      DetachKeeps(Model(), c);
      var wasCurrent, session, state := active == Some(c), clients[c].session, clients[c].state;
      Strip(c);
      if wasCurrent { ActivateNext(io); }
      if vtBound && (if wasCurrent then active.None? else state != Closed) {
        log := log + [VtClosed(session)];
      }
    }

    // ---------------------------------------------------------------- switching

    method AskForVt(vt: int, io: Io) returns (ok: bool)
      modifies this`pendingVt, this`log
      ensures Done(Model(), ok) == SwitchTo(old(Model()), vt, io)
    {
      pendingVt := vt;
      if !io.vtSwitch {
        pendingVt := 0;
        return false;
      }
      log := log + [VtActivated(vt)];
      return true;
    }

    method FindSession(session: int) returns (i: nat)
      requires Listed(Model())
      ensures i == IndexOfSession(Model(), session, 0)
    {
      i := 0;
      while i < |order| && clients[order[i]].session != session
        invariant 0 <= i <= |order|
        invariant IndexOfSession(Model(), session, 0) == IndexOfSession(Model(), session, i)
      {
        i := i + 1;
      }
    }

    // seat_set_next_session
    method RequestSession(c: ClientId, session: int, io: Io) returns (ok: bool)
      requires Valid() && c in order
      modifies this
      ensures Valid() && Done(Model(), ok) == SetNextSession(old(Model()), c, session, io)
    {
      hide Ready, IndexOfSession;
      MemberIs(Model(), c);
      SetNextSessionKeeps(Model(), c, session, io);
      if clients[c].state != Active { return false; }
      assert active == Some(c);
      if session <= 0 { return false; }
      if vtBound {
        if curVt == session { return true; }
      } else if session == clients[c].session {
        return true;
      }
      if pendingVt > 0 { return false; }
      if next.Some? { return true; }
      if vtBound {
        ok := AskForVt(session, io);
        return ok;
      }
      var i := FindSession(session);
      if i == |order| { return false; }
      next := Some(order[i]);
      DisableActive(c, io);
      return true;
    }

    // seat_switch_vt, the request of the control socket
    method SwitchToVt(vt: int, io: Io) returns (ok: bool)
      requires Valid()
      modifies this
      ensures Valid() && Done(Model(), ok) == SwitchVt(old(Model()), vt, io)
    {
      if !vtBound || vt <= 0 || io.vt <= 0 { return false; }
      UpdateCurrentVt(io.vt);
      if curVt == vt { return true; }
      if pendingVt > 0 { return false; }
      ok := AskForVt(vt, io);
    }

    // ---------------------------------------------------------------- grouped VTs

    method CreateGroup(owner: ClientId, requested: int, io: Io) returns (ok: bool)
      requires Valid() && owner in order
      modifies this
      ensures Valid() && Done(Model(), ok) == CreateGroupVt(old(Model()), owner, requested, io)
    {
      hide Ready, GroupOwner;
      MemberIs(Model(), owner);
      CreateGroupVtKeeps(Model(), owner, requested, io);
      if !vtBound || !clients[owner].seated { return false; }
      var vt := requested;
      if vt <= 0 {
        if io.freeVt == -1 { return false; }
        vt := io.freeVt;
      }
      var found := FindGroupVt(vt);
      if vt == clients[owner].session || found.Some? { return false; }
      if !io.vtOpen { return false; }
      log := log + [VtOpened(vt)];
      groups := [GroupVt(vt, owner)] + groups;
      return true;
    }

    method DestroyGroup(vt: int) returns (ok: bool)
      requires Valid()
      modifies this
      ensures Valid() && Done(Model(), ok) == DestroyGroupVt(old(Model()), vt)
    {
      DestroyGroupVtKeeps(Model(), vt);
      var i := 0;
      while i < |groups| && groups[i].vt != vt
        invariant 0 <= i <= |groups|
        invariant IndexOfGroup(groups, vt) == i + IndexOfGroup(groups[i..], vt)
      {
        assert groups[i..][1..] == groups[i + 1..];
        i := i + 1;
      }
      if i == |groups| { return false; }
      groups := RemoveAt(groups, i);
      if vtBound { log := log + [VtClosed(vt)]; }
      return true;
    }

    // ---------------------------------------------------------------- VT signals and events

    method OnRelease(io: Io)
      requires Valid()
      modifies this
      ensures Valid() && Model() == VtRelease(old(Model()), io)
    {
      VtReleaseKeeps(Model(), io);
      if !vtBound { return; }
      UpdateCurrentVt(io.vt);
      if active.Some? && clients[active.value].state == Active {
        if pendingVt > 0 {
          var owns := ClientOwnsVt(active.value, pendingVt);
          if !owns { DropMaster(active.value, io.revokeFails); }
        } else {
          DropMaster(active.value, io.revokeFails);
        }
      }
    }

    method OnAcquire(io: Io)
      requires Valid()
      modifies this
      ensures Valid() && Model() == VtAcquire(old(Model()), io)
    {
      if vtBound { UpdateCurrentVt(io.vt); }
    }

    // seat_handle_vt_event
    method OnVtEvent(oldVt: int, newVt: int, io: Io)
      requires Valid()
      modifies this
      ensures Valid() && Model() == VtEvent(old(Model()), oldVt, newVt, io)
    {
      hide Ready, OwnsVt, Activate, ActivateAll, DeactivateAll;
      IsLinked(Model());
      MovedIsReady(Model(), oldVt, newVt);
      VtEventKeeps(Model(), oldVt, newVt, io);
      if pendingVt > 0 { pendingVt := 0; }
      curVt := newVt;
      log := log + [VtChanged(oldVt, newVt)];
      if active.Some? {
        var owns := ClientOwnsVt(active.value, newVt);
        if owns {
          RestoreMaster(active.value);
          return;
        }
        if clients[active.value].state == Active { DisableActive(active.value, io); }
      } else {
        ActivateNext(io);
      }
    }

    // ---------------------------------------------------------------- requests of a client

    method Say(c: ClientId, reply: Reply, io: Io) returns (ok: bool)
      modifies this`log
      ensures Done(Model(), ok) == Answer(old(Model()), c, reply, io)
    {
      if io.put { log := log + [Replied(c, reply)]; }
      return io.put;
    }

    // handle_open_seat
    method OnOpenSeat(c: ClientId, io: Io) returns (ok: bool)
      requires Valid() && c in clients
      modifies this
      ensures Valid() && Done(Model(), ok) == HandleOpenSeat(old(Model()), c, io)
    {
      hide Ready, OpenClient, MinFree, SessionSet;
      IsLinked(Model());
      HandleOpenSeatKeeps(Model(), c, io);
      ok := Add(c, io);
      if !ok { return; }
      ok := Say(c, SeatOpened, io);
      if !ok { return; }
      OpenSeatFor(c, io);
    }

    // handle_open_device
    method OnOpenDevice(c: ClientId, io: Io) returns (ok: bool)
      requires Valid() && c in order
      modifies this
      ensures Valid() && Done(Model(), ok) == HandleOpenDevice(old(Model()), c, io)
    {
      HandleOpenDeviceKeeps(Model(), c, io);
      var at := OpenDeviceFor(c, io);
      if at.None? {
        ok := Say(c, Error, io);
      } else if !io.dup {
        CloseDeviceAt(c, at.value);
        ok := Say(c, Error, io);
      } else if !io.putFd {
        ok := false;
      } else {
        ok := Say(c, DeviceOpened(clients[c].devices[at.value].id), io);
      }
    }

    // handle_close_device
    method OnCloseDevice(c: ClientId, id: int, io: Io) returns (ok: bool)
      requires Valid() && c in order
      modifies this
      ensures Valid() && Done(Model(), ok) == HandleCloseDevice(old(Model()), c, id, io)
    {
      HandleCloseDeviceKeeps(Model(), c, id, io);
      var at := FindDevice(c, id);
      if at.None? {
        ok := Say(c, Error, io);
      } else {
        CloseDeviceAt(c, at.value);
        ok := Say(c, DeviceClosed, io);
      }
    }

    method OnRequest(c: ClientId, req: Request, io: Io) returns (ok: bool)
      requires Valid() && c in clients
      modifies this
      ensures Valid() && c in clients && Done(Model(), ok) == Handle(old(Model()), c, req, io)
    {
      hide Ready, HandleOpenSeat;
      IsLinked(Model());
      HandleKeeps(Model(), c, req, io);
      if req == OpenSeatReq {
        ok := OnOpenSeat(c, io);
      } else if req == PingReq {
        ok := Say(c, Pong, io);
      } else if !clients[c].seated {
        ok := false;
      } else {
        SeatedIsMember(Model(), c);
        ok := OnMemberRequest(c, req, io);
      }
    }

    // The handlers that want a client with a seat.
    method OnMemberRequest(c: ClientId, req: Request, io: Io) returns (ok: bool)
      requires Valid() && c in order && !req.OpenSeatReq? && !req.PingReq?
      modifies this
      ensures Valid() && c in clients && Done(Model(), ok) == Handle(old(Model()), c, req, io)
    {
      hide Ready, RemoveClient, HandleOpenDevice, HandleCloseDevice, AckDisable, SetNextSession;
      MemberIs(Model(), c);
      HandleKeeps(Model(), c, req, io);
      match req
      case CloseSeatReq =>
        Remove(c, io);
        ok := Say(c, SeatClosed, io);
      case OpenDeviceReq => ok := OnOpenDevice(c, io);
      case CloseDeviceReq(id) => ok := OnCloseDevice(c, id, io);
      case DisableSeatReq =>
        ok := AcknowledgeDisable(c, io);
        ok := Say(c, if ok then SeatDisabled else Error, io);
      case SwitchSessionReq(session) =>
        ok := RequestSession(c, session, io);
        ok := Say(c, if ok then SessionSwitched else Error, io);
    }

    // client_destroy
    method DestroyClient(c: ClientId, io: Io)
      requires Valid() && c in clients
      modifies this
      ensures Valid() && Model() == Destroy(old(Model()), c, io)
    {
      DestroyKeeps(Model(), c, io);
      if clients[c].seated { Remove(c, io); }
      clients := clients - {c};
      log := log + [Gone(c)];
    }

    // One message of a client, with the teardown that a failure brings.
    method ServeOne(c: ClientId, req: Request, io: Io, io2: Io)
      requires Valid() && c in clients
      modifies this
      ensures Valid() && Model() == ServeClient(old(Model()), c, req, io, io2)
    {
      var ok := OnRequest(c, req, io);
      if !(ok && io.flush) { DestroyClient(c, io2); }
    }

    // handle_create_group_vt: the owner is looked up by process.
    method OnCreateGroup(pid: int, vt: int, io: Io)
      requires Valid()
      modifies this
      ensures Valid() && Model() == ControlGroup(old(Model()), pid, vt, io)
    {
      var i := 0;
      while i < |order| && clients[order[i]].pid != pid
        invariant 0 <= i <= |order|
        invariant IndexOfPid(Model(), pid, 0) == IndexOfPid(Model(), pid, i)
      {
        i := i + 1;
      }
      if i < |order| {
        var _ := CreateGroup(order[i], vt, io);
      }
    }
  }

  // ---------------------------------------------------------------- the session search terminates

  lemma {:induction false} IntervalSize(n: int, used: set<int>)
    requires n >= 1 && forall k :: 1 <= k < n ==> k in used
    ensures n - 1 <= |used|
  {
    if n > 1 {
      var rest := used - {n - 1};
      assert forall k :: 1 <= k < n - 1 ==> k in rest;
      IntervalSize(n - 1, rest);
    }
  }

  lemma {:induction false} ImageSize(s: Seat, n: nat)
    requires Listed(s) && n <= |s.order|
    ensures |set i | 0 <= i < n :: s.clients[s.order[i]].session| <= n
  {
    if n > 0 {
      ImageSize(s, n - 1);
      var smaller := set i | 0 <= i < n - 1 :: s.clients[s.order[i]].session;
      assert (set i | 0 <= i < n :: s.clients[s.order[i]].session) == smaller + {s.clients[s.order[n - 1]].session};
    }
  }

  lemma AtMostMembers(s: Seat, n: int)
    requires Listed(s) && n >= 1 && forall k :: 1 <= k < n ==> k in SessionSet(s)
    ensures n <= |s.order| + 1
  {
    IntervalSize(n, SessionSet(s));
    ImageSize(s, |s.order|);
  }

  lemma LeastIsMinFree(used: set<int>, n: int)
    requires n >= 1 && n !in used && forall k :: 1 <= k < n ==> k in used
    ensures n == MinFree(used, 1)
  {
  }
}
