// Sessions and VTs: who becomes active on which VT, and what a switch inside a group of VTs shows.
module SeatVts {
  import opened Options
  import opened SeatSpec
  import opened SeatInvariant
  import opened SeatMoves
  import opened SeatRuns

  // ---------------------------------------------------------------- activation follows the VT

  lemma {:induction false} GroupSurvives(groups: seq<GroupVt>, gone: ClientId, vt: int, c: ClientId)
    requires GroupOwner(groups, vt) == Some(c) && c != gone
    ensures GroupOwner(GroupsNotOf(groups, gone), vt) == Some(c)
  {
    if groups[0].vt != vt {
      GroupSurvives(groups[1..], gone, vt, c);
      var rest := GroupsNotOf(groups[1..], gone);
      assert ([groups[0]] + rest)[1..] == rest;
    }
  }

  predicate IsActive(s: Seat, c: ClientId) {
    c in s.clients && s.clients[c].state == Active
  }

  // Every client that is ACTIVE in `x` and was not in `s` owns the current VT of `x`.
  ghost predicate NewcomersOwn(s: Seat, x: Seat) {
    x.vtBound && forall c :: IsActive(x, c) && !IsActive(s, c) ==> x.clients[c].seated && OwnsVt(x, c, x.curVt)
  }

  lemma NewcomerMove(s: Seat, x: Seat, m: Move, c: ClientId)
    requires Ready(x) && Legal(x, m) && !MovesVt(m) && NewcomersOwn(s, x) && IsActive(Do(x, m), c) && !IsActive(s, c)
    ensures Do(x, m).clients[c].seated && OwnsVt(Do(x, m), c, Do(x, m).curVt)
  {
    hide Ready, ActivateAll, DeactivateAll, DropDrm, CloseAt, RemoveAt, SessionSet, FreshDeviceId, IndexOfPath, Without;
    if !Concerns(x, m, c) {
      OthersStay(x, m, c);
      if m.Leave? && x.clients[c].session != x.curVt { GroupSurvives(x.groups, m.c, x.curVt, c); }
    }
  }

  lemma NewcomersMove(s: Seat, x: Seat, m: Move)
    requires Ready(x) && Legal(x, m) && !MovesVt(m) && NewcomersOwn(s, x)
    ensures NewcomersOwn(s, Do(x, m))
  {
    var r := Do(x, m);
    assert r.vtBound;
    hide Ready, Legal, Do, OwnsVt;
    forall c | IsActive(r, c) && !IsActive(s, c) ensures r.clients[c].seated && OwnsVt(r, c, r.curVt) {
      NewcomerMove(s, x, m, c);
    }
  }

  lemma FirstMoveBringsNobody(s: Seat, m: Move)
    requires Ready(s) && Legal(s, m) && s.vtBound
    ensures NewcomersOwn(s, Do(s, m))
  {
    if !MovesVt(m) {
      NewcomersMove(s, s, m);
    } else {
      forall c ensures IsActive(Do(s, m), c) == IsActive(s, c) { OthersStay(s, m, c); }
    }
  }

  // On a VT-bound seat every transition into ACTIVE happens on a VT the client owns.
  lemma ActivationOwnsVt(s: Seat, t: Turn, c: ClientId)
    requires Inv(s) && s.vtBound && IsActive(Take(s, t), c) && !IsActive(s, c)
    ensures OwnsVt(Take(s, t), c, Take(s, t).curVt)
  {
    hide Next;
    var r := Take(s, t);
    var ms := TurnMoves(s, t.step, t.io, t.io2);
    if ms != [] {
      FirstMoveBringsNobody(s, ms[0]);
      MoveKeeps(s, ms[0]);
      var P := (x: Seat) => NewcomersOwn(s, x);
      var Q := (m: Move) => !MovesVt(m);
      forall x, m | Ready(x) && P(x) && Q(m) && Legal(x, m) ensures P(Do(x, m)) { NewcomersMove(s, x, m); }
      PathKeeps(P, Q, Do(s, ms[0]), ms[1..], r);
    }
  }

  // After a VT event any client still ACTIVE owns the new VT, whatever sends or tty calls failed.
  lemma EventLeavesOnlyOwners(s: Seat, t: Turn, c: ClientId)
    requires Inv(s) && s.vtBound && t.step.Event? && IsActive(Take(s, t), c)
    ensures OwnsVt(Take(s, t), c, t.step.newVt)
  {
    hide Take, Inv, VtEvent;
    EventIs(s, t);
    EventSetsVt(s, t.step.oldVt, t.step.newVt, t.io);
    if !IsActive(s, c) {
      ActivationOwnsVt(s, t, c);
    } else {
      ActiveIsActive(s, c);
      StillActive(s, t.step.oldVt, t.step.newVt, t.io, c);
    }
  }

  lemma EventIs(s: Seat, t: Turn)
    requires Inv(s) && t.step.Event?
    ensures Linked(s) && Take(s, t) == VtEvent(s, t.step.oldVt, t.step.newVt, t.io)
  {
    hide VtEvent;
  }

  lemma EventSetsVt(s: Seat, oldVt: int, newVt: int, io: Io)
    requires Linked(s)
    ensures VtEvent(s, oldVt, newVt, io).curVt == newVt
  {
    hide ActivateAll, DeactivateAll, OwnsVt;
  }

  lemma ActiveIsActive(s: Seat, c: ClientId)
    requires Inv(s) && IsActive(s, c)
    ensures s.active == Some(c)
  {
  }

  // Whoever was ACTIVE and still is was found to own it.
  lemma StillActive(s: Seat, oldVt: int, newVt: int, io: Io, c: ClientId)
    requires Linked(s) && s.active == Some(c) && s.clients[c].state == Active
    requires IsActive(VtEvent(s, oldVt, newVt, io), c)
    ensures OwnsVt(VtEvent(s, oldVt, newVt, io), c, newVt)
  {
  }

  // ---------------------------------------------------------------- switches inside a group

  predicate IsSessionEvent(e: Effect) {
    e.EnableSent? || e.DisableSent? || e.EnableLeft? || e.DisableLeft? || e.DisableAcked?
  }

  // The log only grew, and nobody was enabled or disabled.
  ghost predicate Hushed(a: seq<Effect>, b: seq<Effect>) {
    && |a| <= |b| && b[..|a|] == a
    && forall k :: |a| <= k < |b| ==> !IsSessionEvent(b[k])
  }

  lemma HushedOn(a: seq<Effect>, b: seq<Effect>, c: seq<Effect>)
    requires Hushed(a, b) && Hushed(b, c)
    ensures Hushed(a, c)
  {
    assert c[..|a|] == b[..|a|];
  }

  lemma HushedAppend(a: seq<Effect>, es: seq<Effect>)
    requires forall i :: 0 <= i < |es| ==> !IsSessionEvent(es[i])
    ensures Hushed(a, a + es)
  {
  }

  // What other clients do leaves the active client alone.
  ghost predicate Aside(s: Seat, r: Seat, c: ClientId)
    requires c in s.clients
  {
    && c in r.clients && r.clients[c] == s.clients[c] && r.active == s.active && r.vtBound == s.vtBound
    && Hushed(s.log, r.log)
  }

  lemma AsideOn(s: Seat, r: Seat, u: Seat, c: ClientId)
    requires c in s.clients && Aside(s, r, c) && Aside(r, u, c)
    ensures Aside(s, u, c)
  {
    HushedOn(s.log, r.log, u.log);
  }

  lemma {:induction false} ClosesAreCloses(c: ClientId, ds: seq<Device>)
    ensures forall i :: 0 <= i < |ClosesOf(c, ds)| ==> ClosesOf(c, ds)[i].ClosedDevice?
    decreases Weight(ds)
  {
    if ds != [] {
      CloseAtLowersWeight(ds);
      ClosesAreCloses(c, CloseAt(ds, 0));
    }
  }

  lemma DetachAside(s: Seat, d: ClientId, c: ClientId)
    requires c in s.clients && d in s.clients && c != d && s.active == Some(c)
    ensures Aside(s, Detach(s, d), c)
  {
    ClosesAreCloses(d, s.clients[d].devices);
    HushedAppend(s.log, ClosesOf(d, s.clients[d].devices) + if s.vtBound then GroupsOfClosed(s.groups, d) else []);
    assert Detach(s, d).log ==
      s.log + (ClosesOf(d, s.clients[d].devices) + if s.vtBound then GroupsOfClosed(s.groups, d) else []);
  }

  lemma EmitAside(s: Seat, e: Effect, c: ClientId)
    requires c in s.clients && !IsSessionEvent(e)
    ensures Aside(s, Emit(s, e), c)
  {
  }

  lemma RemoveAside(s: Seat, d: ClientId, io: Io, c: ClientId)
    requires Inv(s) && c in s.clients && d in s.order && c != d && s.active == Some(c)
    ensures Aside(s, RemoveClient(s, d, io), c)
  {
    DetachAside(s, d, c);
    var u := Detach(s, d);
    EmitAside(u, VtClosed(s.clients[d].session), c);
    AsideOn(s, u, Emit(u, VtClosed(s.clients[d].session)), c);
  }

  lemma DestroyAside(s: Seat, d: ClientId, io: Io, c: ClientId)
    requires Inv(s) && c in s.clients && d in s.clients && c != d && s.active == Some(c)
    ensures Aside(s, Destroy(s, d, io), c)
  {
    var u := if s.clients[d].seated then RemoveClient(s, d, io) else s;
    if s.clients[d].seated { RemoveAside(s, d, io, c); }
    var w := u.(clients := u.clients - {d});
    assert Aside(u, w, c);
    EmitAside(w, Gone(d), c);
    AsideOn(s, u, w, c);
    AsideOn(s, w, Emit(w, Gone(d)), c);
  }

  lemma AnswerAside(s: Seat, u: Seat, d: ClientId, reply: Reply, io: Io, c: ClientId)
    requires c in s.clients && Aside(s, u, c)
    ensures Aside(s, Answer(u, d, reply, io).s, c)
  {
    EmitAside(u, Replied(d, reply), c);
    AsideOn(s, u, Emit(u, Replied(d, reply)), c);
  }

  lemma CloseDeviceAside(s: Seat, d: ClientId, id: int, io: Io, c: ClientId)
    requires c in s.clients && d in s.clients && c != d
    ensures Aside(s, HandleCloseDevice(s, d, id, io).s, c)
  {
    var i := IndexOfId(s.clients[d].devices, id);
    AnswerAside(s, s, d, Error, io, c);
    if i < |s.clients[d].devices| { AnswerAside(s, CloseDevice(s, d, i), d, DeviceClosed, io, c); }
  }

  // Any request of a client that is not the active one.
  lemma HandleAside(s: Seat, d: ClientId, req: Request, io: Io, c: ClientId)
    requires Inv(s) && s.vtBound && d in s.clients && c != d && s.active == Some(c) && s.clients[c].state == Active
    ensures Aside(s, Handle(s, d, req, io).s, c)
  {
    if s.clients[d].seated { assert !Holding(s.clients[d].state); }
    AnswerAside(s, s, d, Error, io, c);
    match req
    case OpenSeatReq => assert Handle(s, d, req, io).s == s;
    case PingReq => AnswerAside(s, s, d, Pong, io, c);
    case CloseSeatReq =>
      if s.clients[d].seated {
        RemoveAside(s, d, io, c);
        AnswerAside(s, RemoveClient(s, d, io), d, SeatClosed, io, c);
      }
    case CloseDeviceReq(id) => if s.clients[d].seated { CloseDeviceAside(s, d, id, io, c); }
    case OpenDeviceReq =>
    case DisableSeatReq =>
    case SwitchSessionReq(session) =>
  }

  // A turn that is not the client's own, and if it is a VT event, one onto a VT it owns.
  predicate InGroup(s: Seat, t: Turn, c: ClientId) {
    match t.step
    case Serve(d, _) => d != c
    case Disconnect(d) => d != c
    case Event(_, newVt) => c in s.clients && OwnsVt(s, c, newVt)
    case _ => true
  }

  // Only DRM flags differ.
  ghost predicate SameBut(ds: seq<Device>, r: seq<Device>) {
    SameDevices(ds, r) && forall i :: 0 <= i < |ds| && ds[i].kind != Drm ==> r[i] == ds[i]
  }

  ghost predicate Unseen(s: Seat, r: Seat, c: ClientId) {
    && IsActive(s, c) && IsActive(r, c) && r.active == Some(c) && r.vtBound == s.vtBound
    && Hushed(s.log, r.log)
    && SameBut(s.clients[c].devices, r.clients[c].devices)
  }

  predicate AllMaster(ds: seq<Device>) {
    forall i :: 0 <= i < |ds| && ds[i].kind == Drm ==> ds[i].active
  }

  lemma ServeAside(s: Seat, t: Turn, c: ClientId)
    requires Inv(s) && s.vtBound && s.active == Some(c) && IsActive(s, c)
    requires (t.step.Serve? || t.step.Disconnect?) && t.step.c != c
    ensures Aside(s, Take(s, t), c)
  {
    var d := t.step.c;
    if d in s.clients {
      if t.step.Serve? {
        HandleKeeps(s, d, t.step.req, t.io);
        HandleAside(s, d, t.step.req, t.io, c);
        var h := Handle(s, d, t.step.req, t.io);
        DestroyAside(h.s, d, t.io2, c);
        AsideOn(s, h.s, Destroy(h.s, d, t.io2), c);
      } else {
        DestroyAside(s, d, t.io2, c);
      }
    }
  }

  lemma EventInGroup(s: Seat, t: Turn, c: ClientId)
    requires Inv(s) && s.vtBound && s.active == Some(c) && IsActive(s, c) && InGroup(s, t, c) && t.step.Event?
    ensures Unseen(s, Take(s, t), c) && AllMaster(Take(s, t).clients[c].devices)
  {
    var r := Take(s, t);
    var ds := s.clients[c].devices;
    assert r.log == s.log + [VtChanged(t.step.oldVt, t.step.newVt)];
    assert r.clients[c] == s.clients[c].(devices := ActivateAll(ds));
  }

  lemma ReleaseInGroup(s: Seat, io: Io, c: ClientId)
    requires s.active == Some(c) && IsActive(s, c)
    ensures Unseen(s, VtRelease(s, io), c)
  {
    var r := VtRelease(s, io);
    assert r.log == s.log;
    assert r.clients[c] == s.clients[c]
           || r.clients[c] == s.clients[c].(devices := DropDrm(s.clients[c].devices, io.revokeFails));
  }

  lemma AsideIsUnseen(s: Seat, r: Seat, c: ClientId)
    requires IsActive(s, c) && s.active == Some(c) && Aside(s, r, c)
    ensures Unseen(s, r, c)
  {
  }

  lemma GroupAside(s: Seat, owner: ClientId, vt: int, io: Io, c: ClientId)
    requires c in s.clients && owner in s.clients
    ensures Aside(s, CreateGroupVt(s, owner, vt, io).s, c)
  {
    hide GroupOwner, Aside;
    LogAside(s, CreateGroupVt(s, owner, vt, io).s, c);
  }

  lemma UngroupAside(s: Seat, vt: int, c: ClientId)
    requires c in s.clients
    ensures Aside(s, DestroyGroupVt(s, vt).s, c)
  {
    hide IndexOfGroup, RemoveAt, Aside;
    LogAside(s, DestroyGroupVt(s, vt).s, c);
  }

  lemma SwitchAside(s: Seat, vt: int, io: Io, c: ClientId)
    requires c in s.clients
    ensures Aside(s, SwitchVt(s, vt, io).s, c) && Aside(s, VtAcquire(s, io), c)
  {
    hide Aside;
    LogAside(s, SwitchVt(s, vt, io).s, c);
    LogAside(s, VtAcquire(s, io), c);
  }

  // Nothing but VTs changed, and at most one entry about them was logged.
  lemma LogAside(s: Seat, r: Seat, c: ClientId)
    requires c in s.clients && r.clients == s.clients && r.active == s.active && r.vtBound == s.vtBound
    requires r.log == s.log || exists e: Effect :: !IsSessionEvent(e) && r.log == s.log + [e]
    ensures Aside(s, r, c)
  {
  }

  lemma AcceptAside(s: Seat, pid: int, c: ClientId)
    requires Inv(s) && c in s.clients
    ensures Aside(s, Accept(s, pid), c)
  {
  }

  lemma OtherAside(s: Seat, t: Turn, c: ClientId)
    requires Inv(s) && c in s.clients
    requires !t.step.Serve? && !t.step.Disconnect? && !t.step.Event? && !t.step.SignalRelease?
    ensures Aside(s, Take(s, t), c)
  {
    hide Handle, IndexOfPid;
    match t.step
    case Connect(pid) => AcceptAside(s, pid, c);
    case ControlCreate(pid, vt) =>
      var i := IndexOfPid(s, pid, 0);
      if i < |s.order| { GroupAside(s, s.order[i], vt, t.io, c); }
    case ControlDestroy(vt) => UngroupAside(s, vt, c);
    case ControlSwitch(vt) => SwitchAside(s, vt, t.io, c);
    case ControlActiveVt => SwitchAside(s, 0, t.io, c);
    case SignalAcquire => SwitchAside(s, 0, t.io, c);
  }

  lemma GroupTurn(s: Seat, t: Turn, c: ClientId)
    requires Inv(s) && s.vtBound && s.active == Some(c) && IsActive(s, c) && InGroup(s, t, c)
    ensures Unseen(s, Take(s, t), c)
    ensures t.step.Event? ==> AllMaster(Take(s, t).clients[c].devices)
  {
    if t.step.Event? {
      EventInGroup(s, t, c);
    } else if t.step.SignalRelease? {
      ReleaseInGroup(s, t.io, c);
    } else {
      if t.step.Serve? || t.step.Disconnect? { ServeAside(s, t, c); } else { OtherAside(s, t, c); }
      AsideIsUnseen(s, Take(s, t), c);
    }
  }

  ghost predicate StaysInGroup(s: Seat, turns: seq<Turn>, c: ClientId)
    requires Inv(s)
  {
    forall k :: 0 <= k < |turns| ==> InGroup(Run(s, turns[..k]), turns[k], c)
  }

  lemma StaysInGroupPrefix(s: Seat, turns: seq<Turn>, c: ClientId)
    requires Inv(s) && turns != [] && StaysInGroup(s, turns, c)
    ensures StaysInGroup(s, turns[..|turns| - 1], c)
  {
    hide Inv, InGroup, Run;
    var n := |turns| - 1;
    forall k | 0 <= k < n ensures InGroup(Run(s, turns[..n][..k]), turns[..n][k], c) {
      assert turns[..n][..k] == turns[..k];
    }
  }

  lemma UnseenOn(s: Seat, u: Seat, r: Seat, c: ClientId)
    requires Unseen(s, u, c) && Unseen(u, r, c)
    ensures Unseen(s, r, c)
  {
    HushedOn(s.log, u.log, r.log);
  }

  // While every VT event lands on a VT the ACTIVE client owns, the client is not told anything:
  // over any such run, with any requests of others, any control requests and any failures, it stays
  // the active client, nobody is enabled or disabled, and none of its input devices is touched.
  lemma {:induction false} GroupSwitchesAreUnseen(s: Seat, turns: seq<Turn>, c: ClientId)
    requires Inv(s) && s.vtBound && s.active == Some(c) && IsActive(s, c) && StaysInGroup(s, turns, c)
    ensures Unseen(s, Run(s, turns), c)
    ensures turns != [] && turns[|turns| - 1].step.Event? ==> AllMaster(Run(s, turns).clients[c].devices)
  {
    if turns != [] {
      var n := |turns| - 1;
      StaysInGroupPrefix(s, turns, c);
      GroupSwitchesAreUnseen(s, turns[..n], c);
      GroupTurn(Run(s, turns[..n]), turns[n], c);
      UnseenOn(s, Run(s, turns[..n]), Run(s, turns), c);
    }
  }

  // A switch the daemon itself started towards a VT of the group does not even drop DRM master.
  lemma ReleaseTowardsGroup(s: Seat, t: Turn, c: ClientId)
    requires Inv(s) && s.active == Some(c) && t.step == SignalRelease
    requires s.pendingVt > 0 && OwnsVt(s, c, s.pendingVt)
    ensures Take(s, t).clients == s.clients
  {
  }
}
