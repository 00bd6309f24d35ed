// Who holds which device: reference counts, and authority over active devices.
module SeatDevices {
  import opened Options
  import opened SeatSpec
  import opened SeatInvariant
  import opened SeatMoves
  import opened SeatRuns

  // ---------------------------------------------------------------- references

  function Weigh(e: Effect, c: ClientId, path: string): int {
    if e == OpenedDevice(c, path) then 1 else if e == ClosedDevice(c, path) then -1 else 0
  }

  // Successful opens minus closes of a path by a client.
  function Balance(log: seq<Effect>, c: ClientId, path: string): int {
    if log == [] then 0 else Balance(log[..|log| - 1], c, path) + Weigh(log[|log| - 1], c, path)
  }

  function RefsIn(d: Device, path: string): int {
    if d.path == path then d.refCnt else 0
  }

  // The references to a path in a device table.
  function Refs(ds: seq<Device>, path: string): int {
    if ds == [] then 0 else Refs(ds[..|ds| - 1], path) + RefsIn(ds[|ds| - 1], path)
  }

  function RefsOf(s: Seat, c: ClientId, path: string): int {
    if c in s.clients then Refs(s.clients[c].devices, path) else 0
  }

  lemma {:induction false} RefsConcat(a: seq<Device>, b: seq<Device>, path: string)
    ensures Refs(a + b, path) == Refs(a, path) + Refs(b, path)
  {
    if b == [] {
      assert a + b == a;
    } else {
      var n := |b| - 1;
      assert (a + b)[..|a| + n] == a + b[..n];
      RefsConcat(a, b[..n], path);
    }
  }

  lemma RefsSplit(ds: seq<Device>, i: nat, path: string)
    requires i < |ds|
    ensures Refs(ds, path) == Refs(ds[..i], path) + RefsIn(ds[i], path) + Refs(ds[i + 1..], path)
  {
    assert ds == ds[..i] + [ds[i]] + ds[i + 1..];
    RefsConcat(ds[..i] + [ds[i]], ds[i + 1..], path);
    RefsConcat(ds[..i], [ds[i]], path);
    assert [ds[i]][..0] == [];
  }

  lemma {:induction false} RefsNone(ds: seq<Device>, path: string)
    requires forall i :: 0 <= i < |ds| ==> ds[i].path != path
    ensures Refs(ds, path) == 0
  {
    if ds != [] { RefsNone(ds[..|ds| - 1], path); }
  }

  // In a well-formed table the count is the reference count of the one device with that path.
  lemma RefsIsRefCnt(ds: seq<Device>, i: nat)
    requires DevicesOk(ds) && i < |ds|
    ensures Refs(ds, ds[i].path) == ds[i].refCnt
  {
    RefsSplit(ds, i, ds[i].path);
    RefsNone(ds[..i], ds[i].path);
    RefsNone(ds[i + 1..], ds[i].path);
  }

  lemma {:induction false} RefsSame(ds: seq<Device>, r: seq<Device>, path: string)
    requires SameDevices(ds, r)
    ensures Refs(r, path) == Refs(ds, path)
  {
    if ds != [] {
      var n := |ds| - 1;
      assert r[n].path == ds[n].path && r[n].refCnt == ds[n].refCnt;
      RefsSame(ds[..n], r[..n], path);
    }
  }

  lemma RefsSet(ds: seq<Device>, i: nat, d: Device, path: string)
    requires i < |ds|
    ensures Refs(ds[i := d], path) == Refs(ds, path) - RefsIn(ds[i], path) + RefsIn(d, path)
  {
    var r := ds[i := d];
    RefsSplit(ds, i, path);
    RefsSplit(r, i, path);
    assert r[..i] == ds[..i] && r[i + 1..] == ds[i + 1..];
  }

  lemma RefsDropped(ds: seq<Device>, i: nat, path: string)
    requires i < |ds| && ds[i].refCnt >= 1
    ensures Refs(CloseAt(ds, i), path) == Refs(ds, path) - if ds[i].path == path then 1 else 0
  {
    if ds[i].refCnt > 1 {
      RefsSet(ds, i, ds[i].(refCnt := ds[i].refCnt - 1), path);
    } else {
      RefsSplit(ds, i, path);
      RefsConcat(ds[..i], ds[i + 1..], path);
    }
  }

  function RefChange(ds: seq<Device>, m: Move, path: string): int
    requires (m.AddRef? || m.DropRef?) ==> m.i < |ds|
  {
    if m.AddDevice? && m.d.path == path then 1
    else if m.AddRef? && ds[m.i].path == path then 1
    else if m.DropRef? && ds[m.i].path == path then -1
    else 0
  }

  lemma RefsAfterMove(ds: seq<Device>, m: Move, path: string)
    requires MovesDevices(m) && ((m.AddRef? || m.DropRef?) ==> m.i < |ds| && ds[m.i].refCnt >= 1)
    requires m.AddDevice? ==> m.d.refCnt == 1
    ensures Refs(TableAfter(ds, m), path) == Refs(ds, path) + RefChange(ds, m, path)
  {
    if m.AddDevice? {
      RefsConcat([m.d], ds, path);
      assert [m.d][..0] == [];
    } else if m.AddRef? {
      RefsSet(ds, m.i, ds[m.i].(refCnt := ds[m.i].refCnt + 1), path);
    } else if m.DropRef? {
      RefsDropped(ds, m.i, path);
    } else {
      RefsSame(ds, TableAfter(ds, m), path);
    }
  }

  function MoveWeight(s: Seat, m: Move, c: ClientId, path: string): int
    requires Legal(s, m)
  {
    var es := Emitted(s, m);
    if es == [] then 0 else Weigh(es[0], c, path)
  }

  lemma BalanceMove(s: Seat, m: Move, c: ClientId, path: string)
    requires Legal(s, m)
    ensures Balance(Do(s, m).log, c, path) == Balance(s.log, c, path) +
              MoveWeight(s, m, c, path)
  {
    LogAfter(s, m);
    var es := Emitted(s, m);
    if es == [] {
      assert s.log + es == s.log;
    } else {
      assert (s.log + es)[..|s.log|] == s.log;
    }
  }

  lemma WeightOfMove(s: Seat, m: Move, path: string)
    requires Legal(s, m) && MovesDevices(m)
    ensures MoveWeight(s, m, m.c, path) == RefChange(s.clients[m.c].devices, m, path)
  {
  }

  lemma TableOfMove(s: Seat, m: Move)
    requires Legal(s, m) && MovesDevices(m)
    ensures m.c in Do(s, m).clients && Do(s, m).clients[m.c].devices == TableAfter(s.clients[m.c].devices, m)
  {
    DeviceMoveIs(s, m);
  }

  lemma DeviceRefsMove(s: Seat, m: Move, path: string)
    requires Legal(s, m) && MovesDevices(m)
    requires (m.AddRef? || m.DropRef?) ==> s.clients[m.c].devices[m.i].refCnt >= 1
    ensures RefsOf(Do(s, m), m.c, path) == RefsOf(s, m.c, path) + RefChange(s.clients[m.c].devices, m, path)
  {
    TableOfMove(s, m);
    RefsAfterMove(s.clients[m.c].devices, m, path);
  }

  // Moves without a device in them: nobody's table changes but for the flags.
  lemma TableStays(s: Seat, m: Move, c: ClientId, path: string)
    requires Legal(s, m) && !MovesDevices(m)
    requires c in s.clients ==> c < s.nextId && ClientOk(s.clients[c])
    ensures RefsOf(Do(s, m), c, path) == RefsOf(s, c, path)
    ensures MoveWeight(s, m, c, path) == 0
  {
    hide DevicesOk, SessionSet, Without, GroupsNotOf, RemoveAt, ActivateAll;
    if !Concerns(s, m, c) {
      OthersStay(s, m, c);
    } else if m.Enable? {
      RefsSame(s.clients[c].devices, ActivateAll(s.clients[c].devices), path);
    } else if m.Disable? {
      RefsSame(s.clients[c].devices, DeactivateAll(s.clients[c].devices, m.fails), path);
    }
  }

  lemma OtherTableStays(s: Seat, m: Move, c: ClientId, path: string)
    requires Legal(s, m) && MovesDevices(m) && m.c != c
    ensures RefsOf(Do(s, m), c, path) == RefsOf(s, c, path)
    ensures MoveWeight(s, m, c, path) == 0
  {
    OthersStay(s, m, c);
  }

  lemma RefsMove(s: Seat, m: Move, c: ClientId, path: string)
    requires Legal(s, m)
    requires c in s.clients ==> c < s.nextId && ClientOk(s.clients[c])
    ensures RefsOf(Do(s, m), c, path) - RefsOf(s, c, path) ==
            Balance(Do(s, m).log, c, path) - Balance(s.log, c, path)
  {
    BalanceMove(s, m, c, path);
    if !MovesDevices(m) {
      TableStays(s, m, c, path);
    } else if m.c == c {
      DeviceRefsMove(s, m, path);
      WeightOfMove(s, m, path);
    } else {
      OtherTableStays(s, m, c, path);
    }
  }

  // Over every run, a device has as many references as its client opened and did not close; once
  // the client has left the seat, every open has been matched by a close.
  lemma ReferencesBalance(vtBound: bool, turns: seq<Turn>, c: ClientId, path: string)
    ensures var s := Run(Init(vtBound), turns);
            && Balance(s.log, c, path) == RefsOf(s, c, path)
            && (c !in s.order ==> Balance(s.log, c, path) == 0)
  {
    var P := (s: Seat) => Balance(s.log, c, path) == RefsOf(s, c, path);
    forall s, m | Ready(s) && P(s) && Legal(s, m) ensures P(Do(s, m)) { RefsMove(s, m, c, path); }
    RunKeeps(P, Init(vtBound), turns);
  }

  // ... so the count kept in each entry of the table is exact.
  lemma RefCntIsExact(vtBound: bool, turns: seq<Turn>, c: ClientId, i: nat)
    requires var s := Run(Init(vtBound), turns); c in s.clients && i < |s.clients[c].devices|
    ensures var s := Run(Init(vtBound), turns);
            s.clients[c].devices[i].refCnt == Balance(s.log, c, s.clients[c].devices[i].path)
  {
    var s := Run(Init(vtBound), turns);
    ReferencesBalance(vtBound, turns, c, s.clients[c].devices[i].path);
    RefsIsRefCnt(s.clients[c].devices, i);
  }

  // ---------------------------------------------------------------- authority

  // An entry of the table that is in use although nothing obliges the daemon to have cut it off.
  predicate Live(d: Device) {
    d.active && !d.revokeFailed
  }

  // Live devices of the given kinds belong to an ACTIVE client.
  ghost predicate Authority(s: Seat, drm: bool) {
    forall c, i ::
      (c in s.clients && 0 <= i < |s.clients[c].devices|
       && Live(s.clients[c].devices[i]) && (s.clients[c].devices[i].kind == Drm ==> drm))
      ==> s.clients[c].state == Active
  }

  predicate HasSoundDrm(ds: seq<Device>) {
    exists i :: 0 <= i < |ds| && ds[i].kind == Drm && !ds[i].revokeFailed
  }

  // The restore that breaks it: DRM master handed back to a client that was told to disable.
  predicate Hazard(s: Seat, m: Move) {
    m.RestoreMaster? && m.c in s.clients && s.clients[m.c].state != Active && HasSoundDrm(s.clients[m.c].devices)
  }

  lemma AuthorityMove(s: Seat, m: Move, drm: bool)
    requires Ready(s) && Legal(s, m) && Authority(s, drm) && (drm ==> !Hazard(s, m))
    ensures Authority(Do(s, m), drm)
  {
    var r := Do(s, m);
    forall c, i | c in r.clients && 0 <= i < |r.clients[c].devices| && Live(r.clients[c].devices[i])
                  && (r.clients[c].devices[i].kind == Drm ==> drm)
      ensures r.clients[c].state == Active
    {
      if Concerns(s, m, c) { AuthorityOwn(s, m, c, i, drm); } else { OthersStay(s, m, c); }
    }
  }

  lemma AuthorityOwn(s: Seat, m: Move, c: ClientId, i: nat, drm: bool)
    requires Ready(s) && Legal(s, m) && Authority(s, drm) && (drm ==> !Hazard(s, m)) && Concerns(s, m, c)
    requires var r := Do(s, m);
             && c in r.clients && i < |r.clients[c].devices| && Live(r.clients[c].devices[i])
             && (r.clients[c].devices[i].kind == Drm ==> drm)
    ensures Do(s, m).clients[c].state == Active
  {
    hide Ready;
    if MovesDevices(m) { DeviceMoveIs(s, m); }
  }

  // Over every run: a live device other than a DRM device belongs to an ACTIVE client.
  lemma InputAuthority(vtBound: bool, turns: seq<Turn>)
    ensures Authority(Run(Init(vtBound), turns), false)
  {
    var P := (s: Seat) => Authority(s, false);
    forall s, m | Ready(s) && P(s) && Legal(s, m) ensures P(Do(s, m)) { AuthorityMove(s, m, false); }
    RunKeeps(P, Init(vtBound), turns);
  }

  // A VT event onto a VT owned by a client that has not yet acknowledged its disable.
  predicate OntoPending(s: Seat, t: Turn) {
    && t.step.Event? && s.active.Some? && s.active.value in s.clients
    && s.clients[s.active.value].state == PendingDisable
    && OwnsVt(s, s.active.value, t.step.newVt)
    && HasSoundDrm(s.clients[s.active.value].devices)
  }

  lemma NoRestoreKeeps(s: Seat, t: Turn)
    requires Inv(s) && Authority(s, true)
    requires !(t.step.Event? && s.active.Some? && OwnsVt(s, s.active.value, t.step.newVt))
    ensures Authority(Take(s, t), true)
  {
    var P := (x: Seat) => Authority(x, true);
    var Q := (m: Move) => !m.RestoreMaster?;
    forall x, m | Ready(x) && P(x) && Q(m) && Legal(x, m) ensures P(Do(x, m)) { AuthorityMove(x, m, true); }
    var ms := TurnMoves(s, t.step, t.io, t.io2);
    PathKeeps(P, Q, s, ms, Take(s, t));
  }

  lemma RestoredTable(s: Seat, t: Turn)
    requires Inv(s) && t.step.Event? && s.active.Some? && OwnsVt(s, s.active.value, t.step.newVt)
    ensures var c := s.active.value;
            var r := Take(s, t);
            && r.clients == s.clients[c := s.clients[c].(devices := ActivateAll(s.clients[c].devices))]
            && r.active == s.active && r.groups == s.groups && r.order == s.order
            && r.vtBound == s.vtBound && r.next == s.next
  {
  }

  // Exactly when the claim extends to DRM devices: one turn keeps it unless a VT event lands on a
  // VT of a client still in PENDING_DISABLE that has a DRM device left to restore.
  lemma DrmAuthorityTurn(s: Seat, t: Turn)
    requires Inv(s) && Authority(s, true)
    ensures Authority(Take(s, t), true) <==> !OntoPending(s, t)
  {
    hide Take, ActivateAll;
    if t.step.Event? && s.active.Some? && OwnsVt(s, s.active.value, t.step.newVt) {
      var c := s.active.value;
      var ds := s.clients[c].devices;
      RestoredTable(s, t);
      var r := Take(s, t);
      assert r.clients[c].devices == ActivateAll(ds) && r.clients[c].state == s.clients[c].state;
      if OntoPending(s, t) {
        var i :| 0 <= i < |ds| && ds[i].kind == Drm && !ds[i].revokeFailed;
        assert Live(r.clients[c].devices[i]);
      } else {
        assert forall d :: d in s.clients && d != c ==> r.clients[d] == s.clients[d];
      }
    } else {
      NoRestoreKeeps(s, t);
    }
  }

  ghost predicate NeverOntoPending(s: Seat, turns: seq<Turn>)
    requires Inv(s)
  {
    forall k :: 0 <= k < |turns| ==> !OntoPending(Run(s, turns[..k]), turns[k])
  }

  lemma NeverOntoPendingPrefix(s: Seat, turns: seq<Turn>)
    requires Inv(s) && turns != [] && NeverOntoPending(s, turns)
    ensures NeverOntoPending(s, turns[..|turns| - 1])
  {
    hide Run;
    var n := |turns| - 1;
    forall k | 0 <= k < n ensures !OntoPending(Run(s, turns[..n][..k]), turns[..n][k]) {
      assert turns[..n][..k] == turns[..k];
    }
  }

  lemma {:induction false} AuthorityFrom(s: Seat, turns: seq<Turn>)
    requires Inv(s) && Authority(s, true) && NeverOntoPending(s, turns)
    ensures Authority(Run(s, turns), true)
  {
    hide Take, Inv, OntoPending, Authority;
    if turns != [] {
      var n := |turns| - 1;
      NeverOntoPendingPrefix(s, turns);
      AuthorityFrom(s, turns[..n]);
      DrmAuthorityTurn(Run(s, turns[..n]), turns[n]);
    }
  }

  // In a run without such an event, at most one client has live devices, and it is ACTIVE.
  lemma DrmAuthority(vtBound: bool, turns: seq<Turn>)
    requires NeverOntoPending(Init(vtBound), turns)
    ensures Authority(Run(Init(vtBound), turns), true)
  {
    AuthorityFrom(Init(vtBound), turns);
  }

  lemma OnlyOneHolder(vtBound: bool, turns: seq<Turn>, c: ClientId, i: nat, d: ClientId, j: nat)
    requires NeverOntoPending(Init(vtBound), turns)
    requires var s := Run(Init(vtBound), turns);
             && c in s.clients && i < |s.clients[c].devices| && Live(s.clients[c].devices[i])
             && d in s.clients && j < |s.clients[d].devices| && Live(s.clients[d].devices[j])
    ensures c == d
  {
    DrmAuthority(vtBound, turns);
  }

  // ---------------------------------------------------------------- revocation is final

  ghost predicate CutOffIn(ds: seq<Device>, path: string) {
    exists i :: 0 <= i < |ds| && ds[i].path == path && ds[i].kind != Drm && !ds[i].active
  }

  // The client has the path open, not as a DRM device, and the device is cut off.
  ghost predicate CutOff(s: Seat, c: ClientId, path: string) {
    c in s.clients && CutOffIn(s.clients[c].devices, path)
  }

  // At some point after entry `from` of the log the client held no reference to the path.
  ghost predicate ReleasedSince(log: seq<Effect>, from: nat, c: ClientId, path: string) {
    exists k :: from <= k <= |log| && Balance(log[..k], c, path) == 0
  }

  lemma CutOffMapped(ds: seq<Device>, r: seq<Device>, path: string)
    requires CutOffIn(ds, path) && SameDevices(ds, r)
    requires forall i :: 0 <= i < |ds| && ds[i].kind != Drm && !ds[i].active ==> !r[i].active
    ensures CutOffIn(r, path)
  {
    var i :| 0 <= i < |ds| && ds[i].path == path && ds[i].kind != Drm && !ds[i].active;
    assert r[i].path == path && r[i].kind != Drm && !r[i].active;
  }

  lemma PathGone(ds: seq<Device>, j: nat)
    requires j < |ds| && forall i :: 0 <= i < |ds| && i != j ==> ds[i].path != ds[j].path
    ensures Refs(RemoveAt(ds, j), ds[j].path) == 0
  {
    var r := RemoveAt(ds, j);
    assert forall k :: 0 <= k < |r| ==> r[k] == ds[if k < j then k else k + 1];
    RefsNone(r, ds[j].path);
  }

  lemma CutOffDropped(ds: seq<Device>, j: nat, path: string)
    requires DevicesOk(ds) && CutOffIn(ds, path) && j < |ds|
    ensures CutOffIn(CloseAt(ds, j), path) || Refs(CloseAt(ds, j), path) == 0
  {
    var i :| 0 <= i < |ds| && ds[i].path == path && ds[i].kind != Drm && !ds[i].active;
    if ds[j].refCnt > 1 {
      var r := ds[j := ds[j].(refCnt := ds[j].refCnt - 1)];
      assert r[i].path == path && r[i].kind != Drm && !r[i].active;
    } else if j == i {
      PathGone(ds, j);
    } else {
      CutOffRemains(ds, j, i, path);
    }
  }

  lemma CutOffRemains(ds: seq<Device>, j: nat, i: nat, path: string)
    requires j < |ds| && i < |ds| && i != j && ds[i].path == path && ds[i].kind != Drm && !ds[i].active
    ensures CutOffIn(RemoveAt(ds, j), path)
  {
    var r := RemoveAt(ds, j);
    var k := if i < j then i else i - 1;
    assert r[k] == ds[i];
  }

  lemma CutOffTable(ds: seq<Device>, m: Move, path: string)
    requires DevicesOk(ds) && CutOffIn(ds, path) && MovesDevices(m) && ((m.AddRef? || m.DropRef?) ==> m.i < |ds|)
    ensures CutOffIn(TableAfter(ds, m), path) || Refs(TableAfter(ds, m), path) == 0
  {
    hide DevicesOk, Refs, MovesDevices;
    var r := TableAfter(ds, m);
    if m.DropRef? {
      CutOffDropped(ds, m.i, path);
    } else if m.AddDevice? || m.AddRef? {
      var i :| 0 <= i < |ds| && ds[i].path == path && ds[i].kind != Drm && !ds[i].active;
      var k := if m.AddDevice? then i + 1 else i;
      assert r[k].path == path && r[k].kind != Drm && !r[k].active;
    } else {
      CutOffMapped(ds, r, path);
    }
  }

  lemma CutOffMove(s: Seat, m: Move, c: ClientId, path: string)
    requires Legal(s, m) && CutOff(s, c, path) && c < s.nextId && ClientOk(s.clients[c])
    ensures CutOff(Do(s, m), c, path) || RefsOf(Do(s, m), c, path) == 0
  {
    if !Concerns(s, m, c) {
      OthersStay(s, m, c);
    } else if MovesDevices(m) {
      TableOfMove(s, m);
      CutOffTable(s.clients[c].devices, m, path);
    } else if m.Enable? {
      CutOffMapped(s.clients[c].devices, ActivateAll(s.clients[c].devices), path);
    } else if m.Disable? {
      CutOffMapped(s.clients[c].devices, DeactivateAll(s.clients[c].devices, m.fails), path);
    }
  }

  ghost predicate StaysCutOff(s: Seat, from: nat, c: ClientId, path: string) {
    && from <= |s.log| && Balance(s.log, c, path) == RefsOf(s, c, path)
    && (CutOff(s, c, path) || ReleasedSince(s.log, from, c, path))
  }

  lemma StaysCutOffMove(s: Seat, m: Move, from: nat, c: ClientId, path: string)
    requires Ready(s) && Legal(s, m) && StaysCutOff(s, from, c, path)
    ensures StaysCutOff(Do(s, m), from, c, path)
  {
    hide Do, Legal, Balance, RefsOf, CutOffIn;
    var r := Do(s, m);
    LogAfter(s, m);
    RefsMove(s, m, c, path);
    if ReleasedSince(s.log, from, c, path) {
      var k :| from <= k <= |s.log| && Balance(s.log[..k], c, path) == 0;
      assert r.log[..k] == s.log[..k];
    } else {
      CutOffMove(s, m, c, path);
      assert r.log[..|r.log|] == r.log;
    }
  }

  // Once such a device is cut off it is never active again: in every continuation it is still cut
  // off, unless the client gave up its last reference in between and would have to open it anew.
  lemma RevocationIsFinal(vtBound: bool, before: seq<Turn>, after: seq<Turn>, c: ClientId, path: string)
    requires CutOff(Run(Init(vtBound), before), c, path)
    ensures var s := Run(Init(vtBound), before);
            var r := Run(s, after);
            CutOff(r, c, path) || ReleasedSince(r.log, |s.log|, c, path)
  {
    var s := Run(Init(vtBound), before);
    ReferencesBalance(vtBound, before, c, path);
    var from := |s.log|;
    var P := (x: Seat) => StaysCutOff(x, from, c, path);
    forall x, m | Ready(x) && P(x) && Legal(x, m) ensures P(Do(x, m)) { StaysCutOffMove(x, m, from, c, path); }
    RunKeeps(P, s, after);
  }

  // ---------------------------------------------------------------- two masters

  // A client told to disable sees its VT come back and go away again before it acknowledges. The
  // acknowledgement then leaves the seat free for another client while the DRM device it was
  // handed in between is still active: nothing revokes it on the way out.
  lemma MasterLeaks(s: Seat, a: ClientId, i: nat, mine: int, other: int, io: Io, io2: Io)
    requires Inv(s) && s.vtBound && s.active == Some(a) && s.clients[a].state == PendingDisable
    requires i < |s.clients[a].devices| && s.clients[a].devices[i].kind == Drm
    requires OwnsVt(s, a, mine) && forall c :: c in s.order ==> !OwnsVt(s, c, other)
    requires io.put && io.flush
    ensures var s1 := Take(s, Turn(Event(other, mine), io, io2));
            var s2 := Take(s1, Turn(Event(mine, other), io, io2));
            var r := Take(s2, Turn(Serve(a, DisableSeatReq), io, io2));
            && r.active.None? && a in r.clients && r.clients[a].state == Disabled
            && |r.clients[a].devices| == |s.clients[a].devices|
            && r.clients[a].devices[i].active && r.clients[a].devices[i].kind == Drm
  {
    hide Take;
    var t1, t2, t3 :=
      Turn(Event(other, mine), io, io2), Turn(Event(mine, other), io, io2), Turn(Serve(a, DisableSeatReq), io, io2);
    var s1 := Take(s, t1);
    RestoredTable(s, t1);
    assert forall c :: c in s1.order ==> OwnsVt(s1, c, other) == OwnsVt(s, c, other);
    var s2 := Take(s1, t2);
    EventElsewhere(s1, t2, a);
    assert forall c :: c in s2.order ==> OwnsVt(s2, c, other) == OwnsVt(s1, c, other);
    AckLeavesNobody(s2, a, t3);
  }

  lemma EventElsewhere(s: Seat, t: Turn, a: ClientId)
    requires Inv(s) && s.active == Some(a) && s.clients[a].state == PendingDisable
    requires t.step.Event? && !OwnsVt(s, a, t.step.newVt)
    ensures var r := Take(s, t);
            r.clients == s.clients && r.active == s.active && r.groups == s.groups && r.order == s.order
            && r.curVt == t.step.newVt && r.vtBound == s.vtBound && r.next == s.next
  {
  }

  lemma AckLeavesNobody(s: Seat, a: ClientId, t: Turn)
    requires Inv(s) && s.vtBound && s.active == Some(a) && s.clients[a].state == PendingDisable
    requires forall c :: c in s.order ==> !OwnsVt(s, c, s.curVt)
    requires t.step == Serve(a, DisableSeatReq) && t.io.put && t.io.flush
    ensures var r := Take(s, t);
            && r.active.None? && a in r.clients && r.clients[a].state == Disabled
            && r.clients[a].devices == s.clients[a].devices
  {
    hide OwnsVt, Ready;
    IsLinked(s);
    MemberIs(s, a);
    AckIs(s, a, t.io);
    NobodyTakesOver(s, a);
  }

  lemma NobodyTakesOver(s: Seat, a: ClientId)
    requires Inv(s) && s.vtBound && s.active == Some(a) && s.clients[a].state == PendingDisable && Legal(s, Ack(a))
    requires forall c :: c in s.order ==> !OwnsVt(s, c, s.curVt)
    ensures var u := Do(s, Ack(a)); Listed(u) && u.next.None? && Candidate(u).None?
  {
    var u := Do(s, Ack(a));
    assert forall c :: c in u.order ==> !OwnsVt(u, c, u.curVt);
  }

  // One member, which has the seat and VT `mine`.
  ghost predicate Alone(s: Seat, a: ClientId, mine: int) {
    && s.vtBound && s.order == [a] && s.groups == [] && s.active == Some(a) && a in s.clients
    && s.clients[a].seated && s.clients[a].session == mine && s.clients[a].state == Active
  }

  lemma JoinsAlone(s: Seat, a: ClientId, t: Turn)
    requires Inv(s) && s.vtBound && s.order == [] && s.groups == [] && a in s.clients && s.clients[a].session == -1
    requires t.step == Serve(a, OpenSeatReq) && t.io.put && t.io.flush && t.io.vtOpen && t.io.send.Delivered?
    requires t.io.vt > 0
    ensures Alone(Take(s, t), a, t.io.vt) && Take(s, t).clients[a].devices == []
  {
    assert s.active.None?;
  }

  lemma OpensDrm(s: Seat, a: ClientId, t: Turn)
    requires Inv(s) && Alone(s, a, t.io.vt) && s.clients[a].devices == []
    requires t.step == Serve(a, OpenDeviceReq) && t.io.put && t.io.flush && t.io.open && t.io.dup && t.io.putFd
    requires t.io.resolved.Some? && t.io.resolved.value.kind == Drm
    ensures Alone(Take(s, t), a, t.io.vt) && |Take(s, t).clients[a].devices| == 1
    ensures Take(s, t).clients[a].devices[0].kind == Drm
  {
  }

  // The VT is switched away.
  lemma SwitchedAway(s: Seat, a: ClientId, t: Turn)
    requires Inv(s) && Alone(s, a, t.io.vt) && |s.clients[a].devices| == 1 && s.clients[a].devices[0].kind == Drm
    requires t.step.Event? && t.step.newVt != t.io.vt
    ensures var r := Take(s, t);
            && r.vtBound && r.order == [a] && r.active == Some(a) && r.clients[a].state == PendingDisable
            && r.clients[a].session == t.io.vt && r.groups == []
            && |r.clients[a].devices| == 1 && r.clients[a].devices[0].kind == Drm
  {
    hide Inv;
  }

  lemma ConnectsFirst(pid: int, io: Io, io2: Io)
    ensures var s := Take(Init(true), Turn(Connect(pid), io, io2));
            s.vtBound && s.order == [] && s.groups == [] && 0 in s.clients && s.clients[0].session == -1
  {
  }

  // The run in which it happens: a single client opens the seat and a DRM device, its VT is switched
  // away, back and away again, and only then does it acknowledge.
  lemma LeakHappens(pid: int, other: int, io: Io, io2: Io) returns (turns: seq<Turn>, a: ClientId)
    requires io.vt > 0 && io.vt != other && io.vtOpen && io.send.Delivered? && io.put && io.flush
    requires io.resolved.Some? && io.resolved.value.kind == Drm && io.open && io.dup && io.putFd
    ensures var r := Run(Init(true), turns);
            && r.active.None? && a in r.clients && r.clients[a].state == Disabled
            && |r.clients[a].devices| == 1 && r.clients[a].devices[0].kind == Drm && r.clients[a].devices[0].active
  {
    hide Run, Take, Inv, Alone;
    var opens: Seat;
    a := 0;
    turns, opens := OpenedDrm(pid, io, io2);
    var away, back, ack :=
      Turn(Event(io.vt, other), io, io2), Turn(Event(other, io.vt), io, io2), Turn(Serve(a, DisableSeatReq), io, io2);
    SwitchedAway(opens, a, away);
    MasterLeaks(Take(opens, away), a, 0, io.vt, other, io, io2);
    RunMore(Init(true), turns, away);
    RunMore(Init(true), turns + [away], back);
    RunMore(Init(true), turns + [away] + [back], away);
    RunMore(Init(true), turns + [away] + [back] + [away], ack);
    turns := turns + [away] + [back] + [away] + [ack];
  }

  lemma OpenedDrm(pid: int, io: Io, io2: Io) returns (turns: seq<Turn>, s: Seat)
    requires io.vt > 0 && io.vtOpen && io.send.Delivered? && io.put && io.flush
    requires io.resolved.Some? && io.resolved.value.kind == Drm && io.open && io.dup && io.putFd
    ensures s == Run(Init(true), turns) && Alone(s, 0, io.vt) && |s.clients[0].devices| == 1
    ensures s.clients[0].devices[0].kind == Drm
  {
    hide Take, Inv, Alone;
    var connect, seat, device :=
      Turn(Connect(pid), io, io2), Turn(Serve(0, OpenSeatReq), io, io2), Turn(Serve(0, OpenDeviceReq), io, io2);
    turns, s := [], Init(true);
    RunMore(Init(true), turns, connect);
    ConnectsFirst(pid, io, io2);
    turns, s := turns + [connect], Take(s, connect);
    RunMore(Init(true), turns, seat);
    JoinsAlone(s, 0, seat);
    turns, s := turns + [seat], Take(s, seat);
    RunMore(Init(true), turns, device);
    OpensDrm(s, 0, device);
    turns, s := turns + [device], Take(s, device);
  }
}
