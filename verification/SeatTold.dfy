// What a client was told last, and whether it is true.
module SeatTold {
  import opened Options
  import opened Protocol
  import opened SeatSpec
  import opened SeatInvariant
  import opened SeatMoves
  import opened SeatRuns
  import opened Libseat
  import opened Letters
  import opened Mailing
  import opened Leftovers
  import U = SeatUnbound
  import V = SeatVts

  // The last message was to use the seat.
  predicate TellsToUse(told: seq<u16>) {
    told != [] && told[|told| - 1] == SERVER_ENABLE_SEAT
  }

  // It was told to use the seat and to let go of it in turn.
  ghost predicate InTurn(s: Seat, c: ClientId) {
    Alternates(AllTold(s.log, c))
  }

  // And a member was last told to use it exactly if it is ACTIVE; who has not joined yet was told
  // nothing.
  ghost predicate InStep(s: Seat, c: ClientId) {
    var told := AllTold(s.log, c);
    && InTurn(s, c)
    && (c >= s.nextId ==> told == [])
    && (c in s.clients ==>
          if s.clients[c].seated then TellsToUse(told) <==> s.clients[c].state == Active
          else s.clients[c].session == -1 ==> told == [])
  }

  // ---------------------------------------------------------------- one move

  // An enable message whose send failed stays on the ring, or a disable message does not get there.
  predicate Misleading(m: Move, c: ClientId) {
    (m.FailOpen? && m.c == c && m.left) || (m.Disable? && m.c == c && m.sent.Dropped?)
  }

  lemma ToldAfter(s: Seat, m: Move, c: ClientId)
    requires Legal(s, m)
    ensures var e := Emitted(s, m);
            AllTold(Do(s, m).log, c) == AllTold(s.log, c) + if e == [] then [] else ToldIn(e[0], c)
  {
    hide Do, Legal;
    LogAfter(s, m);
    var e := Emitted(s, m);
    if e == [] { assert s.log + e == s.log; } else { ToldMore(s.log, e[0], c); }
  }

  lemma TellsMore(told: seq<u16>, enable: bool)
    ensures TellsToUse(told + [EventOf(enable)]) == enable
    ensures Alternates(told) && TellsToUse(told) != enable ==> Alternates(told + [EventOf(enable)])
  {
    if Alternates(told) && TellsToUse(told) != enable && told != [] {
      assert IsEvent(told[|told| - 1]);
    }
  }

  // Who is in step depends on this much of the seat.
  lemma SameStep(s: Seat, r: Seat, c: ClientId)
    requires AllTold(r.log, c) == AllTold(s.log, c) && r.nextId == s.nextId && (c in r.clients <==> c in s.clients)
    requires c in s.clients ==> r.clients[c] == s.clients[c].(devices := r.clients[c].devices)
    ensures InStep(r, c) <==> InStep(s, c)
  {
  }

  lemma EnableInStep(s: Seat, c: ClientId)
    requires Legal(s, Enable(c)) && InStep(s, c) && c < s.nextId
    ensures InStep(Do(s, Enable(c)), c)
  {
    hide AllTold, TellsToUse, Alternates, ActivateAll;
    ToldAfter(s, Enable(c), c);
    TellsMore(AllTold(s.log, c), true);
  }

  lemma DisableInStep(s: Seat, m: Move)
    requires Legal(s, m) && m.Disable? && InStep(s, m.c) && m.c < s.nextId
    ensures InStep(Do(s, m), m.c) <==> !m.sent.Dropped?
    ensures InTurn(Do(s, m), m.c)
  {
    hide AllTold, TellsToUse, Alternates, DeactivateAll;
    ToldAfter(s, m, m.c);
    assert AllTold(s.log, m.c) + [] == AllTold(s.log, m.c);
    TellsMore(AllTold(s.log, m.c), false);
  }

  lemma AckInStep(s: Seat, c: ClientId)
    requires Legal(s, Ack(c)) && InStep(s, c)
    ensures InStep(Do(s, Ack(c)), c)
  {
    hide AllTold, TellsToUse, Alternates;
    ToldAfter(s, Ack(c), c);
    assert AllTold(s.log, c) + [] == AllTold(s.log, c);
  }

  lemma StateInStep(s: Seat, m: Move)
    requires Legal(s, m) && MovesState(m) && InStep(s, m.c) && m.c < s.nextId
    ensures InStep(Do(s, m), m.c) <==> !Misleading(m, m.c)
    ensures InTurn(Do(s, m), m.c)
  {
    hide Do, Legal, InTurn;
    match m
    case Enable(c) => EnableInStep(s, c);
    case Ack(c) => AckInStep(s, c);
    case _ => DisableInStep(s, m);
  }

  lemma KnownClient(s: Seat, m: Move)
    requires Ready(s) && Legal(s, m) && MovesState(m)
    ensures m.c < s.nextId
  {
  }

  lemma RosterInStep(s: Seat, m: Move, c: ClientId)
    requires Legal(s, m) && MovesRoster(m) && InStep(s, c)
    requires c in s.clients ==> c < s.nextId && ClientOk(s.clients[c])
    ensures InStep(Do(s, m), c)
  {
    hide AllTold, SessionSet, Without, GroupsNotOf, DevicesOk;
    ToldAfter(s, m, c);
    assert AllTold(s.log, c) + [] == AllTold(s.log, c);
  }

  // An enable message whose send failed.
  lemma FailedInStep(s: Seat, m: Move)
    requires Ready(s) && Legal(s, m) && m.FailOpen? && InStep(s, m.c)
    ensures InStep(Do(s, m), m.c) <==> !m.left
    ensures InTurn(Do(s, m), m.c)
  {
    hide Ready, AllTold, TellsToUse, Alternates, ActivateAll, DeactivateAll;
    MemberIs(s, m.c);
    ToldAfter(s, m, m.c);
    assert AllTold(s.log, m.c) + [] == AllTold(s.log, m.c);
    TellsMore(AllTold(s.log, m.c), true);
  }

  // A move that is about somebody else, or about something else.
  predicate Bystander(m: Move, c: ClientId) {
    !MovesRoster(m) && ((MovesState(m) || m.FailOpen?) ==> m.c != c)
  }

  lemma ToldNothing(s: Seat, m: Move, c: ClientId)
    requires Legal(s, m) && Bystander(m, c)
    ensures AllTold(Do(s, m).log, c) == AllTold(s.log, c)
  {
    hide AllTold, Do, Legal, Emitted;
    ToldAfter(s, m, c);
    EmittedToOthers(s, m, c);
    assert AllTold(s.log, c) + [] == AllTold(s.log, c);
  }

  lemma EmittedToOthers(s: Seat, m: Move, c: ClientId)
    requires Legal(s, m) && Bystander(m, c)
    ensures Emitted(s, m) == [] || ToldIn(Emitted(s, m)[0], c) == []
  {
  }

  lemma OtherInStep(s: Seat, m: Move, c: ClientId)
    requires Legal(s, m) && Bystander(m, c)
    ensures InStep(Do(s, m), c) <==> InStep(s, c)
  {
    hide InStep, Do, Legal, AllTold;
    ToldNothing(s, m, c);
    if MovesState(m) { OthersStay(s, m, c); } else { StateStays(s, m, c); }
    SameStep(s, Do(s, m), c);
  }

  // Only such a move gets a client out of step.
  lemma InStepMove(s: Seat, m: Move, c: ClientId)
    requires Ready(s) && Legal(s, m) && InStep(s, c)
    ensures InStep(Do(s, m), c) <==> !Misleading(m, c)
    ensures InTurn(Do(s, m), c)
  {
    hide Do, Legal, InTurn, AllTold, TellsToUse;
    if MovesRoster(m) {
      RosterInStep(s, m, c);
    } else if MovesState(m) && m.c == c {
      KnownClient(s, m);
      StateInStep(s, m);
    } else if m.FailOpen? && m.c == c {
      FailedInStep(s, m);
    } else {
      OtherInStep(s, m, c);
    }
  }

  // ---------------------------------------------------------------- one operation

  // Without a send nobody gets out of step.
  lemma MuteInStep(s: Seat, ms: seq<Move>, r: Seat, c: ClientId)
    requires Ready(s) && Leads(s, ms, r) && Mute(ms) && InStep(s, c)
    ensures InStep(r, c)
  {
    hide Ready, Leads, Legal, Do, InStep;
    forall u, m | Ready(u) && InStep(u, c) && !Misleading(m, c) && Legal(u, m) ensures InStep(Do(u, m), c) {
      InStepMove(u, m, c);
    }
    PathKeeps(u => InStep(u, c), m => !Misleading(m, c), s, ms, r);
  }

  lemma NoteInStep(s: Seat, e: Effect, c: ClientId)
    requires Plain(e)
    ensures InStep(Emit(s, e), c) <==> InStep(s, c)
    ensures InTurn(Emit(s, e), c) <==> InTurn(s, c)
  {
    OtherInStep(s, Note(e), c);
    ToldNothing(s, Note(e), c);
  }

  // Opening the seat now leaves its enable message on the ring.
  predicate OpensLeft(s: Seat, io: Io) {
    s.active.None? && (s.vtBound ==> io.vtOpen) && io.send.Left?
  }

  // Who may be opened with nobody active.
  predicate Openable(s: Seat, d: ClientId) {
    && Member(s, d) && s.next.None? && (s.vtBound ==> OwnsVt(s, d, s.curVt))
    && (s.clients[d].state == New || s.clients[d].state == Disabled)
  }

  lemma OpenOnInStep(s: Seat, d: ClientId, vt: int, io: Io, c: ClientId)
    requires Ready(s) && InStep(s, c) && s.active.None? && Openable(s, d)
    ensures InStep(OpenOn(s, d, vt, io), c) <==> !(c == d && io.send.Left?)
    ensures InTurn(OpenOn(s, d, vt, io), c)
  {
    hide Ready, InStep, InTurn, ActivateAll, DeactivateAll;
    if io.send.Delivered? {
      InStepMove(s, Enable(d), c);
    } else {
      var m := FailOpen(d, io.revokeFails, io.send.Left?);
      InStepMove(s, m, c);
      NoteInStep(Do(s, m), VtClosed(vt), c);
    }
  }

  lemma InStepIsInTurn(s: Seat, c: ClientId)
    requires InStep(s, c)
    ensures InTurn(s, c)
  {
  }

  lemma OpenClientInStep(s: Seat, d: ClientId, io: Io, c: ClientId)
    requires Ready(s) && InStep(s, c) && Member(s, d) && (s.active.None? ==> Openable(s, d))
    ensures InStep(OpenClient(s, d, io), c) <==> !(c == d && OpensLeft(s, io))
    ensures InTurn(OpenClient(s, d, io), c)
  {
    hide Ready, InStep, InTurn, OpenOn;
    InStepIsInTurn(s, c);
    if s.active.None? {
      if !s.vtBound {
        OpenOnInStep(s, d, s.clients[d].session, io, c);
      } else if io.vtOpen {
        var told := Emit(s, VtOpened(VtForOpen(s, d)));
        NoteInStep(s, VtOpened(VtForOpen(s, d)), c);
        LogIsFree(s, told.log);
        OpenOnInStep(told, d, VtForOpen(s, d), io, c);
      }
    }
  }

  // seat_activate leaves an enable message on the ring of this client.
  predicate ActivatesLeft(s: Seat, io: Io, c: ClientId) {
    Linked(s) && Candidate(s) == Some(c) && OpensLeft(s, io)
  }

  lemma CandidateIsOpenable(s: Seat)
    requires Ready(s) && s.active.None? && Candidate(s).Some?
    ensures Openable(s.(next := None), Candidate(s).value) && Ready(s.(next := None))
  {
  }

  lemma ActivateInStep(s: Seat, io: Io, c: ClientId)
    requires Ready(s) && InStep(s, c)
    ensures InStep(Activate(s, io), c) <==> !ActivatesLeft(s, io, c)
    ensures InTurn(Activate(s, io), c)
    ensures ActivatesLeft(s, io, c) ==> Activate(s, io).active.None?
  {
    hide Ready, InStep, InTurn, OpenClient, Candidate;
    IsLinked(s);
    InStepIsInTurn(s, c);
    if s.active.None? && Candidate(s).Some? {
      CandidateIsOpenable(s);
      SameStep(s, s.(next := None), c);
      OpenClientInStep(s.(next := None), Candidate(s).value, io, c);
      if OpensLeft(s, io) { LeftOpensNobody(s.(next := None), Candidate(s).value, io); }
    }
  }

  lemma LeftOpensNobody(s: Seat, d: ClientId, io: Io)
    requires d in s.clients && OpensLeft(s, io)
    ensures OpenClient(s, d, io).active.None?
  {
  }

  lemma DisableClientInStep(s: Seat, d: ClientId, io: Io, c: ClientId)
    requires Ready(s) && InStep(s, c) && Member(s, d) && s.active == Some(d)
    ensures InStep(DisableClient(s, d, io), c) <==> !(c == d && s.clients[d].state == Active && io.send.Dropped?)
    ensures InTurn(DisableClient(s, d, io), c)
  {
    hide Ready, InStep, InTurn, DeactivateAll;
    InStepIsInTurn(s, c);
    if s.clients[d].state == Active { InStepMove(s, Disable(d, io.revokeFails, io.send), c); }
  }

  // An acknowledged disable makes room for another client, or for the same one again.
  predicate AckLeft(s: Seat, d: ClientId, io: Io, c: ClientId)
    requires d in s.clients
  {
    && s.clients[d].state == PendingDisable && s.active == Some(d)
    && ActivatesLeft(Emit(SetClient(s, d, s.clients[d].(state := Disabled)), DisableAcked(d)).(active := None), io, c)
  }

  lemma AckDisableInStep(s: Seat, d: ClientId, io: Io, c: ClientId)
    requires Inv(s) && d in s.order && InStep(s, c)
    ensures InStep(AckDisable(s, d, io).s, c) <==> !AckLeft(s, d, io, c)
    ensures InTurn(AckDisable(s, d, io).s, c)
    ensures AckLeft(s, d, io, c) ==> AckDisable(s, d, io).s.active.None?
  {
    hide Ready, InStep, InTurn, Activate, ActivatesLeft;
    InStepIsInTurn(s, c);
    MemberIs(s, d);
    if s.clients[d].state == PendingDisable {
      AckIs(s, d, io);
      InStepMove(s, Ack(d), c);
      ActivateInStep(Do(s, Ack(d)), io, c);
    }
  }

  // So does the departure of the active client.
  predicate RemoveLeft(s: Seat, d: ClientId, io: Io, c: ClientId)
    requires d in s.clients
  {
    s.active == Some(d) && ActivatesLeft(Detach(s, d), io, c)
  }

  lemma RemoveInStep(s: Seat, d: ClientId, io: Io, c: ClientId)
    requires Inv(s) && d in s.order && InStep(s, c)
    ensures InStep(RemoveClient(s, d, io), c) <==> !RemoveLeft(s, d, io, c)
    ensures InTurn(RemoveClient(s, d, io), c)
    ensures RemoveLeft(s, d, io, c) ==> RemoveClient(s, d, io).active.None?
  {
    hide Ready, InStep, InTurn, Activate, ActivatesLeft, Detach, Leads;
    MemberIs(s, d);
    DetachKeeps(s, d);
    var ms := DetachMoves(s, d);
    MuteInStep(s, ms, Detach(s, d), c);
    InStepIsInTurn(Detach(s, d), c);
    if s.active == Some(d) { ActivateInStep(Detach(s, d), io, c); }
    NoteInStep(Vacate(s, d, io), VtClosed(s.clients[d].session), c);
  }

  lemma {:induction false} ToldQuietly(es: seq<Effect>, c: ClientId)
    requires forall i :: 0 <= i < |es| ==> ToldIn(es[i], c) == []
    ensures AllTold(es, c) == []
  {
    if es != [] { ToldQuietly(es[..|es| - 1], c); }
  }

  lemma ClosesTellNothing(d: ClientId, ds: seq<Device>, c: ClientId)
    ensures AllTold(ClosesOf(d, ds), c) == []
  {
    hide ClosesOf, AllTold;
    V.ClosesAreCloses(d, ds);
    ToldQuietly(ClosesOf(d, ds), c);
  }

  lemma DetachTells(s: Seat, d: ClientId, c: ClientId)
    requires d in s.clients
    ensures AllTold(Detach(s, d).log, c) == AllTold(s.log, c)
  {
    hide ClosesOf, GroupsOfClosed, AllTold, Without, GroupsNotOf;
    var closes, groups := ClosesOf(d, s.clients[d].devices), if s.vtBound then GroupsOfClosed(s.groups, d) else [];
    ClosesTellNothing(d, s.clients[d].devices, c);
    ToldQuietly(groups, c);
    ToldConcat(s.log, closes, c);
    ToldConcat(s.log + closes, groups, c);
    assert AllTold(s.log, c) + [] == AllTold(s.log, c);
  }

  // A client that leaves with nobody active does not matter to the others.
  lemma IdleRemoveSame(s: Seat, d: ClientId, io: Io, c: ClientId)
    requires d in s.clients && Linked(s) && s.active.None? && c != d
    ensures InStep(RemoveClient(s, d, io), c) <==> InStep(s, c)
  {
    hide InStep, AllTold, ClosesOf, GroupsOfClosed, Without, GroupsNotOf;
    DetachTells(s, d, c);
    SameStep(s, Detach(s, d), c);
    NoteInStep(Detach(s, d), VtClosed(s.clients[d].session), c);
  }

  lemma ForgetSame(s: Seat, d: ClientId, c: ClientId)
    requires d in s.clients && c != d
    ensures InStep(Emit(s.(clients := s.clients - {d}), Gone(d)), c) <==> InStep(s, c)
  {
    hide InStep, AllTold;
    ToldMore(s.log, Gone(d), c);
    assert AllTold(s.log, c) + [] == AllTold(s.log, c);
    SameStep(s, Emit(s.(clients := s.clients - {d}), Gone(d)), c);
  }

  predicate DestroyLeft(s: Seat, d: ClientId, io: Io, c: ClientId)
    requires d in s.clients
  {
    c != d && s.clients[d].seated && RemoveLeft(s, d, io, c)
  }

  lemma DestroyInStep(s: Seat, d: ClientId, io: Io, c: ClientId)
    requires Inv(s) && d in s.clients && c != d && InStep(s, c)
    ensures Linked(s) && (InStep(Destroy(s, d, io), c) <==> !DestroyLeft(s, d, io, c))
  {
    hide Ready, InStep, RemoveClient, RemoveLeft;
    IsLinked(s);
    if s.clients[d].seated {
      SeatedIsMember(s, d);
      RemoveInStep(s, d, io, c);
      RemoveClientKeeps(s, d, io);
      ForgetSame(RemoveClient(s, d, io), d, c);
    } else {
      ForgetSame(s, d, c);
    }
  }

  // Who is out of step with nobody active stays so.
  lemma DestroyOutOfStep(s: Seat, d: ClientId, io: Io, c: ClientId)
    requires Inv(s) && d in s.clients && c != d && s.active.None? && !InStep(s, c)
    ensures Linked(s) && !InStep(Destroy(s, d, io), c)
  {
    hide Ready, InStep, RemoveClient;
    IsLinked(s);
    if s.clients[d].seated {
      SeatedIsMember(s, d);
      IdleRemoveSame(s, d, io, c);
      RemoveClientKeeps(s, d, io);
      ForgetSame(RemoveClient(s, d, io), d, c);
    } else {
      ForgetSame(s, d, c);
    }
  }

  lemma OpenOnTells(s: Seat, d: ClientId, vt: int, io: Io, c: ClientId)
    requires d in s.clients && c != d
    ensures AllTold(OpenOn(s, d, vt, io).log, c) == AllTold(s.log, c)
  {
    hide AllTold, ActivateAll, DeactivateAll;
    assert AllTold(s.log, c) + [] == AllTold(s.log, c);
    ToldMore(s.log, EnableSent(d), c);
    ToldMore(s.log, EnableLeft(d), c);
    ToldMore(s.log, VtClosed(vt), c);
    ToldMore(s.log + [EnableLeft(d)], VtClosed(vt), c);
  }

  lemma ActivateTells(s: Seat, io: Io, c: ClientId)
    requires Linked(s) && Candidate(s) != Some(c)
    ensures AllTold(Activate(s, io).log, c) == AllTold(s.log, c) && Activate(s, io).nextId == s.nextId
  {
    hide AllTold, OpenOn, Candidate;
    if s.active.None? && Candidate(s).Some? {
      var d, t := Candidate(s).value, s.(next := None);
      var told := Emit(t, VtOpened(VtForOpen(t, d)));
      assert AllTold(s.log, c) + [] == AllTold(s.log, c);
      ToldMore(s.log, VtOpened(VtForOpen(t, d)), c);
      OpenOnTells(t, d, t.clients[d].session, io, c);
      OpenOnTells(told, d, VtForOpen(t, d), io, c);
      OpenClientFrame(t, d, io);
    }
  }

  // Who leaves is told nothing any more.
  lemma RemoveTells(s: Seat, d: ClientId, io: Io)
    requires Inv(s) && d in s.order
    ensures d in s.clients && Linked(s)
    ensures AllTold(RemoveClient(s, d, io).log, d) == AllTold(s.log, d) && RemoveClient(s, d, io).nextId == s.nextId
  {
    hide AllTold, Ready, Detach, Activate, Candidate;
    MemberIs(s, d);
    DetachKeeps(s, d);
    DetachedIsNoCandidate(s, d);
    DetachTells(s, d, d);
    if s.active == Some(d) { ActivateTells(Detach(s, d), io, d); }
    ToldMore(Vacate(s, d, io).log, VtClosed(s.clients[d].session), d);
    assert AllTold(s.log, d) + [] == AllTold(s.log, d);
  }

  lemma DetachedIsNoCandidate(s: Seat, d: ClientId)
    requires d in s.clients && Ready(Detach(s, d))
    ensures Linked(Detach(s, d)) && Candidate(Detach(s, d)) != Some(d) && Detach(s, d).nextId == s.nextId
  {
    hide ClosesOf, GroupsOfClosed, GroupsNotOf;
  }

  lemma DestroyedInStep(s: Seat, d: ClientId, io: Io)
    requires Inv(s) && d in s.clients && d < s.nextId && InTurn(s, d)
    ensures Linked(s) && InStep(Destroy(s, d, io), d)
  {
    hide Ready, AllTold, RemoveClient;
    IsLinked(s);
    var t := if s.clients[d].seated then RemoveClient(s, d, io) else s;
    if s.clients[d].seated {
      SeatedIsMember(s, d);
      RemoveTells(s, d, io);
    }
    ToldMore(t.log, Gone(d), d);
    assert AllTold(s.log, d) + [] == AllTold(s.log, d);
  }

  // ---------------------------------------------------------------- one turn

  // The handler of a request leaves an enable message on the ring of this client, or disables it
  // without getting the message there.
  predicate HandleLeft(s: Seat, d: ClientId, req: Request, io: Io, c: ClientId)
    requires d in s.clients && Linked(s)
  {
    match req
    case OpenSeatReq => c == d && AddClient(s, d, io).ok && io.put && OpensLeft(s, io)
    case CloseSeatReq => s.clients[d].seated && RemoveLeft(s, d, io, c)
    case DisableSeatReq => s.clients[d].seated && AckLeft(s, d, io, c)
    case SwitchSessionReq(session) =>
      s.clients[d].seated && c == d && SetNextSession(s, d, session, io).s.next != s.next && io.send.Dropped?
    case _ => false
  }

  lemma AnswerInStep(s: Seat, d: ClientId, reply: Reply, io: Io, c: ClientId)
    ensures InStep(Answer(s, d, reply, io).s, c) <==> InStep(s, c)
    ensures InTurn(Answer(s, d, reply, io).s, c) <==> InTurn(s, c)
    ensures Answer(s, d, reply, io).s.active == s.active
  {
    hide InStep, InTurn;
    NoteInStep(s, Replied(d, reply), c);
  }

  lemma OpenSeatInStep(s: Seat, d: ClientId, io: Io, c: ClientId)
    requires Inv(s) && Linked(s) && d in s.clients && InStep(s, c)
    ensures InStep(HandleOpenSeat(s, d, io).s, c) <==> !HandleLeft(s, d, OpenSeatReq, io, c)
    ensures InTurn(HandleOpenSeat(s, d, io).s, c)
  {
    hide Ready, InStep, InTurn, Leads, OpenClient, MinFree, SessionSet;
    var ms := AddClientMoves(s, d, io);
    MuteInStep(s, ms, AddClient(s, d, io).s, c);
    InStepIsInTurn(AddClient(s, d, io).s, c);
    if AddClient(s, d, io).ok && io.put {
      var told := Emit(AddClient(s, d, io).s, Replied(d, SeatOpened));
      NoteInStep(AddClient(s, d, io).s, Replied(d, SeatOpened), c);
      AddClientKeeps(s, d, io);
      EmitKeeps(AddClient(s, d, io).s, Replied(d, SeatOpened));
      AddedIsReady(s, d, io);
      AddedOwnsVt(s, d, io);
      OpenClientInStep(told, d, io, c);
    }
  }

  lemma SwitchInStep(s: Seat, d: ClientId, session: int, io: Io, c: ClientId)
    requires Inv(s) && Linked(s) && d in s.order && d in s.clients && InStep(s, c)
    ensures var r := SetNextSession(s, d, session, io).s;
            InTurn(r, c) && (InStep(r, c) <==> !(c == d && r.next != s.next && io.send.Dropped?))
  {
    InStepIsInTurn(s, c);
    var r := SetNextSession(s, d, session, io).s;
    if r == s {
      return;
    } else if s.vtBound {
      AskedInStep(s, d, session, io, c);
    } else {
      var m := Disable(d, io.revokeFails, io.send);
      QueueIs(s, d, session, io);
      hide Ready, InStep, InTurn, Legal, Do, SetNextSession;
      var target := s.order[IndexOfSession(s, session, 0)];
      InStepMove(s, m, c);
      OtherInStep(Do(s, m), Enqueue(target), c);
      OtherInTurn(Do(s, m), Enqueue(target), c);
    }
  }

  lemma OtherInTurn(s: Seat, m: Move, c: ClientId)
    requires Legal(s, m) && Bystander(m, c)
    ensures InTurn(Do(s, m), c) <==> InTurn(s, c)
  {
    hide AllTold, Do, Legal;
    ToldNothing(s, m, c);
  }

  lemma AskedInStep(s: Seat, d: ClientId, session: int, io: Io, c: ClientId)
    requires Inv(s) && s.vtBound && Linked(s) && d in s.order && d in s.clients && InStep(s, c)
    ensures var r := SetNextSession(s, d, session, io).s; InStep(r, c) && r.next == s.next
  {
    hide Ready, InStep;
    NothingPending(s);
    if SetNextSession(s, d, session, io).s != s { OtherInStep(s, AskVt(session), c); }
  }

  lemma DeviceInStep(s: Seat, d: ClientId, req: Request, io: Io, c: ClientId)
    requires Inv(s) && Linked(s) && d in s.clients && InStep(s, c) && (req.OpenDeviceReq? || req.CloseDeviceReq?)
    ensures InStep(Handle(s, d, req, io).s, c)
  {
    if s.clients[d].seated {
      SeatedIsMember(s, d);
      hide Ready, InStep, Leads, HandleOpenDevice, HandleCloseDevice;
      var ms: seq<Move>;
      if req.OpenDeviceReq? {
        ms := HandleOpenDeviceMoves(s, d, io);
      } else {
        ms := HandleCloseDeviceMoves(s, d, req.id, io);
      }
      MuteInStep(s, ms, Handle(s, d, req, io).s, c);
    }
  }

  // The same over a whole handler.
  lemma HandleInStep(s: Seat, d: ClientId, req: Request, io: Io, c: ClientId)
    requires Inv(s) && Linked(s) && d in s.clients && InStep(s, c)
    ensures InStep(Handle(s, d, req, io).s, c) <==> !HandleLeft(s, d, req, io, c)
    ensures InTurn(Handle(s, d, req, io).s, c)
    ensures c != d && HandleLeft(s, d, req, io, c) ==> Handle(s, d, req, io).s.active.None?
  {
    hide Ready, InTurn, AllTold, TellsToUse, RemoveClient, AckDisable, SetNextSession, HandleOpenSeat, AckLeft,
         RemoveLeft, Answer, OpensLeft;
    if s.clients[d].seated { SeatedIsMember(s, d); }
    match req
    case OpenSeatReq => OpenSeatInStep(s, d, io, c);
    case PingReq => AnswerInStep(s, d, Pong, io, c);
    case OpenDeviceReq => DeviceInStep(s, d, req, io, c);
    case CloseDeviceReq(_) => DeviceInStep(s, d, req, io, c);
    case CloseSeatReq =>
      if s.clients[d].seated {
        RemoveInStep(s, d, io, c);
        AnswerInStep(RemoveClient(s, d, io), d, SeatClosed, io, c);
      }
    case DisableSeatReq =>
      if s.clients[d].seated {
        var acked := AckDisable(s, d, io);
        AckDisableInStep(s, d, io, c);
        AnswerInStep(acked.s, d, if acked.ok then SeatDisabled else Error, io, c);
      }
    case SwitchSessionReq(session) =>
      if s.clients[d].seated {
        var queued := SetNextSession(s, d, session, io);
        SwitchInStep(s, d, session, io, c);
        AnswerInStep(queued.s, d, if queued.ok then SessionSwitched else Error, io, c);
      }
  }

  lemma ClientIsKnown(s: Seat, d: ClientId)
    requires Ready(s) && d in s.clients
    ensures d < s.nextId
  {
  }

  // A request, with the teardown that a failure brings.
  predicate ServeLeft(s: Seat, d: ClientId, req: Request, io: Io, io2: Io, c: ClientId)
    requires d in s.clients && Linked(s)
  {
    var h := Handle(s, d, req, io);
    if h.ok && io.flush then HandleLeft(s, d, req, io, c)
    else c != d && d in h.s.clients && (HandleLeft(s, d, req, io, c) || DestroyLeft(h.s, d, io2, c))
  }

  lemma ServeInStep(s: Seat, d: ClientId, req: Request, io: Io, io2: Io, c: ClientId)
    requires Inv(s) && Linked(s) && d in s.clients && InStep(s, c)
    ensures InStep(ServeClient(s, d, req, io, io2), c) <==> !ServeLeft(s, d, req, io, io2, c)
  {
    hide Ready, InStep, InTurn, Handle, Destroy, HandleLeft, DestroyLeft;
    var h := Handle(s, d, req, io);
    HandleKeeps(s, d, req, io);
    HandleInStep(s, d, req, io, c);
    if !(h.ok && io.flush) {
      if c == d {
        ClientIsKnown(h.s, d);
        DestroyedInStep(h.s, d, io2);
      } else if HandleLeft(s, d, req, io, c) {
        DestroyOutOfStep(h.s, d, io2, c);
      } else {
        DestroyInStep(h.s, d, io2, c);
      }
    }
  }

  // A VT event: nobody is active and somebody is opened, or the active client loses its VT.
  predicate EventLeft(s: Seat, oldVt: int, newVt: int, io: Io, c: ClientId)
    requires Linked(s)
  {
    var moved := Moved(s, oldVt, newVt);
    if s.active.None? then ActivatesLeft(moved, io, c)
    else s.active == Some(c) && s.clients[c].state == Active && !OwnsVt(moved, c, newVt) && io.send.Dropped?
  }

  lemma EventInStep(s: Seat, oldVt: int, newVt: int, io: Io, c: ClientId)
    requires Inv(s) && Linked(s) && InStep(s, c)
    ensures InStep(VtEvent(s, oldVt, newVt, io), c) <==> !EventLeft(s, oldVt, newVt, io, c)
  {
    hide Ready, InStep, ActivatesLeft, Activate, DisableClient, OwnsVt, ActivateAll;
    var t := Moved(s, oldVt, newVt);
    MovedIsReady(s, oldVt, newVt);
    MovedInStep(s, t, VtChanged(oldVt, newVt), c);
    if s.active.None? {
      ActivateInStep(t, io, c);
    } else {
      IsLinked(t);
      MemberIs(t, s.active.value);
      if OwnsVt(t, s.active.value, newVt) {
        SameStep(t, SetDevices(t, s.active.value, ActivateAll(t.clients[s.active.value].devices)), c);
      } else {
        DisableClientInStep(t, s.active.value, io, c);
      }
    }
  }

  lemma MovedInStep(s: Seat, t: Seat, e: Effect, c: ClientId)
    requires t.clients == s.clients && t.nextId == s.nextId && t.log == s.log + [e] && e.VtChanged?
    ensures InStep(t, c) <==> InStep(s, c)
  {
    hide InStep, AllTold;
    ToldMore(s.log, e, c);
    assert AllTold(s.log, c) + [] == AllTold(s.log, c);
    SameStep(s, t, c);
  }

  // Whom a turn gets out of step.
  ghost predicate Misleads(s: Seat, t: Turn, c: ClientId)
    requires Inv(s)
  {
    IsLinked(s);
    match t.step
    case Serve(d, req) => d in s.clients && ServeLeft(s, d, req, t.io, t.io2, c)
    case Disconnect(d) => d in s.clients && DestroyLeft(s, d, t.io2, c)
    case Event(oldVt, newVt) => EventLeft(s, oldVt, newVt, t.io, c)
    case _ => false
  }

  lemma DropInStep(s: Seat, d: ClientId, io: Io, c: ClientId)
    requires Inv(s) && d in s.clients && InStep(s, c)
    ensures InStep(Drop(s, d, io), c) <==> !DestroyLeft(s, d, io, c)
  {
    ClientIsKnown(s, d);
    InStepIsInTurn(s, c);
    hide Ready, InStep, Destroy;
    if c == d { DestroyedInStep(s, d, io); } else { DestroyInStep(s, d, io, c); }
  }

  // A client in step stays in step over a turn if and only if the turn does not mislead it.
  lemma TurnInStep(s: Seat, t: Turn, c: ClientId)
    requires Inv(s) && InStep(s, c)
    ensures InStep(Take(s, t), c) <==> !Misleads(s, t, c)
  {
    hide Ready, InStep, Leads, ServeLeft, DestroyLeft, EventLeft, Destroy, VtEvent, ServeClient, Drop;
    IsLinked(s);
    match t.step
    case Connect(pid) => One(s, Arrive(pid)); MuteInStep(s, [Arrive(pid)], Take(s, t), c);
    case Serve(d, req) => ServeTurnInStep(s, t, c);
    case Disconnect(d) => DropTurnInStep(s, t, c);
    case Event(oldVt, newVt) => EventInStep(s, oldVt, newVt, t.io, c);
    case ControlCreate(pid, vt) => var ms := CreateMoves(s, pid, vt, t.io); MuteInStep(s, ms, Take(s, t), c);
    case ControlDestroy(vt) => var ms := DeleteMoves(s, vt); MuteInStep(s, ms, Take(s, t), c);
    case ControlSwitch(vt) => var ms := SwitchMoves(s, vt, t.io); MuteInStep(s, ms, Take(s, t), c);
    case SignalRelease => var ms := ReleaseMoves(s, t.io); MuteInStep(s, ms, Take(s, t), c);
    case _ => var ms := LookMoves(s, t.io); MuteInStep(s, ms, Take(s, t), c);
  }

  lemma ServeTurnInStep(s: Seat, t: Turn, c: ClientId)
    requires Inv(s) && InStep(s, c) && t.step.Serve?
    ensures InStep(Take(s, t), c) <==> !Misleads(s, t, c)
  {
    hide Ready, InStep, ServeLeft, Handle, Destroy;
    IsLinked(s);
    if t.step.c in s.clients { ServeInStep(s, t.step.c, t.step.req, t.io, t.io2, c); }
  }

  lemma DropTurnInStep(s: Seat, t: Turn, c: ClientId)
    requires Inv(s) && InStep(s, c) && t.step.Disconnect?
    ensures InStep(Take(s, t), c) <==> !Misleads(s, t, c)
  {
    hide Ready, InStep, DestroyLeft, Destroy;
    if t.step.c in s.clients { DropInStep(s, t.step.c, t.io2, c); }
  }

  // ---------------------------------------------------------------- whole runs

  ghost predicate NeverMisled(s: Seat, turns: seq<Turn>, c: ClientId)
    requires Inv(s)
  {
    forall k :: 0 <= k < |turns| ==> !Misleads(Run(s, turns[..k]), turns[k], c)
  }

  ghost predicate AlwaysInStep(s: Seat, turns: seq<Turn>, c: ClientId)
    requires Inv(s)
  {
    forall k :: 0 <= k <= |turns| ==> InStep(Run(s, turns[..k]), c)
  }

  lemma InStepNext(s: Seat, turns: seq<Turn>, k: nat, c: ClientId)
    requires Inv(s) && k < |turns| && InStep(Run(s, turns[..k]), c)
    ensures InStep(Run(s, turns[..k + 1]), c) <==> !Misleads(Run(s, turns[..k]), turns[k], c)
  {
    hide Run, InStep, Misleads, Take, Inv;
    assert turns[..k] + [turns[k]] == turns[..k + 1];
    RunMore(s, turns[..k], turns[k]);
    TurnInStep(Run(s, turns[..k]), turns[k], c);
  }

  lemma {:induction false} InStepUpTo(s: Seat, turns: seq<Turn>, k: nat, c: ClientId)
    requires Inv(s) && InStep(s, c) && NeverMisled(s, turns, c) && k <= |turns|
    ensures InStep(Run(s, turns[..k]), c)
  {
    hide InStep, Misleads, Take, Inv;
    if k > 0 {
      InStepUpTo(s, turns, k - 1, c);
      InStepNext(s, turns, k - 1, c);
    }
  }

  // A client is in step all along a run if and only if no turn of the run misleads it.
  lemma InStepAllAlong(s: Seat, turns: seq<Turn>, c: ClientId)
    requires Inv(s) && InStep(s, c)
    ensures AlwaysInStep(s, turns, c) <==> NeverMisled(s, turns, c)
  {
    hide Run, InStep, Misleads, Take, Inv;
    if NeverMisled(s, turns, c) {
      forall k | 0 <= k <= |turns| ensures InStep(Run(s, turns[..k]), c) { InStepUpTo(s, turns, k, c); }
    }
    if AlwaysInStep(s, turns, c) {
      forall k | 0 <= k < |turns| ensures !Misleads(Run(s, turns[..k]), turns[k], c) {
        assert InStep(Run(s, turns[..k + 1]), c);
        InStepNext(s, turns, k, c);
      }
    }
  }

  lemma InitInStep(vtBound: bool, c: ClientId)
    ensures Inv(Init(vtBound)) && InStep(Init(vtBound), c)
  {
  }

  // From the start of the daemon, in every run that does not mislead it: the last thing a member was
  // told is to use the seat exactly if it is ACTIVE.
  lemma ToldMeansActive(vtBound: bool, turns: seq<Turn>, c: ClientId)
    requires NeverMisled(Init(vtBound), turns, c)
    ensures var s := Run(Init(vtBound), turns);
            c in s.clients && s.clients[c].seated ==> (TellsToUse(AllTold(s.log, c)) <==> s.clients[c].state == Active)
  {
    InitInStep(vtBound, c);
    hide Run, Misleads, Inv, Init, AllTold;
    InStepUpTo(Init(vtBound), turns, |turns|, c);
    assert turns[..|turns|] == turns;
  }

  // Sends that succeed mislead nobody.
  lemma SuccessDoesNotMislead(s: Seat, t: Turn, c: ClientId)
    requires Inv(s) && t.io.send.Delivered? && t.io2.send.Delivered?
    ensures !Misleads(s, t, c)
  {
    hide Ready, Candidate, Handle, Detach, AddClient, SetNextSession, OwnsVt;
  }

  // ---------------------------------------------------------------- two runs that mislead

  lemma NothingYet(c: ClientId)
    ensures AllTold([], c) == [] && LeftCount([], c) == 0
  {
  }

  // What is in these three entries.
  lemma ToldOfThree(c: ClientId, oldVt: int, newVt: int)
    ensures var log := [Replied(c, SeatOpened), EnableSent(c)] + [VtChanged(oldVt, newVt)];
            AllTold(log, c) == [EventOf(true)] && LeftCount(log, c) == 0
  {
    hide AllTold, LeftCount;
    var a, b, e := Replied(c, SeatOpened), EnableSent(c), VtChanged(oldVt, newVt);
    assert [a, b] == [] + [a] + [b];
    NothingYet(c);
    ToldMore([], a, c);
    ToldMore([] + [a], b, c);
    ToldMore([a, b], e, c);
    LeftEmit([], a, c);
    LeftEmit([] + [a], b, c);
    LeftEmit([a, b], e, c);
  }

  // The only client of a seat loses it to a VT event, and the message about that is not even put on
  // the ring: it was last told to use the seat, nothing is on its way, and it is not ACTIVE.
  lemma DisabledUnheard(pid: int, oldVt: int, newVt: int, io: Io, io2: Io) returns (turns: seq<Turn>, c: ClientId)
    requires io.put && io.flush && io.send.Delivered? && newVt != 1
    ensures Inv(Init(false))
    ensures var s := Run(Init(false), turns);
            && c in s.clients && s.clients[c].seated && s.clients[c].state == PendingDisable
            && TellsToUse(AllTold(s.log, c)) && LeftCount(s.log, c) == 0
  {
    hide Run, AllTold, LeftCount;
    var event;
    turns, event, c := U.EventTakesSeat(pid, oldVt, newVt, io, io2, Dropped);
    ToldOfThree(c, oldVt, newVt);
    turns := turns + [event];
    var log := [Replied(c, SeatOpened), EnableSent(c)] + [VtChanged(oldVt, newVt)];
    assert Run(Init(false), turns).log == log + [] == log;
  }
}
