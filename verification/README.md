# A verified model of dde-seatd

dde-seatd hands out a seat: it decides which client may use the keyboard, the mouse and the graphics
card, follows VT switches, and tells its clients when to let go and when to carry on. This project
models the parts of it whose correctness depends on state that many operations share, in Dafny, and
proves what those parts are supposed to keep.

`dafny verify dfyconfig.toml` checks the whole project.

## How it is built

**The seat** (`seatd/seat.c`, driven by `seatd/client.c`, `seatd/control.c` and the VT callbacks of
`seatd/server.c`).

- `SeatSpec` has the seat as a value and every operation as a function on it. Pointers to clients are
  keys of a map. Every answer of the kernel or a socket that the code branches on is a field of `Io`.
  What the daemon sends is appended to a log.
- `SeatDaemon` is the code: an object with the fields of `struct seat`, its loops and its early
  returns. Each method is proved equal to the function of `SeatSpec`, and the `assert`s of the C code
  are proved in it.
- `SeatInvariant` has the consistency predicate `Inv` and the transition function `Next` of the event
  loop. `Inv` is broken and restored inside a step: `Ready` is what holds when activation is entered
  from a removal, an acknowledgement or a VT event.
- `SeatMoves` takes every turn of the daemon apart into elementary moves, each legal in the state in
  which it is made (`TurnMoves`). `SeatRuns` lifts what every move keeps to every run. The theorems
  about whole runs, in `SeatCycle`, `SeatSwitch`, `SeatDevices`, `SeatVts`, `SeatUnbound` and
  `SeatReplies`, are proved once per kind of move.
- `SeatOutcomes` says what each request, signal and event comes to, for any answers of the kernel and
  the sockets, as relations between the seat before and after it that do not use the functions of
  `SeatSpec`: who gets a free seat, which entry of which table changes, which VT is asked for, what
  is answered. `SeatHandover`, `DeviceTurns` and `VtTurns` follow requests over several turns: a
  session switch to the client it was for, an open to its close, a VT switch to the kernel.
- An event message goes out, or its flush fails and leaves it on the ring, or it does not even get
  there; the daemon cannot tell the last two apart. `Leftovers` has what follows from that for what
  reaches a client, and `SeatTold` when it is true: a client is in step if the last thing it was told
  is to use the seat exactly if it is ACTIVE, and `TurnInStep` has which turns get it out of step.

**The connection** (`common/connection.c`). `Ring` is the 256-byte ring with 32-bit counters that
wrap; `Connection` is the sending half and the receiving half with their descriptor queues; `Channel`
joins two of them by a wire and proves what happens end to end.

**The protocol.** `Protocol` has the wire format. `Framing` is the read loop of the daemon.
`Requests` has the requests of the library as bytes, and that they are what the daemon serves.
`Libseat` and `Backend` are the client library (`libseat/backend/seatd.c`), again functions and an
object proved against them; `Listeners` has what a listener may do with the backend while
`execute_events` is running, what that comes to, and what it keeps; `CallOutcomes` has what the pieces
of a call make of any bytes and any polls, without the functions that do it. `Letters`, `Mailing`, `Talk` and `Session` put the
library and the daemon together: the bytes that are under way are the encoding of the letters the
daemon posted, the descriptors those that belong to them, the daemon is the machine of
`SeatInvariant`, and everything either side may do can happen in any order, with reads of any size
and listeners that call back. When descriptors arrive is taken there as a condition on a read;
`Carriage` derives it from the flow of `Channel`. `SessionOrder` follows the events from the daemon's
states to the listeners. `TalkCalls` shows that the synchronous calls of `Backend`, `open_seat`, dispatch
and everything its listeners may do are runs of these steps, so that what holds over every run holds of
them. `TalkEdges` shows where the library's promises end.

**The event loop** (`seatd/poller.c`, `common/linked_list.c`). `Poller` is the loop with its cached
array, under callbacks that add, change and destroy sources. `LinkedList` is the intrusive list on the
heap, proved to be the sequence the other modules take it for.

**FreeBSD tty names** (`common/terminal.c`). `TtyPath`.

## What turned out differently from what one would expect

- A VT event is handed to every seat, although the comment at `seatd/seat.c:28-31` has VTs concern
  VT-bound seats only. On a seat that is not VT-bound it takes the seat away from the active client
  unless the client's session number happens to equal the VT number: `VtEventOnUnboundSeat`, both
  directions. `EventTakesSeat` is such a run from the start of the daemon.
- A VT event onto a VT of a client that has been told to disable and has not acknowledged gives that
  client DRM master back (`seatd/seat.c:1131-1133`). Authority over DRM devices survives a turn
  exactly if this does not happen: `DrmAuthorityTurn`. `MasterLeaks` follows it to a disabled client
  that keeps DRM master with nobody active, and `LeakHappens` is a run from the start of the daemon
  that ends there.
- What a client was last told need not be so, for two reasons. A send of an enable message that fails
  because the socket is full leaves the message on the ring (`seatd/client.c:458-469`); the daemon
  takes the seat back (`seatd/seat.c:739-751`), and the next flush delivers the message all the same.
  `ToldWithoutSeat` is the run in which a client is told to use a seat that nobody has. And a disable
  message that does not even get onto the ring is given up, while the client is taken to have been
  told (`seatd/seat.c:785-789`): `DisabledUnheard` is the run in which a client was last told to use
  the seat, with nothing on its way to it, and is not ACTIVE. Nothing else does it: a client that is
  in step stays in step over a turn exactly if neither happens to it in that turn (`TurnInStep`), and
  over a run exactly if neither happens in any (`InStepAllAlong`). What reaches a client is what the
  daemon takes for sent exactly if nothing was left on its ring: `ToldIsSent`, `ToldAsSent`.
- The client library accepts device paths of up to 256 bytes, but the daemon's ring can take in the
  request only up to 250: `LongestPath`, `RingHasRoom`.
- `read_until_response` gives up without an error state when `poll` fails, or when `recvmsg` says
  EAGAIN (`libseat/backend/seatd.c:277-279`, `294-300`). The reply that is still to come is then read
  by the next call. A call reads its own reply exactly if no other reply is owed: `WhoseReply`. From
  any state with nothing under way an `open_device` can so be answered with another one's reply and
  another one's descriptor: `GivingUpMixesReplies`; `ConfusionHappens` is such a run from its start.
- `open_seat` does not look for events behind its reply, as the other calls do: it leaves a message on
  the ring exactly if a header had arrived there behind the reply (`OpenSeatLeaves`). The daemon sends
  an enable message right behind that reply whenever the seat is free (`OpenSeatPosts`). So from every
  fresh connection to a free seat there is a run in which the enable message stays on the ring with
  nothing on its way that would wake the caller up: `EventLeftBehind`.
- Pending events are run newest first (`libseat/backend/seatd.c:196`, `206`). For the alternating
  events of a client that is in step, that is the order in which they were sent exactly if an odd
  number of them is pending, or none: `RightOrder`. `WrongOrderHappens` is a run in which a client has
  an enable and a disable message pending and its listeners are called the wrong way round.
- `connection_read` returns the fill level of the ring and not the number of bytes read, so the end of
  a stream goes unnoticed while bytes are left on the ring; `Incoming.Read` has it that way.

## Model

| member | source | states |
|---|---|---|
| `SeatRuns.Run` | seatd/seat.c:252-287 | the consistency of the seat holds after every run of client, control, signal, VT and disconnect turns with any outcome of the calls that leave the daemon: ACTIVE or PENDING_DISABLE is exactly the active client, nobody on the seat is CLOSED, a queued client waits for a different one in PENDING_DISABLE on a seat without VTs, grouped VTs are distinct and owned by members under another session, device tables have distinct positive ids and paths, live references and at most 128 entries |
| `SeatRuns.EveryRunIsConsistent` | seatd/seat.c:711-901 | the same written out, so that the assertions at lines 458, 771 and 839 never fire and the return at line 812 is never taken |
| `SeatInvariant.Next` | seatd/server.c:153-175 | one turn of the event loop, of any kind, keeps the consistency of the seat |
| `SeatInvariant.HandleKeeps` | seatd/client.c:163-347 | every request handler keeps it, whether it succeeds or fails half-way |
| `SeatInvariant.OpenClientKeeps` | seatd/seat.c:711-756 | seat_open_client, entered with a client queued and nobody active, restores it |
| `SeatInvariant.ActivateKeeps` | seatd/seat.c:252-287 | so does seat_activate, whoever it chooses |
| `SeatInvariant.ActivateFrame` | seatd/seat.c:252-287 | and it changes neither the membership nor the sessions nor the VTs |
| `SeatInvariant.DisableClientKeeps` | seatd/seat.c:763-793 | disabling the active client keeps the consistency of the seat |
| `SeatInvariant.AckDisableKeeps` | seatd/seat.c:801-823 | so does an acknowledged disable, with the activation inside it |
| `SeatInvariant.JoinKeeps` | seatd/seat.c:324-356 | a client may join under a session that is its own on a seat without VTs |
| `SeatInvariant.AddClientKeeps` | seatd/seat.c:297-356 | seat_add_client puts the client in front of the list, or changes nobody's membership |
| `SeatInvariant.RemoveClientKeeps` | seatd/seat.c:365-418 | removal, with its device loop, its group VTs and the activation of another client, keeps the consistency of the seat |
| `SeatInvariant.OpenDeviceKeeps` | seatd/seat.c:449-555 | opening a device keeps the tables well-formed |
| `SeatInvariant.CloseDeviceKeeps` | seatd/seat.c:630-653 | so does closing one |
| `SeatInvariant.SetNextSessionKeeps` | seatd/seat.c:832-901 | a session switch queues a different member or asks for a VT, and keeps the consistency of the seat |
| `SeatInvariant.CreateGroupVtKeeps` | seatd/seat.c:1025-1079 | a new grouped VT is nobody else's and not its owner's session |
| `SeatInvariant.DestroyGroupVtKeeps` | seatd/seat.c:1081-1096 | removing one leaves the others as they are |
| `SeatInvariant.VtReleaseKeeps` | seatd/seat.c:930-961 | the release signal keeps the consistency of the seat |
| `SeatInvariant.VtEventKeeps` | seatd/seat.c:1109-1148 | so does a VT event, with the disable or activation inside it |
| `SeatInvariant.DestroyKeeps` | seatd/client.c:103-128 | so does the destruction of a client in any state |
| `SeatSpec.CloseAtLowersWeight` | seatd/seat.c:374-377 | the removal loop ends: closing the head of the table lowers the sum of its reference counts |
| `SeatSpec.MinFree` | seatd/seat.c:336-347 | the session of a client on a seat without VTs is the smallest positive number not in use |
| `SeatMoves.MoveKeeps` | seatd/seat.c:252-901 | every elementary move keeps what activation relies on |
| `SeatMoves.TurnMoves` | seatd/seat.c:252-1148 | every turn is a path of legal moves; only the first can change a VT, every send in it comes out as the sends of the turn did, nobody is answered unless a request was served, and DRM master is given back only to an owner of the VT an event announced |
| `SeatRuns.TurnKeeps` | seatd/seat.c:252-1148 | what every legal move permitted by the outcome of the sends keeps survives a turn |
| `SeatRuns.RunKeeps` | seatd/seat.c:252-1148 | what every legal move keeps holds after every run |
| `SeatRuns.SentRunKeeps` | seatd/client.c:445-469 | what every move but a failed send keeps holds after every run in which the sends of events succeed |
| `SeatRuns.TidyRunKeeps` | seatd/client.c:445-469 | what every move keeps that leaves no message on a ring holds after every run in which no failed send does |
| `SeatCycle.EveryClientTakesTurns` | seatd/seat.c:711-823 | where event sends succeed, each client's history of enable, disable and accepted acknowledgement is a prefix of these three repeated, and its length says in which state the client is |
| `SeatCycle.HistoryIsFrozen` | seatd/seat.c:365-418 | once a client has left the seat its history never changes, in any continuation |
| `Leftovers.ToldIsSent` | seatd/client.c:445-469 | the events that go onto the ring of a client are those the daemon takes for sent if and only if no failed send left one there |
| `Leftovers.TidyRunsTellAll` | seatd/client.c:445-469 | hence so it is after every run without such a send |
| `Leftovers.OpenedInVain` | seatd/seat.c:739-751 | opening an idle seat with such a send: the client is a member, new, and told to use the seat, and the seat is nobody's |
| `Leftovers.ToldWithoutSeat` | seatd/seat.c:739-751 | the run from the start of the daemon that ends so |
| `SeatTold.InStepMove` | seatd/seat.c:711-823 | of the elementary moves of the daemon, exactly two get a client out of step, which is told to use the seat if and only if it is ACTIVE: taking the seat back with the enable message left on the ring, and a disable message that does not get there |
| `SeatTold.HandleInStep` | seatd/client.c:163-347 | for every request handler and every outcome of its calls, when it gets a client out of step, both directions |
| `SeatTold.EventInStep` | seatd/seat.c:1109-1148 | the same of a VT event |
| `SeatTold.TurnInStep` | seatd/server.c:153-175 | a client in step stays in step over a turn of any kind if and only if the turn does not mislead it |
| `SeatTold.InStepAllAlong` | seatd/server.c:153-175 | it is in step all along a run if and only if no turn of the run does |
| `SeatTold.ToldMeansActive` | seatd/seat.c:711-823 | from the start of the daemon, over every run that does not mislead it: the last thing a member was told is to use the seat exactly if it is ACTIVE |
| `SeatTold.SuccessDoesNotMislead` | seatd/seat.c:739-789 | no turn in which event sends succeed does |
| `SeatTold.DisabledUnheard` | seatd/seat.c:785-789 | the run from the start of the daemon after which a client was last told to use the seat, nothing is on its way, and it is not ACTIVE |
| `SeatSwitch.OneSwitchInFlight` | seatd/seat.c:123-145 | pending_vt_switch is positive exactly if a VT activation was accepted since the last VT event, and two accepted activations always have a VT event between them, from either entry point |
| `SeatDevices.ReferencesBalance` | seatd/seat.c:449-555 | over every run, the references a client holds to a path are its successful opens minus its closes |
| `SeatDevices.RefCntIsExact` | seatd/seat.c:630-653 | so ref_cnt of every device in a table is that difference, and at least 1 |
| `SeatDevices.InputAuthority` | seatd/seat.c:564-596 | over every run, an active device other than a DRM device whose revocation never failed belongs to an ACTIVE client |
| `SeatDevices.DrmAuthorityTurn` | seatd/seat.c:1131-1137 | the same for all devices survives a turn if and only if the turn is not a VT event onto a VT of a client in PENDING_DISABLE that holds such a DRM device |
| `SeatDevices.DrmAuthority` | seatd/seat.c:612-624 | hence it holds over every run without such an event |
| `SeatDevices.OnlyOneHolder` | seatd/seat.c:564-704 | and then at most one client has active devices |
| `SeatDevices.RevocationIsFinal` | seatd/seat.c:659-704 | a device other than a DRM device that was cut off stays inactive in every continuation until the client has given up all references to it |
| `SeatDevices.MasterLeaks` | seatd/seat.c:1131-1137 | a client in PENDING_DISABLE that sees its VT come back and go to a VT nobody owns before it acknowledges ends up disabled, with its DRM device active and nobody else active |
| `SeatDevices.LeakHappens` | seatd/seat.c:1131-1137 | a run from the start of the daemon that ends there: one client, one DRM device, its VT switched away, back and away |
| `SeatVts.ActivationOwnsVt` | seatd/seat.c:158-174 | on a VT-bound seat, whoever becomes ACTIVE in a turn owns the VT that is current afterwards, by session or as a grouped VT |
| `SeatVts.EventLeavesOnlyOwners` | seatd/seat.c:1109-1148 | after a VT event any client still ACTIVE owns the new VT, whatever failed |
| `SeatVts.GroupTurn` | seatd/seat.c:930-961 | a turn of anybody else, a release or a VT event onto a VT of its own changes nothing about an ACTIVE client but the flags of its DRM devices and sends it nothing; after the event they are all active |
| `SeatVts.GroupSwitchesAreUnseen` | README.md:31-33 | hence any run of such turns goes unseen by the compositor |
| `SeatVts.ReleaseTowardsGroup` | seatd/seat.c:598-624 | a release for a switch that seatd started towards a VT of the same group does not even drop DRM master; `SeatOutcomes.MasterIsKept` has the converse |
| `SeatUnbound.UnboundSeatIsServed` | seatd/seat.c:252-287 | over every run in which event sends succeed, a seat without VTs that has a member has an active client, and its members have distinct positive sessions |
| `SeatUnbound.UnboundTurn` | seatd/seat.c:801-823 | one such turn leaves it in use if it found it in use |
| `SeatUnbound.VtEventOnUnboundSeat` | seatd/seat.c:1109-1148 | for every outcome of the sends, a VT event changes the state of no client of such a seat if and only if nobody is ACTIVE or the active session has the number of the VT, or, with nobody active, there is no member or the enable message to one fails |
| `SeatUnbound.EventTakesSeat` | seatd/seat.c:1109-1148 | from the start of the daemon, the only client has the seat and a VT event takes it away, whether the message about that goes out, stays on the ring or is lost |
| `SeatOutcomes.OwnsIsHolds` | seatd/seat.c:147-167 | a client owns a VT exactly if it is its session or grouped under it |
| `SeatOutcomes.OffersSeat` | seatd/seat.c:711-756 | seat_open_client on a free seat: which VT is opened, which devices are resumed, who is told, and how all of it is undone if the message cannot be sent |
| `SeatOutcomes.GivesSeat` | seatd/seat.c:252-287 | seat_activate: a free seat goes to the queued client, else to the first member of the list that holds the current VT, on a seat without VTs to the first member, and to nobody else |
| `SeatOutcomes.ServeOutcome` | seatd/client.c:506-528 | a request whose handler fails or whose reply cannot be flushed ends with the client being destroyed |
| `SeatOutcomes.AckOutcome` | seatd/client.c:312-333 | disable_seat: DISABLED and a free seat given away for a client told to disable, an error for any other |
| `SeatOutcomes.SwitchOnVts` | seatd/seat.c:832-877 | switch_session on a VT-bound seat: the VT named is asked for if and only if the client is ACTIVE, it is positive and not current, no switch is pending and the kernel agrees; then it is the pending one; nothing else changes; when the answer is an error |
| `SeatOutcomes.SwitchWithoutVts` | seatd/seat.c:832-901 | switch_session without VTs: the member with that session is queued and the client told to disable, if there is one and it is not the client itself; when the answer is an error |
| `SeatOutcomes.OpenOutcome` | seatd/client.c:221-260 | open_device: exactly when it succeeds, the entry that counts the reference, a number that is new, and the table as it was if the descriptor cannot be duplicated |
| `SeatOutcomes.CloseOutcome` | seatd/client.c:262-287 | close_device: the entry with that number loses one reference, or an error |
| `SeatOutcomes.JoinOutcome` | seatd/client.c:163-198 | open_seat: exactly who may join and when, the session it gets (the current VT, or the least free number), its place in the list, and the seat if that is free |
| `SeatOutcomes.RemoveOutcome` | seatd/seat.c:365-418 | seat_remove_client: one close for every reference, one for every grouped VT, the seat given away if the client had it, its own VT closed unless somebody got the seat, and nothing else |
| `SeatOutcomes.CloseSeatOutcome` | seatd/client.c:200-219 | close_seat is that, and an answer |
| `SeatOutcomes.DisconnectOutcome` | seatd/client.c:103-128 | client_destroy is that, and the client forgotten |
| `SeatOutcomes.StrangerOutcome` | seatd/client.c:335-347 | anybody may ping; every other request of a client without a seat fails |
| `SeatOutcomes.EventOutcome` | seatd/seat.c:1109-1148 | a VT event: no switch is pending any more, the active client gets its DRM devices back on a VT of its own and is told to disable on any other, and a free seat is given away |
| `SeatOutcomes.ReleaseOutcome` | seatd/seat.c:930-961 | a release signal: the DRM devices of the ACTIVE client, and no others, are taken away unless the daemon is switching to a VT of that client |
| `SeatOutcomes.MasterIsKept` | seatd/seat.c:935-957 | where there is a DRM device to take away, the table stays as it is if and only if the switch is the daemon's own towards a VT of the client |
| `SeatOutcomes.AcquireOutcome` | seatd/seat.c:909-918 | an acquire signal only looks up the current VT |
| `SeatOutcomes.ControlSwitchOutcome` | seatd/seat.c:995-1023 | the control socket's switch asks for the VT it names, under the same conditions |
| `SeatOutcomes.GroupOutcome` | seatd/seat.c:1025-1079 | a VT is grouped under the first member that runs as the process, exactly if it is free and can be opened |
| `SeatOutcomes.UngroupOutcome` | seatd/seat.c:1081-1096 | the VT named is ungrouped and closed, and no other |
| `SeatOutcomes.ConnectOutcome` | seatd/client.c:77-101 | a connection is a client without a seat |
| `SeatHandover.QueueWaits` | seatd/seat.c:832-901 | whatever others do, and whatever the kernel answers: a queued client stays queued until the active one lets go |
| `SeatHandover.QueueIsServed` | seatd/seat.c:801-823 | and then it has the seat |
| `SeatHandover.SwitchReaches` | seatd/seat.c:252-261 | from the request to switch to a session, over any turns of others, to the acknowledgement: the member with that session has the seat, as long as it stayed |
| `SeatHandover.SwitchIsHonoured` | seatd/seat.c:832-901 | request and acknowledgement in a row, whatever becomes of the replies: the session asked for has the seat if and only if there is such a member |
| `DeviceTurns.CloseTakesOne` | seatd/client.c:262-287 | a served close_device lowers the references to the path of the device it names by one, leaves those to every other path, every other entry and every other client, and answers DEVICE_CLOSED |
| `DeviceTurns.CloseOfNothing` | seatd/client.c:262-287 | without such a device it changes nothing and answers an error |
| `DeviceTurns.OpenAddsOne` | seatd/client.c:221-260 | an open_device that is answered with a number adds one reference to the path it resolved to, under that number, and none to any other |
| `DeviceTurns.CloseUndoesOpen` | seatd/client.c:221-287 | closing the number an open was answered with restores the whole seat but for the log |
| `VtTurns.SwitchAsksFor` | seatd/seat.c:866-877 | a served switch_session adds an activation to the log if and only if the VT is not current, none is pending and the kernel agrees, and it is that VT's |
| `VtTurns.ControlAsksFor` | seatd/seat.c:995-1023 | so does the control socket |
| `VtTurns.TurnAsks` | seatd/seat.c:123-145 | no turn of any kind asks for a VT that it does not name |
| `VtTurns.EverySwitchWasAskedFor` | seatd/seat.c:123-145 | over every run, every activation is for a VT that some turn named |
| `SeatReplies.HandlerAnswersOnce` | seatd/client.c:163-347 | a handler that does not fail queues one reply, of a kind the library accepts for the request, to the client that asked and to nobody else; one that fails queues none |
| `SeatReplies.OneReplyPerRequest` | seatd/client.c:471-528 | over the whole turn: a request whose connection survives got exactly one reply |
| `SeatReplies.NobodyIsAnswered` | seatd/seat.c:930-1148 | a turn that serves no request queues no reply |
| `SeatDaemon.SeatObject.FindGroupVt` | seatd/seat.c:147-156 | finds the owner of a grouped VT, or that there is none |
| `SeatDaemon.SeatObject.ClientOwnsVt` | seatd/seat.c:158-167 | ownership by session or group |
| `SeatDaemon.SeatObject.FindDevice` | seatd/seat.c:423-438 | the first device with an id, never for id 0 |
| `SeatDaemon.SeatObject.FreeSession` | seatd/seat.c:336-347 | the loop that starts over on every collision ends, with the smallest unused positive session |
| `SeatDaemon.SeatObject.ActivateDevices` | seatd/seat.c:659-704 | the loop over the table activates exactly what may be activated |
| `SeatDaemon.SeatObject.DeactivateDevices` | seatd/seat.c:564-596 | the loop over the table deactivates every device the kernel lets go |
| `SeatDaemon.SeatObject.DropMaster` | seatd/seat.c:598-610 | DRM devices only |
| `SeatDaemon.SeatObject.RestoreMaster` | seatd/seat.c:612-624 | DRM devices only |
| `SeatDaemon.SeatObject.CloseDeviceAt` | seatd/seat.c:630-653 | a reference is dropped, the last one with the entry |
| `SeatDaemon.SeatObject.LookUp` | seatd/seat.c:481-496 | one loop finds the device with the path, or an id above all others |
| `SeatDaemon.SeatObject.OpenDeviceFor` | seatd/seat.c:449-555 | the table after opening a device, or why there is none; the assertion at line 458 holds |
| `SeatDaemon.SeatObject.OpenSeatFor` | seatd/seat.c:711-756 | the seat after opening it for a client, with every early return and the way back after a failed send, whether or not the message stays on the ring |
| `SeatDaemon.SeatObject.ActivateNext` | seatd/seat.c:252-287 | the loops and early returns of seat_activate, equal to the function that `SeatOutcomes.GivesSeat` is about |
| `SeatDaemon.SeatObject.DisableActive` | seatd/seat.c:763-793 | the assertion at line 771 holds; devices go first, then the state, then the message, which goes out, stays on the ring or does not get there |
| `SeatDaemon.SeatObject.AcknowledgeDisable` | seatd/seat.c:801-823 | only a client in PENDING_DISABLE; the return at line 812 is never taken |
| `SeatDaemon.SeatObject.Add` | seatd/seat.c:297-356 | who may join, and under which session |
| `SeatDaemon.SeatObject.CloseAllDevices` | seatd/seat.c:374-377 | the loop that closes the head until the table is empty ends, and logs every close |
| `SeatDaemon.SeatObject.Remove` | seatd/seat.c:365-418 | a client leaves with its devices, its groups and its place in the queue, and another is activated |
| `SeatDaemon.SeatObject.AskForVt` | seatd/seat.c:123-145 | a switch is pending exactly if the kernel took it |
| `SeatDaemon.SeatObject.RequestSession` | seatd/seat.c:832-901 | the assertion at line 839 holds; equal to the function that `SeatOutcomes.SwitchOnVts` and `SwitchWithoutVts` are about |
| `SeatDaemon.SeatObject.SwitchToVt` | seatd/seat.c:995-1023 | the switch of the control socket, refused while one is pending |
| `SeatDaemon.SeatObject.CreateGroup` | seatd/seat.c:1025-1079 | a requested or free VT is grouped unless it is taken |
| `SeatDaemon.SeatObject.DestroyGroup` | seatd/seat.c:1081-1096 | the first group with this VT goes |
| `SeatDaemon.SeatObject.OnRelease` | seatd/seat.c:930-961 | equal to the function that `SeatOutcomes.ReleaseOutcome` is about |
| `SeatDaemon.SeatObject.OnAcquire` | seatd/seat.c:909-918 | the acquire signal only looks at the current VT |
| `SeatDaemon.SeatObject.OnVtEvent` | seatd/seat.c:1109-1148 | what the new VT means for whoever is active |
| `SeatDaemon.SeatObject.OnRequest` | seatd/client.c:163-347 | each request handler, with its error replies, equal to the function that the outcomes of `SeatOutcomes` are about |
| `SeatDaemon.SeatObject.ServeOne` | seatd/client.c:471-528 | a request whose handler or flush fails costs the client its connection |
| `SeatDaemon.SeatObject.DestroyClient` | seatd/client.c:103-128 | and the seat is vacated first |
| `SeatDaemon.SeatObject.OnCreateGroup` | seatd/control.c:179-217 | a group is created for the first member with the pid |
| `Ring.TailMoves` | common/connection.c:19-21 | consuming moves the window over the bytes, also across the wrap of the counters |
| `Ring.TailReturns` | common/connection.c:23-25 | restoring moves it back |
| `Ring.WriteAppends` | common/connection.c:92-109 | a write into the free slots appends to what the ring holds and overwrites no live byte |
| `Ring.Buffer.Put` | common/connection.c:92-109 | refused exactly if there is no room, else the bytes are appended |
| `Ring.Buffer.Copy` | common/connection.c:78-88 | the first bytes in order, whether or not they lie in two pieces |
| `Ring.Buffer.Restore` | common/connection.c:23-25 | un-reads what lies behind the tail |
| `Ring.Buffer.GetIov` | common/connection.c:31-49 | the one or two slices are what the ring holds |
| `Ring.Buffer.PutIov` | common/connection.c:55-73 | the one or two slices are exactly the free slots, in order |
| `Ring.Buffer.Receive` | common/connection.c:179-213 | what the kernel writes into the free slices is appended |
| `Connection.FdsRoundTrip` | common/connection.c:114-149 | descriptors survive being stored as bytes |
| `Connection.Outgoing.Flush` | common/connection.c:215-250 | for every sequence of partial sends and failures: what was sent and what is left is what was there, each send takes as much as the kernel would, it stops only when nothing is left or the kernel refuses, the first packet takes all descriptors, and those are closed |
| `Connection.Outgoing.Put` | common/connection.c:252-266 | flushes first if there is no room, and fails only if the kernel refused or the data are longer than the ring; nothing is lost or reordered |
| `Connection.Outgoing.PutFd` | common/connection.c:268-275 | refused exactly if 64 are queued |
| `Connection.Decode` | common/connection.c:151-177 | the control messages that fit in a row are queued, and the descriptors of the first that does not and of everything after it are closed |
| `Connection.AdmitsAll` | common/connection.c:151-177 | so all are queued if and only if there is room for all; nothing is kept and closed |
| `Connection.Incoming.Read` | common/connection.c:179-213 | when a read succeeds, what it appends and that it returns the fill level; when descriptors do not fit, that the ring is as it was, and which are queued and which closed |
| `Connection.Incoming.Get` | common/connection.c:277-285 | all of the bytes or none |
| `Connection.Incoming.GetFd` | common/connection.c:287-295 | descriptors come out in order |
| `Channel.DescriptorComesFirst` | common/connection.c:215-250 | whoever has received a byte of a message has received every descriptor queued before it |
| `Channel.ClosedOrHeld` | common/connection.c:114-127 | the descriptors the sender closed and those it still holds are all it accepted, in order |
| `Channel.Pair.Put` | common/connection.c:252-266 | with any interleaving: bytes put in are bytes taken out, then those at the receiver, on the wire and at the sender |
| `Channel.Pair.Flush` | common/connection.c:215-250 | the same after any partial flush |
| `Channel.Pair.Read` | common/connection.c:179-213 | the same after a read of any size that has room for the descriptors that travel with it; without that room the bytes are lost, the ring is as it was, and each of the descriptors is queued or closed |
| `Channel.Pair.Get` | common/connection.c:277-285 | the bytes taken out continue the stream |
| `Channel.Pair.Restore` | common/connection.c:306-308 | putting back what was just taken out, or the end of it, undoes it |
| `Channel.Pair.CloseSender` | common/connection.c:297-300 | after teardown every accepted descriptor was closed exactly once |
| `Protocol.HeaderRoundTrip` | include/protocol.h:33-36 | headers survive encoding |
| `Protocol.HeaderLayout` | include/protocol.h:33-36 | two numbers of two bytes, least significant byte first |
| `Protocol.IntLayout` | include/protocol.h:43-49 | an int is its 32 bits in two's complement, least significant byte first |
| `Framing.ChunksDoNotMatter` | seatd/client.c:494-520 | what is dispatched, whether the client survives and what is left over depend on the concatenation of the chunks only |
| `Framing.DrainSplits` | seatd/client.c:494-520 | the loop on a prefix and then on the rest does what the loop on the whole does |
| `Framing.DrainTakesApart` | seatd/client.c:494-520 | of any bytes at all: one frame after the other is taken off the front, up to the first that is refused or until none is complete, and the client goes if and only if one is refused |
| `Framing.IncompleteIs` | seatd/client.c:498-510 | the loop waits for more exactly if no frame begins and ends in what is there |
| `Framing.EveryFrameIsDispatched` | seatd/client.c:349-443 | a stream of well-formed requests is dispatched request by request with nothing left over |
| `Framing.RingHasRoom` | common/connection.c:179-183 | when the loop stops, the ring has room for another read unless the frame at its front is longer than the ring, and then it never completes |
| `Framing.DispatchedAreSmall` | seatd/client.c:506-516 | no payload that is dispatched is longer than 252 bytes |
| `Framing.LongestPath` | libseat/backend/seatd.c:527-542 | an open_device request fits the ring exactly for paths of up to 250 bytes with the NUL |
| `Framing.TakePayload` | seatd/client.c:349-443 | a request passes exactly if its payload has the shape its opcode calls for, and then exactly the payload was taken off the ring |
| `Framing.CheckTerminated` | seatd/client.c:388-391 | exactly one NUL, at the end |
| `Framing.HandleReadable` | seatd/client.c:494-520 | the loop on the ring does what the loop on the sequence of bytes does |
| `Requests.RequestRoundTrip` | seatd/client.c:349-443 | the daemon accepts what the library sends for a call and takes it for that call, with its path or its number |
| `Requests.FrameRoundTrip` | libseat/backend/seatd.c:521-661 | every frame the daemon accepts is one that the library sends for some call |
| `Requests.DrainDispatches` | seatd/client.c:494-520 | from any prefix of a stream of requests the loop dispatches an initial segment: all that are complete, unless one is refused |
| `Requests.SentIsServed` | seatd/client.c:494-520 | whatever part of what the library sent has arrived, in whatever pieces: the daemon has served an initial segment of the requests in order, each as what it was, less than a request is left over, and the client is disconnected exactly over one whose handler fails; where the pieces fit the ring, every request it served is one that can be complete there |
| `Requests.ServedAreSmall` | common/connection.c:215-250 | of pieces that fit the ring, no frame longer than the ring is ever served |
| `Libseat.ExactlyOnce` | libseat/backend/seatd.c:188-229 | an event that was read is pending, on the list of a running call, executed or dropped: in one of these, once |
| `Libseat.ScanConserves` | libseat/backend/seatd.c:231-269 | read_and_queue loses and duplicates no event |
| `Libseat.ScanReadsAll` | libseat/backend/seatd.c:231-269 | without a reply to wait for it reads everything that is complete, or fails |
| `Libseat.ReplyOnlyReads` | libseat/backend/seatd.c:155-186 | reading a reply touches nothing but the ring unless it fails |
| `Libseat.BatchOrder` | libseat/backend/seatd.c:188-229 | a batch runs in the reverse order of its arrival, which for alternating events is the same exactly if their number is odd or zero |
| `CallOutcomes.ScanOutcome` | libseat/backend/seatd.c:231-269 | read_and_queue on any bytes: pongs and events are taken off the front, events queued newest first, up to the first other header, and what is said of that |
| `CallOutcomes.PollOutcome` | libseat/backend/seatd.c:271-301 | exactly which polls are an error state, which are given up over, and what the others add to the ring |
| `CallOutcomes.AwaitOutcome` | libseat/backend/seatd.c:303-322 | for any sequence of polls: the wait ends at the first complete reply or the first poll that ends it, and how |
| `CallOutcomes.HeaderRead` | libseat/backend/seatd.c:155-186 | read_header on any bytes: the expected header, a whole error, or a broken connection |
| `CallOutcomes.ReplyOutcome` | libseat/backend/seatd.c:521-661 | a reply is accepted if and only if it is a whole frame of the right kind and size, with its descriptor; a whole error is one; anything else breaks the connection |
| `CallOutcomes.NameOutcome` | libseat/backend/seatd.c:420-433 | a seat name ends with its only NUL, or has none and room for one |
| `CallOutcomes.CheckOutcome` | libseat/backend/seatd.c:499-519 | a ping goes out exactly if events are pending and no pong is awaited; if it cannot, the connection fails |
| `CallOutcomes.OpenSeatOutcome` | libseat/backend/seatd.c:375-443 | _open_seat succeeds if and only if the right reply came; anything else but a wait that goes on ends the backend |
| `CallOutcomes.HalfOutcome` | libseat/backend/seatd.c:336-342 | half a dispatch counts the messages it took and the events it ran, and fails exactly at anything else |
| `CallOutcomes.BetweenOutcome` | libseat/backend/seatd.c:344-360 | what the read between the halves adds, and exactly when it is an error state |
| `CallOutcomes.DispatchOutcome` | libseat/backend/seatd.c:344-360 | who has been served, or does not want to wait, does not notice a hangup; everybody else fails |
| `Listeners.CallGoesOn` | libseat/backend/seatd.c:521-661 | every synchronous call leaves the lists of running execute_events as they are, loses and duplicates no event, and does not leave the error state |
| `Listeners.RunsNext` | libseat/backend/seatd.c:200-229 | running the next event keeps what execute_events has done so far in order |
| `Listeners.RunsDone` | libseat/backend/seatd.c:200-229 | when the list is empty, every event that was pending was run, in list order |
| `Listeners.EventsGoOn` | libseat/backend/seatd.c:200-229 | whatever the listener does with the backend on each event, nested dispatches included: every pending event is run once, in list order, no event is lost or duplicated, and the lists of outer calls are kept |
| `Listeners.DispatchGoesOn` | libseat/backend/seatd.c:329-373 | so it is over a whole dispatch |
| `Listeners.QuietDispatch` | libseat/backend/seatd.c:329-373 | with a listener that does not call back, a dispatch that succeeds leaves neither an event nor a complete message behind |
| `Listeners.UsesGoOn` | libseat/backend/seatd.c:200-229 | any sequence of calls and dispatches a listener makes keeps the list of the execute_events that called it |
| `Listeners.ClosedForGood` | libseat/backend/seatd.c:454-482 | close_seat runs the events that are pending, in order, whatever the listener does, drops the rest and leaves the backend unusable |
| `Backend.BackendSeatd.DropEvents` | libseat/backend/seatd.c:84-94 | every pending event is dropped, once |
| `Backend.BackendSeatd.Fail` | libseat/backend/seatd.c:106-115 | the error state is entered once |
| `Backend.BackendSeatd.Scan` | libseat/backend/seatd.c:231-269 | the loop over the ring, with the header put back where it stops |
| `Backend.BackendSeatd.PollConnection` | libseat/backend/seatd.c:271-301 | which failures are error states and which are not |
| `Backend.BackendSeatd.AwaitReply` | libseat/backend/seatd.c:303-322 | for every sequence of polls: answered, still waiting, given up or failed |
| `Backend.BackendSeatd.TakeHeader` | libseat/backend/seatd.c:155-186 | an expected reply, an error reply, or a failure |
| `Backend.BackendSeatd.TakeName` | libseat/backend/seatd.c:401-433 | the name of the seat, with or without its NUL |
| `Backend.BackendSeatd.CheckPendingEvents` | libseat/backend/seatd.c:499-519 | a ping goes out exactly if events are pending and no pong is awaited |
| `Backend.BackendSeatd.Call` | libseat/backend/seatd.c:521-661 | the synchronous functions as the composition of these, with the device id that was read and the descriptor that was received |
| `Backend.BackendSeatd.OpenSeat` | libseat/backend/seatd.c:375-443 | _open_seat: the wait, the reply and its name, then the pending events with listeners that call back, or a destroyed backend; exactly `WithSeat` and then `AfterEvents` |
| `Backend.BackendSeatd.CloseSeat` | libseat/backend/seatd.c:454-482 | close_seat, whatever comes of the call: exactly `WithoutSeat`, then `AfterEvents`, then the error state with nothing pending |
| `Backend.BackendSeatd.ExecuteEvents` | libseat/backend/seatd.c:200-229 | for every behaviour of the listener, nested dispatches included: the state is `AfterEvents` of the state before, and the events that were pending are counted |
| `Backend.BackendSeatd.React` | libseat/backend/seatd.c:200-229 | any sequence of calls and dispatches a listener makes comes to `AfterUses` |
| `Backend.BackendSeatd.Dispatch` | libseat/backend/seatd.c:329-373 | with listeners that call back in either half: the state and the count are those of `AfterDispatch` |
| `Letters.ScanTakes` | libseat/backend/seatd.c:231-269 | on any prefix of what the daemon sent, read_and_queue takes in the letters up to the first reply, or as many as are complete, and fails only at a reply it did not want |
| `Letters.OwnReplyFits` | libseat/backend/seatd.c:521-661 | the reply the daemon produces for a request is read completely and accepted by the function behind the request, and open_device returns the id the daemon gave the device |
| `Letters.DeviceReplyFits` | libseat/backend/seatd.c:546-554 | a call takes a descriptor exactly if the reply it read brought one |
| `Letters.AnyReplyFits` | libseat/backend/seatd.c:155-186 | any other reply is read completely too, or puts the backend into its error state |
| `Mailing.TurnPosts` | seatd/client.c:471-528 | what a turn of the daemon adds for one client: one reply of the right kind for a served request, else none |
| `Talk.ActSound` | libseat/backend/seatd.c:200-661 | every step of the library or the daemon keeps the books: bytes, descriptors, debts, pings, events |
| `Talk.ReadTight` | libseat/backend/seatd.c:231-269 | read_and_queue keeps them and stops where it should |
| `Talk.DescriptorIsThere` | common/connection.c:215-250 | where descriptors arrive with the bytes of their replies, which `Carriage.ReadIsArrival` derives from the two ends of a connection: when a device reply is complete on the ring, the oldest descriptor received is the one that was opened for its request |
| `Carriage.QueuedBeforeReply` | seatd/client.c:240-255 | a descriptor put before its reply is stamped with the place where the reply begins |
| `Carriage.BegunHasArrived` | common/connection.c:215-250 | over every flow of a connection, there are at least as many descriptors at the receiver as device replies of which a byte has arrived |
| `Carriage.ReadIsArrival` | common/connection.c:215-250 | hence what the library has after a read of any size is an arrival as `Talk` takes it |
| `Talk.ConsumeTight` | libseat/backend/seatd.c:546-554 | so does reading a reply, unless it fails |
| `Talk.CheckTight` | libseat/backend/seatd.c:499-519 | after check_pending_events nothing complete is left, and pending events have a ping under way |
| `Session.StepConsistent` | libseat/backend/seatd.c:521-661 | the library and the daemon stay consistent with each other whatever either does next |
| `Session.RepliesMatch` | libseat/backend/seatd.c:303-322 | where no call gave up: between calls no unexpected reply is ever met, and the reply a call finds, wherever reads cut the stream, was produced for this very call, has its own device id and descriptor if it brings them, is accepted, and is the only one |
| `Session.WhoseReply` | libseat/backend/seatd.c:316-319 | in any run, a call reads the reply produced for itself if and only if no other reply is owed |
| `Session.PingBalance` | libseat/backend/seatd.c:488-519 | outside the error state, pings sent minus pongs read is 0 or 1, is awaiting_pong, and is what is under way while the daemon knows the client |
| `Session.CallSettles` | libseat/backend/seatd.c:546-661 | every device, session or disable call that gets its reply checks for pending events |
| `Session.NoLostWakeup` | libseat/backend/seatd.c:506-518 | after such a call, outside the error state, less than a header is on the ring, and either nothing is pending or exactly one ping is unanswered, whose answer is yet to be produced or yet to arrive |
| `Session.EventsRunOnce` | libseat/backend/seatd.c:200-229 | over every run, with listeners that call back, each event read is executed at most once, and is executed, pending or dropped by an error; outside the error state the events read are a prefix of those sent |
| `Session.ExecutionOrder` | libseat/backend/seatd.c:196-206 | over every run, the next batch runs newest first |
| `Session.ToldByDaemon` | seatd/client.c:445-469 | the events in question are those the seat machine put on the ring of this client, failed sends that left them there included |
| `SessionOrder.ToldAsSent` | seatd/client.c:445-469 | over every run, they are those the daemon takes for sent if and only if no failed send left one on the ring |
| `SessionOrder.RightOrder` | libseat/backend/seatd.c:196-206 | from the start of the daemon, in every run in which no turn misleads the client: the events it is told alternate, and the pending ones are run in the order in which they were sent if and only if their number is odd or zero |
| `TalkCalls.AwaitIsRun` | libseat/backend/seatd.c:303-322 | for every sequence of polls, with the daemon posting while the library waits: the wait for a reply is a run of the steps, with the same outcome and the same state |
| `TalkCalls.WaitIsRun` | libseat/backend/seatd.c:303-322 | with the request before it |
| `TalkCalls.CallIsRun` | libseat/backend/seatd.c:521-661 | hence so is every synchronous call, with what it leaves of the ring, the events and the descriptors |
| `TalkCalls.HalfIsRun` | libseat/backend/seatd.c:336-367 | so is either half of dispatch, with listeners that call back and dispatch in turn: the local lists of the code are the stack of lists |
| `TalkCalls.ListIsRun` | libseat/backend/seatd.c:200-229 | so is the loop of execute_events, whatever its listener does |
| `TalkCalls.UsesAreRun` | libseat/backend/seatd.c:200-229 | so is what a listener does, with the daemon posting in between |
| `TalkCalls.DispatchIsRun` | libseat/backend/seatd.c:329-373 | so is a whole dispatch, with either kind of read between its halves |
| `TalkCalls.UsesAreSound` | libseat/backend/seatd.c:200-229 | hence the books of the connection, which all results about runs rest on, stay in order whatever an application and its listeners do with the backend |
| `TalkCalls.QuietLives` | libseat/backend/seatd.c:200-229 | listeners that do not call back can always go on |
| `TalkCalls.OpenSeatIsRun` | libseat/backend/seatd.c:375-443 | so is _open_seat with such listeners, whatever comes of it |
| `TalkEdges.OpenSeatLeaves` | libseat/backend/seatd.c:401-436 | open_seat leaves everything behind its reply on the ring; so a message is left there if and only if a header had arrived behind the reply |
| `TalkEdges.OpenSeatPosts` | seatd/client.c:163-201 | a turn that opens the seat for a client and keeps the client posts the reply and, exactly if the seat is free, its VT opens and the message gets onto the ring, an enable message behind it |
| `TalkEdges.EventLeftBehind` | libseat/backend/seatd.c:401-436 | from every fresh connection to a seat that is free there is a run of library and daemon in which that message stays on the ring with nothing on its way |
| `TalkEdges.GivingUpMixesReplies` | libseat/backend/seatd.c:316-319 | from any state with the seat and nothing under way there is a run in which an open_device that follows one that gave up accepts the other's reply and the other's descriptor |
| `TalkEdges.ConfusionHappens` | libseat/backend/seatd.c:316-319 | such a run from the start of the daemon, with any device |
| `TalkEdges.WrongOrderHappens` | libseat/backend/seatd.c:196-206 | a run from the connection of the only client on: it opens the seat, a VT event takes the seat away, an open_device is refused, and then the disable event is pending in front of the enable event that was sent before it |
| `Poller.PollLoop.AddFd` | seatd/poller.c:118-134 | fd_event_sources is 1 plus the number of sources not destroyed, every index a source has is that of its own pollfd, and the list is what the history of additions, updates and destructions says |
| `Poller.PollLoop.Kill` | seatd/poller.c:136-143 | the same after a destruction |
| `Poller.PollLoop.ChangeMask` | seatd/poller.c:145-151 | the same after an update |
| `Poller.PollLoop.Rebuild` | seatd/poller.c:242-263 | exactly the sources that are not destroyed stay, in order, and both index assertions hold |
| `Poller.PollLoop.Regenerate` | seatd/poller.c:231-276 | afterwards the array lists the signal pipe, to be read, and exactly the live sources, in order, with their descriptors and, bit by bit, the conditions they asked for |
| `Poller.PollLoop.Dispatch` | seatd/poller.c:278-308 | with callbacks adding, updating and destroying at will: only sources that were polled and are ready are called, with their own descriptor and what the kernel said, in order, each once, none after its destruction, and one that was due and was not called is destroyed; signal handlers run exactly if the pipe is readable |
| `Poller.PollLoop.Poll` | seatd/poller.c:310-327 | the whole turn: the sources polled are exactly those added and not destroyed, each for the conditions it asked for last; who was called, and with which conditions |
| `Poller.PollLoop.Perform` | seatd/poller.c:118-151 | what each act of a callback leaves in the history |
| `Poller.RegisteredSet` | seatd/poller.c:118-151 | the list stays what the history says |
| `Poller.RegisteredLive` | seatd/poller.c:242-263 | also when the destroyed sources are dropped |
| `Poller.KilledOk` | seatd/poller.c:136-143 | destroying a source lowers the count by one and keeps it from ever being called |
| `Poller.CalledOk` | seatd/poller.c:295-307 | a callback runs for a live source with its own descriptor, and the history stays right |
| `Poller.RebuiltOk` | seatd/poller.c:231-276 | dropping the destroyed sources makes the cache agree |
| `Poller.FollowsOn` | seatd/poller.c:118-151 | however often callbacks change the list, the sources that were there stay in place and new ones are not polled |
| `LinkedList.Init` | common/linked_list.c:7-10 | a list of its own |
| `LinkedList.Insert` | common/linked_list.c:12-20 | the element comes right behind its anchor, and next and prev stay inverse |
| `LinkedList.Remove` | common/linked_list.c:22-29 | exactly one element leaves, and is unlinked |
| `LinkedList.Empty` | common/linked_list.c:31-34 | whether there is an element |
| `LinkedList.Take` | common/linked_list.c:36-46 | the target holds source then target, the source nothing |
| `LinkedList.Sweep` | seatd/poller.c:248-273 | stepping back and removing visits every element once and keeps exactly those not killed, in order |
| `LinkedList.KeptIs` | seatd/poller.c:248-273 | what is kept are all those not killed, and in their order |
| `TtyPath.GetTtyPath` | common/terminal.c:39-133 | within the 16 characters: the name of the VT, that is the prefix and the digits, and a NUL; it fails exactly from 2^30 on |
| `TtyPath.DigitsValue` | common/terminal.c:106-120 | the digits read in base 32 are the number |
| `TtyPath.PathsDiffer` | common/terminal.c:74-76 | different VTs from 1 on have different paths |
| `TtyPath.PutDigits` | common/terminal.c:106-120 | the digit loop writes them lowest first, as long as there is room |
| `TtyPath.Reverse` | common/terminal.c:122-129 | the second loop reverses them in place |

## Left out

- The kernel: terminal ioctls, revoke, realpath, open, poll, sendmsg and recvmsg are answers a caller of the model chooses. A send that succeeds is taken to send at least one byte, and descriptors to arrive with the first byte of their send.
- An event whose send fails stays on the ring or does not get there, as the model is told; a reply that cannot be put or flushed completely is taken to be delivered or not. In the code a part of it may be delivered, such as a header whose payload finds no room behind it; the client is disconnected with it either way.
- Memory allocation failures and the values of errno.
- `libseat/backend/logind.c`, `noop.c`, `libseat/libseat.c`, `seatd/seatd.c` and seatd-launch: wrappers, plumbing and start-up code.
- There is one seat; the loops over the list of seats are not modelled, and neither are `seat_destroy` and `server_finish`.
- The framing of the control socket and its replies: a request of the wrong size is not consumed and a successful destroy is not answered, so neither alignment nor one reply per request holds there. The effects of control requests on the seat are modelled.
- Uniqueness of sessions on VT-bound seats: the check runs only while a client is active, so it is not an invariant of the code.
- The balance of opened and closed VTs: removing a client while another is activated skips closing its VT.
- Signal sources of the poller: what their handlers do is modelled, the list of them and the restoring of default handlers are not.
- The sending half of the client library's connection is not joined to `Connection.Outgoing`; whether a request went out is an answer a caller of the model chooses.
- The masking of ring indices is written as a remainder by 256, and device ids do not wrap.
- Numbers travel in the byte order of the machine; the model has the least significant byte first.
- Session.RepliesMatch: taken for runs in which no call gave up; `Session.WhoseReply` has the exact condition for the others.
- Session.NoLostWakeup: taken for the calls that check for pending events; `TalkEdges.OpenSeatLeaves` has what open_seat does.
- SeatDevices.DrmAuthority: taken for runs without the events that `SeatDevices.DrmAuthorityTurn` names.
- SeatCycle.EveryClientTakesTurns: taken for runs in which event sends succeed; a failed send leaves a gap in the history.
- `close_seat` is not shown to be a run of `Talk`: it looks for its reply even where the wait for it failed, and nothing is left to keep afterwards. It is taken not to be called from a listener, because it frees what the caller still uses; a listener that destroys a source of the poller is taken to do so once.
