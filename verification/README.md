# Chat server lobby: model and proofs

`ken/server.go` is a chat server. One goroutine, the lobby, handles lines typed by clients, clients that
connect and leave, and deletion timers of chat rooms. Clients and rooms point at each other, a room replays
its history to whoever joins it, rooms die after a week without activity, a room's name may be used again,
and every client has a channel that must not be sent to once it is closed. This project models that server
in Dafny and proves what its state, its runs and its goroutines keep.

The layers, from the pointers up:

- `Server.dfy`: the objects `Client`, `ChatRoom` and `Lobby` with their fields and back-pointers, and the
  methods with their loops. `Lobby.Abs()` reads a value of the lobby model off the objects; every method is
  proved to do to the objects exactly what the model does to its state, and every turn of the loop keeps
  `Lobby.Valid()`: what the objects represent is a state of some run. The lists of clients are slices over
  backing arrays, as in Go (`Slices.dfy`): appending writes into spare capacity or moves to a larger array,
  removal shifts within the array, and `Lobby.Backed()` says that no two slices share an array.
- `LobbyModel.dfy`: the lobby's state as a value, its handlers as functions, and its six events. A room and
  a timer have an identity apart from the room's name. `out` is everything the lobby ever sent, in order;
  each text of a room carries the room and the number of the client's visit. `visits`, `created`, `stamps`
  and `firings` only record the past.
- `Commands.dfy` and `GoStrings.dfy`: the command syntax, over all strings.
- `Membership.dfy` (who is where), `Transcripts.dfy` (who was sent what) and `Expiry.dfy` (timers and expiry
  times): the three parts of the invariant and what follows from each.
- `Invariant.dfy`: every event keeps the whole invariant and only ever extends the past.
- `Runs.dfy`: properties of any number of events in any order. `Deletion.dfy`: when rooms are deleted and how
  often timers fire in a run, stated by the events of the run; only the bound on how late a room can be
  (`Deletion.ExpiredRoomsAreGone`) uses the records kept in the model.
- `Outcomes.dfy`: what each event leaves behind, for every client, every room, the name map, the lobby's list
  and the timers, read off the state before it; and, for whole runs, whose connection was closed, who is called
  what, and where each message in a history comes from.
- `Goroutines.dfy` and `Progress.dfy`: reader, forwarder, writer, timers and lobby loop as small steps over
  unbuffered channels, under every interleaving. `Audiences.dfy`: what each event makes the lobby send to each
  client. `Blocking.dfy`: which events therefore block the lobby, when connections have failed or were closed
  by the server. `Settling.dfy`: the server comes to a stop, with nothing owed unless it is blocked.
  `Endings.dfy`: which clients the server can be rid of. `Witnesses.dfy`: executions that end badly.
  `EndToEnd.dfy`: what the goroutines carry out is, move by event, a run of the lobby, so that the properties
  of runs hold under every interleaving; and what reaches a member's connection is the history of the room.
  `Handover.dfy`: the lines the lobby handles are those the client sent, in order, with the times of reading.

Four results say where the server does less than one might hope, each with the exact condition:

- A room can outlive its expiry, because the first timer sleeps for `EXPIRY_TIME` from the moment its
  goroutine is scheduled, not from the room's creation. `Expiry.PromptIff` gives the condition under which
  no room is late, `Deletion.ExpiredRoomsAreGone` bounds the delay, `Runs.LateStartLeavesExpiredRoom` is a
  run with a late room.
- A client can block the lobby for good, because its writer gives up after a failed write and the lobby's next
  send to it waits for ever. A write fails when the connection is lost, and also after `/q`, on which the
  server closes the connection itself: a text handed over before may still be written, one handed over later
  cannot. So a writer that gave up, or holds a late text, takes no more; one whose connection the server has
  closed takes one more; any other takes as many as there are. When the lobby takes up an event, some
  continuation brings it back to its `select` if and only if the event has not more texts for anybody than
  that client's writer can take (`Blocking.TurnReturnsIff`); the number of texts is known before the event
  (`Audiences.TextsSent`). No schedule of the server's own steps blocks it if and only if the same holds with
  the present write of a closed connection counted as failing (`Blocking.TurnNeverBlocksIff`). A member that
  takes no more freezes its room: nobody leaves or enters and nothing is said there any more
  (`Blocking.LostMemberFreezesRoom`). `Witnesses.LostConnectionBlocks` and `Witnesses.QuitThenHelpBlocks`,
  where a client sends `/q` and `/h` at once, are such executions.
- The server is not rid of every client. As long as the lobby is not blocked, a client without a line on its
  way can come to its end, goroutines returned and channel closed, if and only if it was not refused and no
  member of its room is short of room for a notice (`Endings.EndsIff`). Nobody closes the channel of a refused
  client or takes the line it sent; `Witnesses.TurnedAwayForever` is an execution with one.
- A room created by `/c` without a space has the command in its name, and can be joined only by a line that
  has the space (`Commands.SpacelessRoomReachable`).

The comment above `Lobby.DeleteChatRoom` says that a room that is not expired gets a new expiry time; the
code only starts a new timer. The model follows the code.

## Model

| member | source | states |
|---|---|---|
| GoStrings.ReadYieldsNextLine | ken/server.go:366-374 | One read with its newline trim yields the next complete line of the stream, without a newline and with nothing lost; a read fails exactly when no complete line is left. |
| Commands.OnlyOverlap | ken/server.go:236-254 | Two different cases of the switch match the same line only if they are `/leave` and `/l`. |
| Commands.SourceOrderIsClassify | ken/server.go:236-254 | For every line, trying the cases one after the other as they are written, the default last, gives the command the model dispatches to. |
| Commands.OrderMatters | ken/server.go:236-254 | Any arrangement of the seven cases dispatches every line like the source if and only if `/leave` is tried before `/l`. |
| Commands.DispatchTable | ken/server.go:236-254 | Which lines are which command, by their first characters: `/c`, `/leave`, `/l` otherwise, `/j`, `/n`, `/h`, `/q`; every other line is a message. |
| Commands.NamesHaveNoNewline | ken/server.go:239-248 | A line without a newline creates or asks for no room with a newline in its name. |
| Commands.JoinLineNamesRoom | ken/server.go:246-248 | `/j`, a space and any newline-free name, the empty one included, asks for exactly that name. |
| Commands.SpacedArgument | ken/server.go:240 | What follows a command and one space is its argument, without the newline a line may end in. |
| Commands.CreateLineNamesRoom | ken/server.go:239-241 | `/c`, a space and any newline-free name asks to create exactly that name. |
| Commands.RenameLineNames | ken/server.go:249-251 | `/n`, a space and any newline-free name renames to exactly that name; without the space the whole line becomes the name. |
| Commands.SpacelessJoin | ken/server.go:246-248 | `/j` followed by anything but a space asks for a room whose name starts with the command itself. |
| Commands.SpacelessCreate | ken/things to test.txt:2 | `/c` followed by anything but a space creates a room whose name starts with the command itself. |
| Commands.SpacelessRoomReachable | ken/things to test.txt:2-3 | Of all lines that start with `/j`, exactly the one with the space and the full name asks for a room named `/c...`; no spaceless one does. |
| Membership.RemoveFirstAt | ken/server.go:309-314 | Cutting out position `i` of a list is removal of its first equal element, and keeps the order of the others. |
| Membership.Conservation | ken/server.go:122-150 | The sizes of the live rooms and the number of clients in no room add up to the length of the lobby's list, which never exceeds the limit; live rooms share no member, and all members are in the list. |
| Membership.FireAgreement | ken/server.go:153-165 | Handling a timer keeps list, back-pointers, room lists and name map in agreement, whether the room is kept or deleted. |
| Membership.EveryLiveRoomJoinable | ken/server.go:188-199 | For every key of the map, the line `/j `, followed by the key, takes any attached client into exactly that room as its last member, once, also when it is in the room already. |
| Runs.MembersSeeHistory | ken/server.go:297-325 | In every reachable state, what each member of a live room was sent during its current visit is exactly the room's history, so all members have seen the same whenever they joined. |
| Transcripts.BroadcastDeliveries | ken/server.go:319-325 | A broadcast keeps every transcript faithful: prefix of history for past visits, whole history for the current ones, later visits extend earlier ones. |
| Transcripts.EnterDeliveries | ken/server.go:297-302 | Setting the back-pointer, replaying the history and appending the member keeps every transcript faithful. |
| Deletion.OneTimerInRun | ken/server.go:153-182 | In every reachable state a room is live if and only if a pending timer belongs to it, and no two timers belong to one room. |
| Deletion.ExpiryIsLastTouch | ken/server.go:223-231 | In every reachable state a room's expiry is `EXPIRY_TIME` after the last event of the run that opened the room or added to its history. |
| Deletion.DeletedExactlyWhenIdle | ken/server.go:153-165 | When a timer is handled, its room's name still leads to that room, and the room is deleted if and only if every event that opened it or added to its history lies at least `EXPIRY_TIME` back. Nothing else deletes or revives a room. |
| Deletion.ExpiredRoomsAreGone | ken/server.go:153-179 | In every reachable state in which all timers are started and none is due, a live room is past its expiry only if its first timer was started late, and by less than it was late. |
| Expiry.PromptIff | ken/server.go:153-179 | Until its timer goes off a room never outstays its expiry, if and only if the timer is not the room's first or was started no later than the last activity. |
| Deletion.FiringsApart | ken/server.go:153-160 | Of any three firings of one room's timers in a run, the last comes at least `EXPIRY_TIME` after the first, however late timers are handled. |
| Deletion.RenewalNeedsActivity | ken/server.go:153-160 | If a room outlives two firings, something was added to its history between them; without activity the next firing deletes it. |
| Deletion.FiringsBounded | ken/server.go:153-179 | From the event that opened it on, a room causes at most two firings per `EXPIRY_TIME`, and at most one per text of its history. |
| Deletion.FiringsRecorded | ken/server.go:153-165 | The firings recorded in a room are exactly those of its timers in the run, with their times. |
| Expiry.FireTiming | ken/server.go:153-165 | Handling a timer keeps the expiry protocol: one sound timer per live room, none for a dead one. |
| Invariant.StepKeepsInv | ken/server.go:104-119 | Every event of the loop keeps membership, transcripts and timing; it takes back no send, changes no dead room, adds nothing to a completed visit, and sends only to open channels. |
| Invariant.FireHeard | ken/server.go:329-335 | Deleting a room tells each member so, once, as the last text of its visit, and puts it back in the lobby; everybody else hears nothing. |
| Invariant.ParseActs | ken/server.go:235-257 | A line keeps the invariant, extends the past, and everybody but its sender hears exactly what was added to their own room's history. |
| Invariant.LeaveActs | ken/server.go:138-150 | A departure does the same: everybody else hears exactly what was added to their own room's history. |
| Invariant.JoinActs | ken/server.go:122-135 | So does an arrival, admitted or refused. |
| Runs.RunKeepsInv | ken/server.go:104-119 | The invariant holds in every state of every run. |
| Runs.RunAdvances | ken/server.go:104-119 | Between any two states of a run, nothing sent, said, left or deleted is undone. |
| Runs.NothingAfterClose | ken/server.go:137-150 | Once a client's channel is closed, no later handler of any run sends to it, and the client is neither parsed nor closed again. |
| Runs.ClosedOnceByDeparture | ken/server.go:137-150 | A channel is closed if and only if its client departed before; a client departs at most once. |
| Runs.DeadRoomsStayDead | ken/server.go:329-335 | A room that is dead once stays as it was for ever: no new text, no member entering, no name, no back-pointer and no timer leads to it. |
| Runs.NewRoomsAreNew | ken/server.go:168-182 | A room opened later is another room, even under the same name. |
| Runs.VisitPrefixLaw | ken/server.go:297-335 | What a completed visit saw never changes, is a prefix of the room's history from then on, and of what any later visit of the client to the same room sees. |
| Runs.VisitEnd | ken/server.go:188-210 | Whatever ends a visit (leaving, switching, rejoining the same room, disconnecting, deletion), the visit saw the room's whole history and then the client's own notice or the deletion notice, which are the history at that point. |
| Runs.DepartureHeard | ken/server.go:138-150 | When a client departs, each other member of its room is sent the notice of leaving, once and as the last entry of the history; nobody else is sent anything. |
| Runs.Bystander | ken/server.go:307-335 | In every event a client that did not cause it hears exactly the texts added to its room's history, once each, in order, and nothing when it is in no room. |
| Runs.OtherRoomsUntouched | ken/server.go:188-199 | An event leaves members, history and expiry of every room alone, except those its client leaves or enters and the one whose timer fired. |
| Runs.NoEffectIff | ken/server.go:168-213 | A line leaves clients, rooms, names and timers as they were if and only if it asks for a list or help, is turned down (name taken, name unknown, no room to leave or to speak in) or renames or hangs up what is already so; then only the matching answer is sent, to the client alone. |
| Runs.ExpiryIsLastActivity | ken/server.go:223-231 | In every reachable state a room's expiry is `EXPIRY_TIME` after its last history entry, or its creation if it has none; it never moves back. |
| Runs.LateStartLeavesExpiredRoom | ken/server.go:176-179 | A run in which the first timer starts one nanosecond late and an expired room is still there with no timer due. |
| Outcomes.LineClients | ken/server.go:235-279 | After any line of any client: a name changes for the sender of `/n` only, to the argument; the room for the sender of `/leave` and of a `/j` with a known name only, to none and to the room the name leads to; the connection is closed for the sender of `/q` only. Nobody else's record changes. |
| Outcomes.LineRooms | ken/server.go:188-210 | After any line, every room has the history it had and then exactly the notices or the message the line calls for, in order, and the members it had without the sender if it left and with the sender at the end if it entered. |
| Outcomes.LineNames | ken/server.go:168-182 | A room is opened only by a line that asks to create it under a free name; the key is exactly that name, every other key stays, and the new room bears that name and has no members and no history. |
| Outcomes.CreatedRoomJoinable | ken/server.go:168-199 | `/c ` and a free newline-free name, then `/j ` and the name from any attached client: the client is in the new room of that name, as its only member, and the history is the notice of its joining. |
| Outcomes.ArrivalOutcome | ken/server.go:122-128 | A client that arrives has the default name and no room; it is refused and its connection closed if and only if the lobby has ten clients, and otherwise is the last in the lobby's list. |
| Outcomes.OtherOutcome | ken/server.go:138-165 | Events other than lines change nobody's name, visits or connection; only a departing client becomes detached, and only it and the members of a deleted room lose their room. |
| Outcomes.EventAdds | ken/server.go:260-335 | Every event adds to the history of every room exactly the texts read off the event and the state before it. |
| Outcomes.ListOutcome | ken/server.go:122-147 | The lobby's list gains an admitted client at its end and loses a departing one, keeping the order; no other event changes it. |
| Outcomes.TimersOutcome | ken/server.go:153-179 | Timers come with a new room and in place of one handled for a room not yet expired, and nowhere else; a room's first sleeps for `EXPIRY_TIME`, a later one until the expiry. |
| Outcomes.NamedByLastRename | ken/server.go:271-279 | In every reachable state a client is called what its last `/n` line in the run said, and `new_user` if it sent none. |
| Outcomes.RefusedIff | ken/server.go:122-126 | In every reachable state a client is refused if and only if it arrived in the run when the lobby had ten clients or more. |
| Outcomes.HungUpIff | ken/server.go:397-400 | In every reachable state the server has closed a client's connection if and only if the client was refused or a `/q` line of it was handled. |
| Outcomes.SaidComesFrom | ken/server.go:260-268 | In every reachable state, whatever is said in a room was a chat line of a client that was in that room, under the name it had then and with the time and the line of its message. |
| Goroutines.OffersAreEnabled | ken/server.go:104-135 | Whatever the channels offer to the lobby in a sound state is an event the lobby can handle. |
| Goroutines.MoveKeepsSound | ken/server.go:104-135 | Every step of every goroutine keeps the lobby's invariant and the agreement of program counters, channels and logs. |
| Goroutines.ExecutionSound | ken/server.go:104-119 | Every state of every interleaving is sound. |
| Goroutines.NeverPanics | ken/server.go:148 | No interleaving makes the lobby send on a closed channel or close one twice. |
| Goroutines.ParsedInOrder | ken/server.go:129-134 | The record of what was parsed of a client is, in order, the first lines of its stream, none skipped or repeated; the departure is offered only after all that was read is in it. That the record is what the lobby's events carry is `Handover.ReceivedIsParsed`. |
| Goroutines.RefusedNeverHeard | ken/server.go:122-126 | A client that was refused or not yet admitted is never parsed and never departs. |
| Goroutines.WrittenInOrder | ken/server.go:381-395 | What was written to a connection is a prefix of what the lobby sent to that client; between two events it lacks at most the text being written, unless the connection failed. |
| Progress.NoCircularWait | ken/server.go:104-135 | No chain of goroutines, each blocked on the next, closes into a circle. |
| Progress.NoDeadlock | ken/server.go:366-395 | Unless the lobby is just about to send to a writer that gave up, whenever the server owes a step, one of its own goroutines can take a step, whatever other connections have failed or been closed. |
| Settling.StepDescends | ken/server.go:104-135 | Every step of the server's own goroutines, failing writes and reads on closed connections included, leaves less to do: connections to close, events, timers, sends, or steps within one client, in this order. |
| Settling.OwnStepsStop | ken/server.go:104-135 | Without the network and the clock no schedule goes on for ever. |
| Settling.EveryScheduleSettles | ken/server.go:104-135 | Every schedule of the server's own steps that goes on while one is possible comes to a stop, whatever connections have failed or been closed; then nothing is owed (no admitted client's line, no departure, due timer or text) if and only if the lobby is not blocked. |
| Settling.SettlesWithoutRisk | ken/server.go:104-135 | Nothing is owed at the end of a schedule in which the lobby takes up no event with more texts for somebody than can be taken at worst. |
| Settling.CalmSettles | ken/server.go:104-135 | Nor when, at the start, no connection has failed or been closed but those of refused clients and no `/q` is on its way: then every such schedule ends with nothing owed. |
| Settling.ServerStops | ken/server.go:104-135 | There is a schedule of the server's own steps that comes to a stop, and what these steps keep holds there. |
| Progress.HandlerCompletes | ken/server.go:104-119 | A handler that has not more texts for anybody than can be taken comes to its end by sends of the lobby, the closing of its channel and successful writes alone; these change nothing but what is written, and leave every writer able to take what it could beyond those texts. |
| Progress.DoomedForever | ken/server.go:381-391 | Once a handler has more texts for a client than its writer can take, no event is handled any more in any continuation. |
| Progress.LobbyReturnsIff | ken/server.go:381-400 | In the middle of a handler, some continuation brings the lobby back to its `select` if and only if no client has more texts left to come than its writer can take. |
| Audiences.EventSent | ken/server.go:260-335 | Every event makes the lobby send to every client, the one that caused it included, exactly the texts read off the state before it: for a change of rooms the farewell, the replay and the notice of joining. |
| Audiences.RoomLinesAt | ken/server.go:216-218 | The listing has one line for each name, at the place of the name in the walk through the map. |
| Audiences.TextsSent | ken/server.go:213-335 | How many texts an event makes the lobby send to each client is known before it, whatever the order in which the room map is walked through. |
| Blocking.DoomedExactlyWhenBlocks | ken/server.go:381-400 | The lobby takes up an event it cannot come back from if and only if the event has more texts for somebody than that client's writer can take: none if it gave up or holds a late text, one if the server has closed the connection. |
| Blocking.TurnReturnsIff | ken/server.go:104-119 | After taking up an event, some continuation brings the lobby back to its `select` if and only if the event has not more texts for anybody than can be taken. |
| Blocking.MayBlockIff | ken/server.go:381-400 | In the middle of a handler, some schedule of the server's own steps blocks the lobby if and only if some client has more texts to come than its writer can take at worst. |
| Blocking.TurnNeverBlocksIff | ken/server.go:104-119 | After taking up an event, no schedule of the server's own steps blocks the lobby if and only if the event has not more texts for anybody than can be taken at worst. |
| Blocking.NobodyLeaves | ken/server.go:307-325 | If a member of a room takes no more, the departure or `/leave` of any member, itself included, blocks the lobby. |
| Blocking.LostMemberFreezesRoom | ken/server.go:307-335 | If a member can take no text beyond those on their way, then in every continuation, whenever the lobby is at its `select`, the room has the same members, all still in it, and the same history. |
| Progress.OfferIsTaken | ken/server.go:106-116 | Unless the lobby is blocked that way, whatever a forwarder or a timer offers is taken in some continuation in which it is the last move and only the lobby's sends and successful writes come before it. |
| Progress.LineIsTaken | ken/server.go:130-132 | So a line a forwarder offers is parsed. |
| Progress.DepartureIsTaken | ken/server.go:133 | So a departure is handled, and the client's channel is closed next. |
| Progress.TimerIsTaken | ken/server.go:156-157 | So a due timer is served. |
| Witnesses.LostConnectionBlocks | ken/server.go:381-391 | An execution in which a lost connection blocks the lobby for good. |
| Witnesses.QuitThenHelpBlocks | ken/server.go:254-255 | An execution without any failed write in which a client sends `/q` and `/h`, and the second blocks the lobby for good. |
| Witnesses.TurnedAwayWithALine | ken/server.go:122-126 | An execution in which, with the lobby full, a client is refused after its reader has read a line. |
| Witnesses.TurnedAwayForever | ken/server.go:122-126 | In every continuation of it the reader still offers that line, and the server is not rid of the client. |
| Endings.EndsIff | ken/server.go:122-150 | While the lobby is not blocked, the server can be rid of a client without a line on its way, its goroutines ended and its channel closed, if and only if the client was not refused and every member of its room can take a notice beyond the texts on their way; failed and closed connections are allowed. |
| Endings.EndsIffAdmitted | ken/server.go:122-150 | When no connection has failed or been closed but those of refused clients and no `/q` is on its way, the server can be rid of any client it has heard of if and only if the client was not refused. |
| Endings.EveryQuitEnds | ken/server.go:254-255 | Every schedule of the server's own steps that goes on while it can rids the server of every admitted client whose connection it has closed, unless the lobby gets blocked. |
| Endings.RefusedWriterWaits | ken/server.go:122-126 | In every reachable state nothing is on its way to a refused client, and its writer waits. |
| Endings.RefusedReaderOffers | ken/server.go:366-375 | The reader of a refused client, once it has read a line, offers it for ever. |
| EndToEnd.ExecutionIsRun | ken/server.go:104-135 | What the goroutines do to the lobby in any interleaving is a run of the lobby: every system has its place in the run, and between neighbouring places lies the event the move is for the lobby, or nothing. |
| EndToEnd.MoveOfEvent | ken/server.go:104-119 | Conversely every event of that run is one of the moves. |
| Handover.EventOfMove | ken/server.go:104-135 | Which event each move is in the run: a forwarder's hand-over to the lobby is the line of that client with the very message the forwarder held, an admission the arrival, and so on; all other moves are none. |
| Handover.ReceivedIsParsed | ken/server.go:129-132 | Under every interleaving the messages of a client among the run's events so far, in order, are exactly those recorded as parsed. |
| Handover.HandledInOrder | ken/server.go:129-132 | Under every interleaving the lines of a client among the run's events so far are, in order, the first complete lines of the stream it connected with, none skipped, repeated or changed. |
| Handover.ProducedByRead | ken/server.go:366-374 | Every message a reader produced comes from one read of it: its line is the next line of the stream at that moment, its time the clock at that moment, and all earlier messages were there before. |
| Handover.TimesAscend | ken/server.go:366-374 | The times of one client's messages never decrease and are never later than the clock. |
| Handover.SaidWasRead | ken/server.go:260-268 | Under every interleaving, whatever is said in a room was the next line of some client's stream when that client's reader read it, and bears the time of that read. |
| EndToEnd.NothingAfterResign | ken/server.go:129-150 | Under every interleaving a client departs at most once, and afterwards none of its lines is parsed and nothing is sent to it. |
| EndToEnd.RingsApart | ken/server.go:153-160 | Under every interleaving, of any three rings of one room's timers the last comes at least `EXPIRY_TIME` after the first. |
| EndToEnd.RingDeletesExactlyWhenIdle | ken/server.go:153-165 | Under every interleaving, a ring deletes the room if and only if every move that opened it or added to its history lies at least `EXPIRY_TIME` back; no other move deletes or revives a room. |
| EndToEnd.RenewalNeedsMove | ken/server.go:153-160 | Under every interleaving, a room that outlives two rings was spoken in between them. |
| EndToEnd.VisitsAreSettled | ken/server.go:297-335 | Under every interleaving, what a completed visit saw never changes, and is a prefix of the room's later history and of what later visits to that room see. |
| EndToEnd.MembersHaveReadTheHistory | ken/server.go:297-325 | Between two events, a member whose connection holds has been written, during its current visit, exactly the history of its room, up to the one text being written. |
| Slices.Append | ken/server.go:302 | Appending writes into spare capacity if there is any and otherwise to a copy in a new array, leaving the old array as it was. |
| Slices.ShiftDown | ken/server.go:311 | The copy within the backing array moves what lies behind a position one place forward and leaves the rest of the array alone. |
| Slices.TakeOff | ken/server.go:309-314 | The removal loop in place: the slice loses the first occurrence of the client, keeps the order of the others, and the array beyond the new slice stays. |
| Server.ChatRoom.Enrol | ken/server.go:302 | The member is appended to the room's own slice; all lists stay what their slices hold, with no array shared. |
| Server.ChatRoom.Strike | ken/server.go:309-314 | The member is cut out of the room's own slice in place; all lists stay what their slices hold. |
| Server.Lobby.Seat | ken/server.go:127 | The same for a client joining the lobby's slice. |
| Server.Lobby.Unseat | ken/server.go:142-147 | The same for a client leaving the lobby's slice. |
| Server.Lobby.Reseated | ken/server.go:309-314 | Changing one slice within its own array, or moving it to a new array, keeps every other list. |
| Server.WithoutIds | ken/server.go:309-314 | Removing a pointer is removing the identity: distinct known clients have distinct identities. |
| Server.Client.constructor | ken/server.go:344-352 | A new client has the default name, no room and no visits, which is what the lobby asks of a client that connects. |
| Server.Client.Send | ken/server.go:300 | A send appends to what was sent; the channel must not be closed. |
| Server.ChatRoom.constructor | ken/server.go:224-231 | A new room is empty and expires `EXPIRY_TIME` after now. |
| Server.ChatRoom.Join | ken/server.go:297-304 | The objects change as the model says: back-pointer, replay, member appended, then the notice to all. |
| Server.ChatRoom.Replay | ken/server.go:299-301 | The replay loop sends the whole history, in order, to the one client. |
| Server.ChatRoom.Leave | ken/server.go:307-316 | The objects change as the model says: notice to all members, the leaving one included, then removal and back-pointer cleared. |
| Server.ChatRoom.Broadcast | ken/server.go:319-325 | Expiry, history and one send per member change as the model says, and nothing else does. |
| Server.ChatRoom.Notify | ken/server.go:322-324 | The loop sends the text once to each member, in list order. |
| Server.ChatRoom.Delete | ken/server.go:329-335 | All members are told, then lose their back-pointers; the room's own list stays. |
| Server.ChatRoom.Evict | ken/server.go:332-334 | The loop clears the back-pointers of exactly the members. |
| Server.NoticesAreFanout | ken/server.go:322-324 | What the loop over the objects sends is what the model sends over their identities. |
| Server.Lobby.constructor | ken/server.go:90-101 | A new lobby is valid and represents the empty state. |
| Server.Lobby.Join | ken/server.go:122-135 | Refusal, with the connection closed, or admission of a client object, as in the model (`Outcomes.ArrivalOutcome`). |
| Server.Lobby.Leave | ken/server.go:138-150 | Leaving the room, removal from the list and closing of the channel, as in the model. |
| Server.Lobby.DeleteChatRoom | ken/server.go:153-165 | Renewal of the timer or deletion of the room object and its key, as in the model. |
| Server.Lobby.CreateChatRoom | ken/server.go:168-182 | A taken name is refused, otherwise a new object with a key and a timer, as in the model (`Outcomes.LineNames`: the key is the name asked for); known objects stay. |
| Server.Lobby.JoinChatRoom | ken/server.go:188-199 | Unknown names are refused, otherwise the old room is left first and the named one joined, as in the model. |
| Server.Lobby.LeaveChatRoom | ken/server.go:202-210 | Leaving the room, or an answer when there is none, as in the model. |
| Server.Lobby.SendNames | ken/server.go:216-218 | The loop over the map sends each name once, in some order. |
| Server.Lobby.ListChatRooms | ken/server.go:213-221 | The listing goes to the client alone, each live name once, as in the model. |
| Server.Lobby.SendMessage | ken/server.go:260-268 | A message reaches the sender's room under the sender's name and with the time it bears, or is refused, as in the model; that this is the time of reading is `Handover.SaidWasRead`. |
| Server.Lobby.ChangeName | ken/server.go:271-279 | The notice carries the old and the new name and goes to the room or to the client alone; then, in either case, the name changes, as in the model (`Outcomes.LineClients`). |
| Server.Lobby.Help | ken/server.go:282-294 | Ten texts to the client alone, as in the model. |
| LobbyModel.HelpNamesEveryCase | ken/server.go:282-294 | The help has a line for every case of the switch, and for nothing else. |
| LobbyModel.HelpReads | ken/server.go:282-294 | The ten texts of the help, one by one: a blank line, the heading, `/h`, `/l`, `/c`, `/j`, `/leave`, `/n`, `/q`, a blank line. |
| Server.Lobby.Parse | ken/server.go:235-257 | The handler the line calls for, as in the model. |
| Server.Lobby.StartTimer | ken/server.go:155-158 | The first timer of a room sleeps for `EXPIRY_TIME`, a later one until the expiry it reads. |
| Server.Lobby.OnMessage | ken/server.go:108-109 | A turn for a message is one event of the model and leaves all objects valid. |
| Server.Lobby.OnJoin | ken/server.go:110-111 | A turn for a new client is one event of the model and leaves all objects valid. |
| Server.Lobby.OnLeave | ken/server.go:112-113 | A turn for a leaving client is one event of the model and leaves all objects valid. |
| Server.Lobby.OnDelete | ken/server.go:114-115 | A turn for a due timer is one event of the model and leaves all objects valid. |
| Server.Lobby.OnStart | ken/server.go:176-178 | So is the first scheduling of a timer goroutine. |
| Server.Lobby.OnTick | ken/server.go:154 | So is the passing of time. |

## Left out

- `main` calls `lobby.Join` itself (`ken/server.go:437`) instead of using the `join` channel: an arrival is modelled as one step of the lobby loop, as the loop intends (`ken/server.go:110-111`). Two handlers running at once in two goroutines are not part of this model.
- Data races on memory: a timer goroutine's reading of `expiry` (`ken/server.go:156`) is one atomic read at the moment it is first scheduled.
- The clock stands still while one event is handled; it may advance by any amount between two events. In particular the two broadcasts of a change of rooms (`ken/server.go:196-198`) read the same time, and the moves `Pass` between the sends of one handler do not affect its texts or expiry times. Clock values are whole nanoseconds without bound, where Go's would overflow after centuries.
- The forwarder goroutine of a client is taken to run as soon as the client is admitted, not only after its welcome has been sent. This allows more interleavings than the code has, none fewer.
- The history of a room is a sequence that the methods reassign; the lists of clients are slices over arrays. By how much Go enlarges an array is left open.
- The records `id`, `visits`, `list`, `people`, `places`, `arrays`, `created`, `stamps`, `firings` and `link`, and the class `Runtime` (clock, sends, timers), have no field of their own in the source: they name the object, record the past, or stand for the runtime.
- The formatting of notices, help and times of day: a text is its template and its arguments.
- Sockets, listening, accepting, logging and process exit; of the connection only the stream of bytes that arrives and the success or failure of each write is modelled. `Client.Quit` records that the connection was closed, after which no text handed to the writer can be written.
- After the server has closed a connection, its reader may still yield lines of the stream before it fails; how many of them had been buffered is left open.
- Endings.EndsIff: asks for a client without lines on its way, because with failed or closed connections the lines yet to be handled may each block the lobby or not, depending on everything handled before them; without such connections `Endings.EndsIffAdmitted` has no such condition.
- Fairness of the scheduler while the network goes on: `Settling.EveryScheduleSettles` holds of every schedule of the server's own steps, the other progress results state that a continuation exists.
- Characters are taken as they are: no encoding of lines as UTF-8.
- Uniqueness of user names, which the code does not attempt; the full-server text that is never sent.
- `ken/client.go`, which copies console lines to a socket and back.
