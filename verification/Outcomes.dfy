/** What each event leaves behind: the record of every client, every room's members and history, and the
    name map, read off the state before it; and what follows for whole runs. */
module Outcomes {
  import opened GoStrings
  import opened LobbyModel
  import opened Membership
  import opened Invariant
  import opened Runs
  import opened Audiences
  import Commands

  // ---------------------------------------------------------------- clients after a line

  /** The room a client is in after a line of `c`. */
  function RoomAfter(s: State, c: ClientId, command: Commands.Command, x: ClientId): Option<RoomId>
    requires x in s.clients
  {
    if x == c && command.LeaveRoom? then None
    else if x == c && command.Join? && command.name in s.names then Some(s.names[command.name])
    else s.clients[x].room
  }

  /** A line changes the name of nobody but a client that renames itself, moves nobody but a client that
      leaves or joins, and closes the connection of nobody but a client that quits. */
  ghost predicate ClientsAfterLine(s: State, c: ClientId, command: Commands.Command, s': State, x: ClientId)
    requires x in s.clients
  {
    && x in s'.clients
    && s'.clients[x].name == (if x == c && command.Rename? then command.name else s.clients[x].name)
    && s'.clients[x].room == RoomAfter(s, c, command, x)
    && s'.clients[x].visits == s.clients[x].visits
         + (if x == c && command.Join? && command.name in s.names then [s.names[command.name]] else [])
    && s'.clients[x].link == s.clients[x].link
    && s'.clients[x].hungUp == (s.clients[x].hungUp || (x == c && command.Quit?))
  }

  lemma RoomJoinClients(s: State, q: RoomId, c: ClientId)
    requires q in s.rooms && c in s.clients
    ensures RoomJoin(s, q, c).clients
            == s.clients[c := s.clients[c].(room := Some(q), visits := s.clients[c].visits + [q])]
  {
  }

  lemma RoomLeaveClients(s: State, r: RoomId, c: ClientId)
    requires r in s.rooms && c in s.clients
    ensures RoomLeave(s, r, c).clients == s.clients[c := s.clients[c].(room := None)]
    ensures RoomLeave(s, r, c).names == s.names && RoomLeave(s, r, c).nextRoom == s.nextRoom
  {
  }

  lemma SwitchClients(s: State, c: ClientId, n: string)
    requires Resolved(s) && c in s.clients && n in s.names
    ensures JoinChatRoom(s, c, n).clients
            == s.clients[c := s.clients[c].(room := Some(s.names[n]), visits := s.clients[c].visits + [s.names[n]])]
  {
    if s.clients[c].room.Some? {
      var s1 := RoomLeave(s, s.clients[c].room.value, c);
      RoomLeaveClients(s, s.clients[c].room.value, c);
      SwitchIsChange(s, c, n);
      RoomJoinClients(s1, s.names[n], c);
    } else {
      RoomJoinClients(s, s.names[n], c);
    }
  }

  lemma RenameClients(s: State, c: ClientId, n: string)
    requires Resolved(s) && c in s.clients
    ensures ChangeName(s, c, n).clients == s.clients[c := s.clients[c].(name := n)]
  {
  }

  lemma LeaveClients(s: State, c: ClientId)
    requires Resolved(s) && c in s.clients
    ensures LeaveChatRoom(s, c).clients == s.clients[c := s.clients[c].(room := None)]
  {
    if s.clients[c].room.Some? {
      RoomLeaveClients(s, s.clients[c].room.value, c);
    } else {
      assert s.clients[c].(room := None) == s.clients[c];
    }
  }

  /** Lines that leave all clients as they are. */
  lemma SameClients(s: State, c: ClientId, m: Message, order: seq<string>, command: Commands.Command)
    requires Resolved(s) && c in s.clients
    requires command.Create? || command.List? || command.Help? || command.Say?
             || (command.Join? && command.name !in s.names)
    ensures Perform(s, c, m, order, command).clients == s.clients
  {
  }

  /** What a line does to the record of every client. */
  lemma LineClients(s: State, c: ClientId, m: Message, order: seq<string>, command: Commands.Command, x: ClientId)
    requires Resolved(s) && c in s.clients && x in s.clients
    ensures ClientsAfterLine(s, c, command, Perform(s, c, m, order, command), x)
  {
    match command
    case Join(n) =>
      if n in s.names {
        SwitchAfter(s, c, n, x);
      } else {
        SameClients(s, c, m, order, command);
      }
    case Rename(n) => RenameAfter(s, c, n, x);
    case LeaveRoom => LeaveAfter(s, c, x);
    case Quit => QuitAfter(s, c, x);
    case _ => SameClients(s, c, m, order, command);
  }

  lemma SwitchAfter(s: State, c: ClientId, n: string, x: ClientId)
    requires Resolved(s) && c in s.clients && n in s.names && x in s.clients
    ensures ClientsAfterLine(s, c, Commands.Join(n), JoinChatRoom(s, c, n), x)
  {
    SwitchClients(s, c, n);
  }

  lemma RenameAfter(s: State, c: ClientId, n: string, x: ClientId)
    requires Resolved(s) && c in s.clients && x in s.clients
    ensures ClientsAfterLine(s, c, Commands.Rename(n), ChangeName(s, c, n), x)
  {
    RenameClients(s, c, n);
  }

  lemma LeaveAfter(s: State, c: ClientId, x: ClientId)
    requires Resolved(s) && c in s.clients && x in s.clients
    ensures ClientsAfterLine(s, c, Commands.LeaveRoom, LeaveChatRoom(s, c), x)
  {
    LeaveClients(s, c);
  }

  lemma QuitAfter(s: State, c: ClientId, x: ClientId)
    requires c in s.clients && x in s.clients
    ensures ClientsAfterLine(s, c, Commands.Quit, HangUp(s, c), x)
  {
  }

  // ---------------------------------------------------------------- rooms after a line

  /** What a line adds to the history of room `r`. */
  function LineAdds(s: State, c: ClientId, m: Message, command: Commands.Command, r: RoomId): seq<Text>
    requires c in s.clients
  {
    var here, name := s.clients[c].room == Some(r), s.clients[c].name;
    match command
    case LeaveRoom => if here then [Left(name)] else []
    case Rename(n) => if here then [Renamed(name, n)] else []
    case Say => if here then [Said(m.time, name, m.line)] else []
    case Join(n) =>
      if n !in s.names then []
      else (if here then [Left(name)] else []) + (if s.names[n] == r then [Joined(name)] else [])
    case _ => []
  }

  /** Who is in room `r` after a line. */
  function LineMembers(s: State, c: ClientId, command: Commands.Command, r: RoomId): seq<ClientId>
    requires c in s.clients && r in s.rooms
  {
    var moves := command.LeaveRoom? || (command.Join? && command.name in s.names);
    var stayed := if moves && s.clients[c].room == Some(r) then RemoveFirst(s.rooms[r].members, c)
                  else s.rooms[r].members;
    if command.Join? && command.name in s.names && s.names[command.name] == r then stayed + [c] else stayed
  }

  ghost predicate RoomAfterIs(s: State, s': State, r: RoomId, adds: seq<Text>, members: seq<ClientId>)
    requires r in s.rooms
  {
    && r in s'.rooms && s'.rooms[r].name == s.rooms[r].name
    && s'.rooms[r].messages == s.rooms[r].messages + adds && s'.rooms[r].members == members
  }

  lemma RoomJoinRooms(s: State, q: RoomId, c: ClientId, r: RoomId)
    requires q in s.rooms && c in s.clients && r in s.rooms
    ensures RoomAfterIs(s, RoomJoin(s, q, c), r, if r == q then [Joined(s.clients[c].name)] else [],
                        s.rooms[r].members + if r == q then [c] else [])
  {
  }

  lemma RoomLeaveRooms(s: State, q: RoomId, c: ClientId, r: RoomId)
    requires q in s.rooms && c in s.clients && r in s.rooms
    ensures RoomAfterIs(s, RoomLeave(s, q, c), r, if r == q then [Left(s.clients[c].name)] else [],
                        if r == q then RemoveFirst(s.rooms[r].members, c) else s.rooms[r].members)
  {
  }

  lemma SwitchRooms(s: State, c: ClientId, m: Message, n: string, r: RoomId)
    requires Resolved(s) && c in s.clients && n in s.names && r in s.rooms
    ensures RoomAfterIs(s, JoinChatRoom(s, c, n), r, LineAdds(s, c, m, Commands.Join(n), r),
                        LineMembers(s, c, Commands.Join(n), r))
  {
    if s.clients[c].room.Some? {
      ChangeRooms(s, s.clients[c].room.value, s.names[n], c, r);
      SwitchIsChange(s, c, n);
    } else {
      RoomJoinRooms(s, s.names[n], c, r);
    }
  }

  lemma ChangeRooms(s: State, q: RoomId, q': RoomId, c: ClientId, r: RoomId)
    requires q in s.rooms && q' in s.rooms && c in s.clients && r in s.rooms
    ensures var name := s.clients[c].name;
            RoomAfterIs(s, RoomJoin(RoomLeave(s, q, c), q', c), r,
                        (if q == r then [Left(name)] else []) + (if q' == r then [Joined(name)] else []),
                        (if q == r then RemoveFirst(s.rooms[r].members, c) else s.rooms[r].members)
                        + (if q' == r then [c] else []))
  {
    RoomLeaveRooms(s, q, c, r);
    RoomLeaveClients(s, q, c);
    RoomJoinRooms(RoomLeave(s, q, c), q', c, r);
  }

  /** What a line does to the history and the members of every room. */
  lemma LineRooms(s: State, c: ClientId, m: Message, order: seq<string>, command: Commands.Command, r: RoomId)
    requires Resolved(s) && FreshIds(s) && c in s.clients && r in s.rooms
    ensures RoomAfterIs(s, Perform(s, c, m, order, command), r,
                        LineAdds(s, c, m, command, r), LineMembers(s, c, command, r))
  {
    match command
    case Join(n) =>
      if n in s.names {
        SwitchRooms(s, c, m, n, r);
      }
    case LeaveRoom =>
      if s.clients[c].room.Some? {
        RoomLeaveRooms(s, s.clients[c].room.value, c, r);
      }
    case _ =>
  }

  // ---------------------------------------------------------------- names after a line

  ghost predicate Opens(s: State, command: Commands.Command) {
    command.Create? && command.name !in s.names
  }

  lemma SwitchNames(s: State, c: ClientId, n: string)
    requires Resolved(s) && c in s.clients
    ensures JoinChatRoom(s, c, n).names == s.names && JoinChatRoom(s, c, n).nextRoom == s.nextRoom
    ensures JoinChatRoom(s, c, n).rooms.Keys == s.rooms.Keys
  {
  }

  /** A line opens a room under exactly the name it asks for, if that is free; the new room has that name,
      no members and no history. Otherwise rooms and names stay. */
  lemma LineNames(s: State, c: ClientId, m: Message, order: seq<string>, command: Commands.Command)
    requires Resolved(s) && FreshIds(s) && c in s.clients
    ensures var s' := Perform(s, c, m, order, command);
            if Opens(s, command) then
              && s'.names == s.names[command.name := s.nextRoom]
              && s'.rooms.Keys == s.rooms.Keys + {s.nextRoom}
              && s'.rooms[s.nextRoom].name == command.name
              && s'.rooms[s.nextRoom].members == [] && s'.rooms[s.nextRoom].messages == []
            else s'.names == s.names && s'.rooms.Keys == s.rooms.Keys
  {
    if command.Join? {
      SwitchNames(s, c, command.name);
    }
  }

  /** The line `/c `, followed by a free name, opens a room under that name, into which the line `/j `,
      followed by the name, then takes any client. */
  lemma CreatedRoomJoinable(s: State, c: ClientId, n: string, t: Time, order: seq<string>,
                            x: ClientId, u: Time, order': seq<string>)
    returns (create: Event, s1: State, join: Event, s2: State)
    requires Inv(s) && c in s.clients && s.clients[c].link == Attached && Enumerates(order, s.names)
    requires n !in s.names && '\n' !in n
    requires x in s.clients && s.clients[x].link == Attached && Enumerates(order', s.names[n := s.nextRoom])
    ensures create == Incoming(c, Message(t, "/c" + (" " + n)), order) && Enabled(s, create)
    ensures Resolved(s) && s1 == Step(s, create)
    ensures join == Incoming(x, Message(u, "/j" + (" " + n)), order') && Enabled(s1, join)
    ensures Resolved(s1) && s2 == Step(s1, join)
    ensures var r := s.nextRoom;
            && r !in s.rooms && r in s2.rooms && s2.rooms[r].name == n && n in s2.names && s2.names[n] == r
            && x in s2.clients && s2.clients[x].room == Some(r)
            && s2.rooms[r].members == [x] && s2.rooms[r].messages == [Joined(s.clients[x].name)]
  {
    create := Incoming(c, Message(t, Commands.CMD_CREATE + (" " + n)), order);
    Commands.CreateLineNamesRoom(n);
    assert '\n' !in create.message.line;
    s1 := Step(s, create);
    StepKeepsInv(s, create);
    var command := Commands.Create(n);
    LineNames(s, c, create.message, order, command);
    LineClients(s, c, create.message, order, command, x);
    NotYetIn(s, x);
    join := Incoming(x, Message(u, Commands.CMD_JOIN + (" " + n)), order');
    JoinsNew(s1, x, n, u, order');
    s2 := Step(s1, join);
  }

  lemma NotYetIn(s: State, x: ClientId)
    requires Resolved(s) && FreshIds(s) && x in s.clients
    ensures s.clients[x].room != Some(s.nextRoom) && s.nextRoom !in s.rooms
  {
  }

  lemma JoinsNew(s: State, x: ClientId, n: string, u: Time, order: seq<string>)
    requires Agreement(s) && n in s.names
    requires x in s.clients && s.clients[x].link == Attached && Enumerates(order, s.names)
    requires s.clients[x].room != Some(s.names[n])
    requires s.rooms[s.names[n]].members == [] && s.rooms[s.names[n]].messages == []
    ensures var join := Incoming(x, Message(u, Commands.CMD_JOIN + (" " + n)), order);
            && Enabled(s, join)
            && var s', q := Step(s, join), s.names[n];
            && s'.clients[x].room == Some(q) && s'.names == s.names
            && q in s'.rooms && s'.rooms[q].name == s.rooms[q].name
            && s'.rooms[q].members == [x] && s'.rooms[q].messages == [Joined(s.clients[x].name)]
  {
    EveryLiveRoomJoinable(s, x, n, u, order);
    var m := Message(u, Commands.CMD_JOIN + (" " + n));
    Commands.JoinLineNamesRoom(n);
    LineRooms(s, x, m, order, Commands.Join(n), s.names[n]);
  }

  // ---------------------------------------------------------------- other events

  lemma TellKeeps(s: State, c: ClientId, texts: seq<Text>)
    ensures var s' := Tell(s, c, texts);
            s'.clients == s.clients && s'.members == s.members && s'.rooms == s.rooms && s'.names == s.names
  {
  }

  /** An arrival: the client has the default name and no room, is in the lobby if there was a place, and
      otherwise refused with its connection closed. */
  lemma ArrivalOutcome(s: State, c: ClientId)
    requires c !in s.clients
    ensures var s', full := Join(s, c), |s.members| >= 10;
            && s'.clients == s.clients[c := Client(CLIENT_NAME, None, [], if full then Refused else Attached, full)]
            && s'.members == s.members + (if full then [] else [c])
            && s'.rooms == s.rooms && s'.names == s.names
    ensures HungUp(Join(s, c), c) <==> |s.members| >= 10
  {
    if |s.members| >= 10 {
      assert Join(s, c) == Refuse(s, c);
      assert s.members + [] == s.members;
    } else {
      assert Join(s, c) == Tell(Admit(s, c), c, [Welcome]);
      TellKeeps(Admit(s, c), c, [Welcome]);
    }
  }

  /** What an event other than a line does to the record of a client that was there before. */
  lemma OtherOutcome(s: State, e: Event, x: ClientId)
    requires Resolved(s) && Enabled(s, e) && !e.Incoming? && x in s.clients
    requires e.Expire? ==> forall y :: y in s.rooms[s.timers[e.timer].room].members ==> y in s.clients
    ensures var x', t' := Step(s, e).clients, s.clients[x];
            && x in x' && x'[x].name == t'.name && x'[x].visits == t'.visits && x'[x].hungUp == t'.hungUp
            && x'[x].link == (if e == Depart(x) then Detached else t'.link)
            && x'[x].room == (if e == Depart(x) && t'.room.Some? then None
                              else if e.Expire? && s.rooms[s.timers[e.timer].room].expiry <= s.now
                                      && x in s.rooms[s.timers[e.timer].room].members then None
                              else t'.room)
  {
    if e.Depart? && s.clients[e.client].room.Some? {
      RoomLeaveClients(s, s.clients[e.client].room.value, e.client);
    }
  }

  /** What any event adds to the history of a room. */
  function Adds(s: State, e: Event, r: RoomId): seq<Text>
    requires Resolved(s) && Enabled(s, e)
  {
    match e
    case Incoming(c, m, order) => LineAdds(s, c, m, Commands.Classify(m.line), r)
    case Depart(c) => if s.clients[c].room == Some(r) then [Left(s.clients[c].name)] else []
    case Expire(t) => if s.timers[t].room == r && s.rooms[r].expiry <= s.now then [Inactive] else []
    case _ => []
  }

  lemma EventAdds(s: State, e: Event, r: RoomId)
    requires Resolved(s) && FreshIds(s) && Enabled(s, e) && r in s.rooms
    ensures r in Step(s, e).rooms && Step(s, e).rooms[r].messages == s.rooms[r].messages + Adds(s, e, r)
  {
    match e
    case Incoming(c, m, order) => LineRooms(s, c, m, order, Commands.Classify(m.line), r);
    case Depart(c) =>
      if s.clients[c].room.Some? {
        RoomLeaveRooms(s, s.clients[c].room.value, c, r);
      }
    case _ =>
  }

  /** New rooms begin without history. */
  lemma NewRoomsAreSilent(s: State, e: Event, r: RoomId)
    requires Resolved(s) && FreshIds(s) && Enabled(s, e) && r !in s.rooms && r in Step(s, e).rooms
    ensures Step(s, e).rooms[r].messages == []
  {
    if e.Incoming? {
      LineNames(s, e.client, e.message, e.order, Commands.Classify(e.message.line));
    }
  }

  /** Only time passing moves the clock, and by what it says. */
  lemma ClockOutcome(s: State, e: Event)
    requires Resolved(s) && Enabled(s, e)
    ensures Step(s, e).now == if e.Tick? then e.time else s.now
  {
    if e.Incoming? {
      LineClock(s, e.client, e.message, e.order, Commands.Classify(e.message.line));
    }
  }

  lemma LineClock(s: State, c: ClientId, m: Message, order: seq<string>, command: Commands.Command)
    requires Resolved(s) && c in s.clients
    ensures Perform(s, c, m, order, command).now == s.now
  {
  }

  // ---------------------------------------------------------------- the lobby's list and the timers

  /** The lobby's list gains a client that arrives when there is a place, at the end, and loses one that
      departs, keeping the order of the others. */
  lemma ListOutcome(s: State, e: Event)
    requires Resolved(s) && Enabled(s, e)
    ensures Step(s, e).members == match e
                                  case Arrive(c) => s.members + (if |s.members| >= 10 then [] else [c])
                                  case Depart(c) => RemoveFirst(s.members, c)
                                  case _ => s.members
  {
    match e
    case Arrive(c) => ArrivalOutcome(s, c);
    case Incoming(c, m, order) => ParseKeepsMembers(s, c, m, order, Commands.Classify(m.line));
    case _ =>
  }

  lemma LineTimers(s: State, c: ClientId, m: Message, order: seq<string>, command: Commands.Command)
    requires Resolved(s) && c in s.clients
    ensures Perform(s, c, m, order, command).timers
            == if Opens(s, command) then s.timers[s.nextTimer := Timer(s.nextRoom, Fresh)] else s.timers
  {
    if command.Join? && command.name in s.names {
      SwitchTimers(s, c, command.name);
    }
  }

  lemma SwitchTimers(s: State, c: ClientId, n: string)
    requires Resolved(s) && c in s.clients && n in s.names
    ensures JoinChatRoom(s, c, n).timers == s.timers
  {
  }

  /** Timers come with a new room, and in place of one that was handled for a room not yet expired; one that
      starts to sleep does so for `EXPIRY_TIME` if it is its room's first, and else until the expiry. */
  lemma TimersOutcome(s: State, e: Event)
    requires Resolved(s) && Enabled(s, e)
    ensures Step(s, e).timers ==
            match e
            case Incoming(c, m, order) =>
              if Opens(s, Commands.Classify(m.line)) then s.timers[s.nextTimer := Timer(s.nextRoom, Fresh)]
              else s.timers
            case Start(t) =>
              var r := s.timers[t].room;
              var due := if s.timers[t].phase.Fresh? then s.now + EXPIRY_TIME else s.rooms[r].expiry;
              s.timers[t := Timer(r, Sleeping(due, s.now))]
            case Expire(t) =>
              var r := s.timers[t].room;
              if s.rooms[r].expiry > s.now then (s.timers - {t})[s.nextTimer := Timer(r, Rearmed)] else s.timers - {t}
            case _ => s.timers
  {
    if e.Incoming? {
      LineTimers(s, e.client, e.message, e.order, Commands.Classify(e.message.line));
    }
  }

  // ---------------------------------------------------------------- over runs

  /** The event is a `/n` line of the client. */
  predicate RenamesSelf(e: Event, c: ClientId) {
    e.Incoming? && e.client == c && Commands.Classify(e.message.line).Rename?
  }

  /** The name the client was given last: by its last `/n` line among the first `i` events, if any. */
  function LastName(es: seq<Event>, i: nat, c: ClientId): string
    requires i <= |es|
  {
    if i == 0 then CLIENT_NAME
    else if RenamesSelf(es[i - 1], c) then Commands.Classify(es[i - 1].message.line).name
    else LastName(es, i - 1, c)
  }

  lemma EventName(s: State, e: Event, c: ClientId)
    requires Inv(s) && Enabled(s, e)
    ensures c in s.clients ==>
              && c in Step(s, e).clients
              && Step(s, e).clients[c].name == if RenamesSelf(e, c) then Commands.Classify(e.message.line).name
                                               else s.clients[c].name
    ensures c !in s.clients ==> !RenamesSelf(e, c)
    ensures c !in s.clients && c in Step(s, e).clients ==> Step(s, e).clients[c].name == CLIENT_NAME
  {
    if c in s.clients {
      if e.Incoming? {
        LineClients(s, e.client, e.message, e.order, Commands.Classify(e.message.line), c);
      } else {
        OtherOutcome(s, e, c);
      }
    } else if c in Step(s, e).clients {
      NewClientsArrive(s, e, c);
    }
  }

  /** In every run a client is called what its last `/n` line said, and `new_user` before any. */
  lemma {:induction false} NamedByLastRename(ss: seq<State>, es: seq<Event>, i: nat, c: ClientId)
    requires IsRun(ss, es) && i < |ss|
    ensures c in ss[i].clients ==> ss[i].clients[c].name == LastName(es, i, c)
    ensures c !in ss[i].clients ==> LastName(es, i, c) == CLIENT_NAME
  {
    if i > 0 {
      NamedByLastRename(ss, es, i - 1, c);
      RunStep(ss, es, i - 1);
      EventName(ss[i - 1], es[i - 1], c);
    }
  }

  /** The event is a `/q` line of the client. */
  predicate Quits(e: Event, c: ClientId) {
    e.Incoming? && e.client == c && Commands.Classify(e.message.line).Quit?
  }

  lemma EventHangsUp(s: State, e: Event, c: ClientId)
    requires Inv(s) && Enabled(s, e)
    ensures HungUp(Step(s, e), c)
            <==> HungUp(s, c) || Quits(e, c) || (e == Arrive(c) && |s.members| >= 10)
    ensures c in s.clients ==>
              c in Step(s, e).clients && (Step(s, e).clients[c].link == Refused <==> s.clients[c].link == Refused)
    ensures c !in s.clients && c in Step(s, e).clients ==>
              e == Arrive(c) && (Step(s, e).clients[c].link == Refused <==> |s.members| >= 10)
  {
    if c in s.clients {
      if e.Incoming? {
        LineClients(s, e.client, e.message, e.order, Commands.Classify(e.message.line), c);
      } else {
        OtherOutcome(s, e, c);
      }
    } else if c in Step(s, e).clients {
      NewClientsArrive(s, e, c);
      ArrivalOutcome(s, c);
    } else if e.Arrive? {
      ArrivalOutcome(s, e.client);
    }
  }

  /** In every run the server has closed a client's connection if and only if the client was refused or a
      `/q` line of it was handled. */
  lemma {:induction false} HungUpIff(ss: seq<State>, es: seq<Event>, i: nat, c: ClientId)
    requires IsRun(ss, es) && i < |ss|
    ensures HungUp(ss[i], c) <==>
            || (c in ss[i].clients && ss[i].clients[c].link == Refused)
            || exists k :: 0 <= k < i && Quits(es[k], c)
  {
    if i > 0 {
      HungUpIff(ss, es, i - 1, c);
      RunStep(ss, es, i - 1);
      EventHangsUp(ss[i - 1], es[i - 1], c);
    }
  }

  /** And a client was refused if and only if the lobby was full when it arrived. */
  lemma {:induction false} RefusedIff(ss: seq<State>, es: seq<Event>, i: nat, c: ClientId)
    requires IsRun(ss, es) && i < |ss|
    ensures c in ss[i].clients && ss[i].clients[c].link == Refused <==>
            exists k :: 0 <= k < i && es[k] == Arrive(c) && |ss[k].members| >= 10
  {
    if i > 0 {
      RefusedIff(ss, es, i - 1, c);
      RunStep(ss, es, i - 1);
      EventHangsUp(ss[i - 1], es[i - 1], c);
    }
  }

  /** The event is a chat line of a client in room `r`, and the text is how it appears there. */
  ghost predicate SaidBy(s: State, e: Event, r: RoomId, text: Text) {
    && e.Incoming? && e.client in s.clients
    && Commands.Classify(e.message.line).Say? && s.clients[e.client].room == Some(r)
    && text == Said(e.message.time, s.clients[e.client].name, e.message.line)
  }

  lemma SaidOrigin(s: State, e: Event, r: RoomId, k: nat)
    requires Resolved(s) && FreshIds(s) && Enabled(s, e)
    requires r in Step(s, e).rooms && k < |Step(s, e).rooms[r].messages| && Step(s, e).rooms[r].messages[k].Said?
    ensures var text := Step(s, e).rooms[r].messages[k];
            || (r in s.rooms && k < |s.rooms[r].messages| && s.rooms[r].messages[k] == text)
            || SaidBy(s, e, r, text)
  {
    if r !in s.rooms {
      NewRoomsAreSilent(s, e, r);
    } else {
      EventAdds(s, e, r);
      if k >= |s.rooms[r].messages| {
        assert Step(s, e).rooms[r].messages[k] in Adds(s, e, r);
      }
    }
  }

  lemma SaidStep(ss: seq<State>, es: seq<Event>, i: nat, r: RoomId, k: nat)
    requires IsRun(ss, es) && i < |es|
    requires r in ss[i + 1].rooms && k < |ss[i + 1].rooms[r].messages| && ss[i + 1].rooms[r].messages[k].Said?
    ensures var text := ss[i + 1].rooms[r].messages[k];
            || (r in ss[i].rooms && k < |ss[i].rooms[r].messages| && ss[i].rooms[r].messages[k] == text)
            || SaidBy(ss[i], es[i], r, text)
  {
    RunStep(ss, es, i);
    SaidOrigin(ss[i], es[i], r, k);
  }

  /** Everything said in a room was a chat line of a client in that room, which is shown under the name it
      had, with the time the line bore. */
  lemma {:induction false} SaidComesFrom(ss: seq<State>, es: seq<Event>, i: nat, r: RoomId, k: nat) returns (j: nat)
    requires IsRun(ss, es) && i < |ss| && r in ss[i].rooms && k < |ss[i].rooms[r].messages|
    requires ss[i].rooms[r].messages[k].Said?
    ensures j < i && SaidBy(ss[j], es[j], r, ss[i].rooms[r].messages[k])
  {
    j := i - 1;
    SaidStep(ss, es, j, r, k);
    if !SaidBy(ss[j], es[j], r, ss[i].rooms[r].messages[k]) {
      j := SaidComesFrom(ss, es, j, r, k);
    }
  }
}
