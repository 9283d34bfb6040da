/** Properties of whole runs of the lobby: any number of events, in any order. */
module Runs {
  import opened GoStrings
  import opened LobbyModel
  import opened Membership
  import opened Transcripts
  import opened Expiry
  import opened Invariant
  import Commands

  /** One event leads from `s` to `s'`. */
  ghost predicate Next(s: State, e: Event, s': State) {
    Enabled(s, e) && (Resolved(s) ==> s' == Step(s, e))
  }

  /** The states of a run that starts with an empty lobby, and the events between them. */
  ghost predicate IsRun(ss: seq<State>, es: seq<Event>) {
    && |ss| == |es| + 1
    && ss[0] == Init(ss[0].now)
    && forall i :: 0 <= i < |es| ==> Next(ss[i], es[i], ss[i + 1])
  }

  /** The invariant holds throughout every run. */
  lemma {:induction false} RunKeepsInv(ss: seq<State>, es: seq<Event>, i: nat)
    requires IsRun(ss, es) && i < |ss|
    ensures Inv(ss[i])
  {
    if i == 0 {
      InitInv(ss[0].now);
    } else {
      RunKeepsInv(ss, es, i - 1);
      assert Next(ss[i - 1], es[i - 1], ss[i - 1 + 1]);
      StepKeepsInv(ss[i - 1], es[i - 1]);
    }
  }

  lemma RunStep(ss: seq<State>, es: seq<Event>, i: nat)
    requires IsRun(ss, es) && i < |es|
    ensures Inv(ss[i]) && Enabled(ss[i], es[i]) && ss[i + 1] == Step(ss[i], es[i])
  {
    RunKeepsInv(ss, es, i);
    assert Next(ss[i], es[i], ss[i + 1]);
  }

  lemma AdvancesRefl(s: State)
    ensures Advances(s, s)
  {
  }

  /** Nothing that was sent, said or ended is ever undone. */
  lemma {:induction false} RunAdvances(ss: seq<State>, es: seq<Event>, i: nat, j: nat)
    requires IsRun(ss, es) && i <= j < |ss|
    ensures Advances(ss[i], ss[j])
    decreases j
  {
    if i == j {
      AdvancesRefl(ss[i]);
    } else {
      RunAdvances(ss, es, i, j - 1);
      RunKeepsInv(ss, es, j - 1);
      assert Next(ss[j - 1], es[j - 1], ss[j - 1 + 1]);
      StepKeepsInv(ss[j - 1], es[j - 1]);
      AdvancesTrans(ss[i], ss[j - 1], ss[j]);
    }
  }

  // ---------------------------------------------------------------- closed channels

  /** After a client's channel was closed nothing is sent to it, and nothing it might have said is
      handled. */
  lemma NothingAfterClose(ss: seq<State>, es: seq<Event>, i: nat, j: nat, c: ClientId)
    requires IsRun(ss, es) && i <= j < |ss|
    requires c in ss[i].clients && ss[i].clients[c].link == Detached
    ensures forall k :: |ss[i].out| <= k < |ss[j].out| ==> ss[j].out[k].to != c
    ensures Log(ss[j].out, c) == Log(ss[i].out, c)
    ensures c in ss[j].clients && ss[j].clients[c].link == Detached
    ensures j < |es| ==> es[j] != Depart(c) && !(es[j].Incoming? && es[j].client == c)
  {
    RunAdvances(ss, es, i, j);
    var sent := ss[j].out[|ss[i].out|..];
    forall k | 0 <= k < |sent| ensures sent[k].to != c {
      assert sent[k] == ss[j].out[|ss[i].out| + k];
    }
    UnaddressedLog(sent, c);
    LogConcat(ss[i].out, sent, c);
    assert ss[i].out + sent == ss[j].out;
    if j < |es| {
      assert Next(ss[j], es[j], ss[j + 1]);
    }
  }

  /** A channel is closed by its client's departure and by nothing else, and at most once. */
  lemma {:induction false} ClosedOnceByDeparture(ss: seq<State>, es: seq<Event>, j: nat, c: ClientId)
    requires IsRun(ss, es) && j < |ss|
    ensures HasLeft(ss[j], c) <==> exists k :: 0 <= k < j && es[k] == Depart(c)
    ensures forall k, l :: 0 <= k < l < j && es[k] == Depart(c) ==> es[l] != Depart(c)
  {
    if j > 0 {
      ClosedOnceByDeparture(ss, es, j - 1, c);
      ClosingStep(ss, es, j - 1, c);
      if es[j - 1] == Depart(c) {
        assert HasLeft(ss[j], c);
      }
    }
  }

  lemma ClosingStep(ss: seq<State>, es: seq<Event>, i: nat, c: ClientId)
    requires IsRun(ss, es) && i < |es|
    ensures HasLeft(ss[i + 1], c) <==> es[i] == Depart(c) || HasLeft(ss[i], c)
    ensures HasLeft(ss[i], c) ==> es[i] != Depart(c)
  {
    RunKeepsInv(ss, es, i);
    assert Next(ss[i], es[i], ss[i + 1]);
    match es[i]
    case Incoming(d, m, order) => IncomingClosesNone(ss[i], d, m, order, c);
    case Depart(d) => DepartCloses(ss[i], d, c);
    case _ =>
  }

  lemma IncomingClosesNone(s: State, d: ClientId, m: Message, order: seq<string>, c: ClientId)
    requires Inv(s) && d in s.clients && s.clients[d].link == Attached && '\n' !in m.line
    ensures HasLeft(Parse(s, d, m, order), c) <==> HasLeft(s, c)
  {
    ParseActs(s, d, m, order);
    ParseKeepsMembers(s, d, m, order, Commands.Classify(m.line));
  }

  lemma DepartCloses(s: State, d: ClientId, c: ClientId)
    requires Inv(s) && d in s.clients && s.clients[d].link == Attached
    ensures HasLeft(Leave(s, d), c) <==> c == d || HasLeft(s, c)
  {
    if c != d && c in s.clients {
      LeaveActs(s, d);
      assert Heard(s, Leave(s, d), c);
    }
  }

  // ---------------------------------------------------------------- rooms over time

  /** A room that is dead once is never heard of again: no text is added to it, nobody enters it, no
      name leads to it, whatever its old name is used for. */
  lemma DeadRoomsStayDead(ss: seq<State>, es: seq<Event>, i: nat, j: nat, r: RoomId)
    requires IsRun(ss, es) && i <= j < |ss|
    requires r in ss[i].rooms && !Live(ss[i], r)
    ensures r in ss[j].rooms && ss[j].rooms[r] == ss[i].rooms[r]
    ensures forall n :: n in ss[j].names ==> ss[j].names[n] != r
    ensures forall c :: c in ss[j].clients ==> ss[j].clients[c].room != Some(r)
    ensures forall t :: t in ss[j].timers ==> ss[j].timers[t].room != r
  {
    RunAdvances(ss, es, i, j);
    RunKeepsInv(ss, es, j);
    var s := ss[j];
    forall n | n in s.names ensures s.names[n] != r {
      assert s.rooms[s.names[n]].name == n;
    }
  }

  /** Room identities are not reused: a room opened later is a different one, even under the same name. */
  lemma NewRoomsAreNew(ss: seq<State>, es: seq<Event>, i: nat, j: nat, q: RoomId, r: RoomId)
    requires IsRun(ss, es) && i <= j < |ss|
    requires r in ss[i].rooms && q in ss[j].rooms && q !in ss[i].rooms
    ensures q > r
  {
    RunAdvances(ss, es, i, j);
    RunKeepsInv(ss, es, i);
  }

  // ---------------------------------------------------------------- visits

  /** A completed visit has seen all it will ever see. What it saw is a prefix of the room's history,
      now and for ever, and of what any later visit of the client to the same room sees. */
  lemma VisitPrefixLaw(ss: seq<State>, es: seq<Event>, i: nat, j: nat, c: ClientId, v: nat, w: nat)
    requires IsRun(ss, es) && i <= j < |ss|
    requires c in ss[i].clients && Completed(ss[i].clients[c], v)
    ensures c in ss[j].clients && Seen(ss[j], c, v) == Seen(ss[i], c, v)
    ensures ss[i].clients[c].visits <= ss[j].clients[c].visits
    ensures var r := ss[i].clients[c].visits[v - 1];
            r in ss[j].rooms && Seen(ss[i], c, v) <= ss[j].rooms[r].messages
    ensures v < w <= |ss[j].clients[c].visits| && ss[j].clients[c].visits[w - 1] == ss[j].clients[c].visits[v - 1]
            ==> Seen(ss[i], c, v) <= Seen(ss[j], c, w)
  {
    RunAdvances(ss, es, i, j);
    RunKeepsInv(ss, es, j);
    assert VisitKept(ss[i], ss[j], c, v);
    assert Faithful(ss[j], c);
    assert SawPrefix(ss[j], c, v);
    if v < w <= |ss[j].clients[c].visits| {
      assert Grew(ss[j], c, v, w);
    }
  }

  /** Leaving a room: the visit ends with the client's own notice, seen after the whole history. */
  lemma RoomLeaveSeen(s: State, r: RoomId, c: ClientId)
    requires Inv(s) && c in s.clients && s.clients[c].room == Some(r)
    ensures Seen(RoomLeave(s, r, c), c, |s.clients[c].visits|) == s.rooms[r].messages + [Left(s.clients[c].name)]
    ensures RoomLeave(s, r, c).clients[c] == s.clients[c].(room := None)
  {
    var text := Left(s.clients[c].name);
    BroadcastDeliveries(s, r, text);
    assert Faithful(Broadcast(s, r, text), c);
  }

  /** The notice that ends a visit. */
  function Farewell(e: Event, name: string): Text {
    if e.Expire? then Inactive else Left(name)
  }

  /** Whenever an event ends a visit, the visit saw the room's whole history, followed by the client's
      own notice or by the notice of the room's deletion, and this is what the history then was. */
  lemma VisitEnd(s: State, e: Event, c: ClientId)
    requires Inv(s) && Enabled(s, e)
    requires c in s.clients && s.clients[c].room.Some?
    requires Completed(Step(s, e).clients[c], |s.clients[c].visits|)
    ensures var r, v := s.clients[c].room.value, |s.clients[c].visits|;
            var whole := s.rooms[r].messages + [Farewell(e, s.clients[c].name)];
            Seen(Step(s, e), c, v) == whole && whole <= Step(s, e).rooms[r].messages
  {
    var s' := Step(s, e);
    StepKeepsInv(s, e);
    if e.Expire? {
      FiringVisitEnd(s, e.timer, c);
    } else if e.Depart? && e.client == c {
      RoomLeaveSeen(s, s.clients[c].room.value, c);
      DepartKeepsVisit(s, c);
    } else if e.Incoming? && e.client == c {
      OwnVisitEnd(s, c, e.message, e.order, Commands.Classify(e.message.line));
    } else {
      Bystander(s, e, c);
    }
    SeenInHistory(s, s', c);
  }

  lemma SeenInHistory(s: State, s': State, c: ClientId)
    requires Deliveries(s) && Deliveries(s') && ClientsAdvance(s, s')
    requires c in s.clients && s.clients[c].room.Some?
    ensures s.clients[c].room.value in s'.rooms
    ensures Seen(s', c, |s.clients[c].visits|) <= s'.rooms[s.clients[c].room.value].messages
  {
    assert Faithful(s, c) && Faithful(s', c);
    assert SawPrefix(s', c, |s.clients[c].visits|);
  }

  lemma FiringVisitEnd(s: State, t: TimerId, c: ClientId)
    requires Inv(s) && Enabled(s, Expire(t))
    requires c in s.clients && s.clients[c].room.Some?
    requires Completed(Fire(s, t).clients[c], |s.clients[c].visits|)
    ensures Seen(Fire(s, t), c, |s.clients[c].visits|) == s.rooms[s.clients[c].room.value].messages + [Inactive]
  {
    var r, v := s.clients[c].room.value, |s.clients[c].visits|;
    FireHeard(s, t, c);
    assert Faithful(s, c);
    var d := FromRoom(r, v, Inactive);
    TranscriptConcat(Log(s.out, c), [d], v);
    assert [d][..0] == [];
  }

  lemma OwnVisitEnd(s: State, c: ClientId, m: Message, order: seq<string>, command: Commands.Command)
    requires Inv(s) && c in s.clients && s.clients[c].link == Attached && s.clients[c].room.Some?
    requires Completed(Perform(s, c, m, order, command).clients[c], |s.clients[c].visits|)
    ensures Seen(Perform(s, c, m, order, command), c, |s.clients[c].visits|)
            == s.rooms[s.clients[c].room.value].messages + [Left(s.clients[c].name)]
  {
    RoomLeaveSeen(s, s.clients[c].room.value, c);
    if command.Join? && command.name in s.names {
      SwitchKeepsVisit(s, c, command.name);
    } else if !command.LeaveRoom? {
      StaysPut(s, c, m, order, command);
    }
  }

  lemma DepartKeepsVisit(s: State, c: ClientId)
    requires Inv(s) && c in s.clients && s.clients[c].link == Attached && s.clients[c].room.Some?
    ensures Seen(Leave(s, c), c, |s.clients[c].visits|)
            == Seen(RoomLeave(s, s.clients[c].room.value, c), c, |s.clients[c].visits|)
  {
  }

  /** Moving on to another room, or to the same one again, adds nothing to the visit just ended. */
  lemma SwitchKeepsVisit(s: State, c: ClientId, name: string)
    requires Inv(s) && c in s.clients && s.clients[c].link == Attached && s.clients[c].room.Some? && name in s.names
    ensures Seen(JoinChatRoom(s, c, name), c, |s.clients[c].visits|)
            == Seen(RoomLeave(s, s.clients[c].room.value, c), c, |s.clients[c].visits|)
  {
    var r, v := s.clients[c].room.value, |s.clients[c].visits|;
    var s1 := RoomLeave(s, r, c);
    RoomLeaveActs(s, r, c);
    RoomLeaveSeen(s, r, c);
    assert Faithful(s, c);
    RoomJoinActs(s1, s1.names[name], c);
    assert VisitKept(s1, RoomJoin(s1, s1.names[name], c), c, v);
  }

  lemma StaysPut(s: State, c: ClientId, m: Message, order: seq<string>, command: Commands.Command)
    requires Resolved(s) && c in s.clients && !command.LeaveRoom? && !(command.Join? && command.name in s.names)
    ensures var client := Perform(s, c, m, order, command).clients[c];
            client.room == s.clients[c].room && client.visits == s.clients[c].visits
  {
  }

  /** In every state of every run all members of a live room have seen, during their current visits,
      exactly the room's history, whenever they joined. */
  lemma MembersSeeHistory(ss: seq<State>, es: seq<Event>, i: nat, r: RoomId, c: ClientId, d: ClientId)
    requires IsRun(ss, es) && i < |ss| && Live(ss[i], r)
    requires c in ss[i].rooms[r].members && d in ss[i].rooms[r].members
    ensures c in ss[i].clients && d in ss[i].clients
    ensures Seen(ss[i], c, |ss[i].clients[c].visits|) == ss[i].rooms[r].messages
    ensures Seen(ss[i], d, |ss[i].clients[d].visits|) == ss[i].rooms[r].messages
  {
    RunKeepsInv(ss, es, i);
    TranscriptIsHistory(ss[i], r, c, d);
  }

  // ---------------------------------------------------------------- isolation

  /** A client that did not cause the event hears exactly what was added to the history of its room,
      in order and once; when its room is removed it hears the notice and is back in the lobby. */
  lemma Bystander(s: State, e: Event, x: ClientId)
    requires Inv(s) && Enabled(s, e) && x in s.clients
    requires e.Incoming? || e.Depart? ==> e.client != x
    ensures var s' := Step(s, e);
            if e.Expire? && s.rooms[s.timers[e.timer].room].expiry <= s.now
               && s.clients[x].room == Some(s.timers[e.timer].room) then
              var r := s.timers[e.timer].room;
              && s'.clients[x] == s.clients[x].(room := None)
              && s'.rooms[r].messages == s.rooms[r].messages + [Inactive]
              && Log(s'.out, x) == Log(s.out, x) + [FromRoom(r, |s.clients[x].visits|, Inactive)]
            else Heard(s, s', x)
  {
    match e
    case Arrive(c) => JoinActs(s, c);
    case Incoming(c, m, order) => ParseActs(s, c, m, order);
    case Depart(c) => LeaveActs(s, c);
    case Start(t) => NothingAdded(s, Step(s, e), x);
    case Expire(t) => FireHeard(s, t, x);
    case Tick(time) => NothingAdded(s, Step(s, e), x);
  }

  /** When a client departs, each other member of its room is sent the notice of leaving, once and as the
      last entry of the history, and nobody else is sent anything. */
  lemma DepartureHeard(s: State, c: ClientId, x: ClientId)
    requires Inv(s) && c in s.clients && s.clients[c].link == Attached && x in s.clients && x != c
    ensures var s' := Leave(s, c);
            match s.clients[c].room
            case Some(r) =>
              var text := Left(s.clients[c].name);
              && s'.rooms[r].messages == s.rooms[r].messages + [text]
              && Log(s'.out, x) == Log(s.out, x)
                 + (if s.clients[x].room == Some(r) then [FromRoom(r, |s.clients[x].visits|, text)] else [])
            case None => Log(s'.out, x) == Log(s.out, x)
  {
    if s.clients[c].room.Some? {
      var r := s.clients[c].room.value;
      BroadcastLog(s, r, Left(s.clients[c].name), x);
      assert s.clients[x].room == Some(r) <==> x in s.rooms[r].members;
    }
  }

  /** An event leaves every room alone but the one its client was in, the one it is in afterwards, and
      the one whose timer fired: members, history and expiry stay as they are. */
  lemma OtherRoomsUntouched(s: State, e: Event, q: RoomId)
    requires Inv(s) && Enabled(s, e) && q in s.rooms
    requires e.Incoming? || e.Depart? ==>
               s.clients[e.client].room != Some(q) && Step(s, e).clients[e.client].room != Some(q)
    requires e.Expire? ==> s.timers[e.timer].room != q
    ensures q in Step(s, e).rooms && Step(s, e).rooms[q] == s.rooms[q]
  {
    match e
    case Incoming(c, m, order) => ParseOtherRooms(s, c, m, order, Commands.Classify(m.line), q);
    case Expire(t) => FiringRemovesOnlyItsRoom(s, t, q);
    case _ =>
  }

  lemma ParseOtherRooms(s: State, c: ClientId, m: Message, order: seq<string>, command: Commands.Command, q: RoomId)
    requires Resolved(s) && FreshIds(s) && c in s.clients && q in s.rooms
    requires s.clients[c].room != Some(q) && Perform(s, c, m, order, command).clients[c].room != Some(q)
    ensures Perform(s, c, m, order, command).rooms[q] == s.rooms[q]
  {
  }

  // ---------------------------------------------------------------- commands without effect

  /** The command asks only for information, or is one the server has to turn down, or changes nothing. */
  predicate NoEffect(s: State, c: ClientId, command: Commands.Command)
    requires c in s.clients
  {
    match command
    case Create(name) => name in s.names
    case Join(name) => name !in s.names
    case LeaveRoom => s.clients[c].room.None?
    case Say => s.clients[c].room.None?
    case Rename(name) => s.clients[c].room.None? && s.clients[c].name == name
    case Quit => s.clients[c].hungUp
    case List => true
    case Help => true
  }

  /** What the server answers to such a command. */
  function Answer(order: seq<string>, command: Commands.Command): seq<Text> {
    match command
    case Create(name) => [ErrorCreate]
    case Join(name) => [ErrorJoin]
    case LeaveRoom => [ErrorLeave]
    case Say => [ErrorSend]
    case Rename(name) => [Renamed(name, name)]
    case Quit => []
    case List => [Blank, RoomsHeading] + RoomLines(order) + [Blank]
    case Help => HelpTexts()
  }

  /** A line leaves clients, rooms, names and timers as they were exactly when its command is one of
      those; all that is sent then is the answer to the client itself, which carries no room text. */
  lemma NoEffectIff(s: State, c: ClientId, m: Message, order: seq<string>, command: Commands.Command)
    requires Inv(s) && c in s.clients
    ensures var s' := Perform(s, c, m, order, command);
            s' == s.(out := s'.out) <==> NoEffect(s, c, command)
    ensures NoEffect(s, c, command) ==> Perform(s, c, m, order, command) == Tell(s, c, Answer(order, command))
  {
    if NoEffect(s, c, command) {
      NoEffectReplies(s, c, m, order, command);
    } else if command.Create? {
      assert Perform(s, c, m, order, command).nextRoom == s.nextRoom + 1;
    } else {
      Affects(s, c, m, order, command);
    }
  }

  lemma NoEffectReplies(s: State, c: ClientId, m: Message, order: seq<string>, command: Commands.Command)
    requires Resolved(s) && c in s.clients && NoEffect(s, c, command)
    ensures Perform(s, c, m, order, command) == Tell(s, c, Answer(order, command))
  {
    if command.Quit? {
      assert Tell(s, c, []) == s && s.clients[c := s.clients[c].(hungUp := true)] == s.clients;
    } else if command.Rename? {
      assert s.clients[c := s.clients[c].(name := command.name)] == s.clients;
    }
  }

  lemma Affects(s: State, c: ClientId, m: Message, order: seq<string>, command: Commands.Command)
    requires Resolved(s) && c in s.clients && !NoEffect(s, c, command) && !command.Create?
    ensures var s' := Perform(s, c, m, order, command);
            || s'.clients[c] != s.clients[c]
            || exists r :: r in s.rooms && s'.rooms[r].messages != s.rooms[r].messages
  {
    var s' := Perform(s, c, m, order, command);
    if command.Join? && s.clients[c].room == Some(s.names[command.name]) {
      var r := s.names[command.name];
      assert |s'.rooms[r].messages| == |s.rooms[r].messages| + 2;
    } else if command.Join? {
      var r := s.names[command.name];
      assert |s'.rooms[r].messages| == |s.rooms[r].messages| + 1;
    } else if s.clients[c].room.Some? && !command.Quit? {
      var r := s.clients[c].room.value;
      assert |s'.rooms[r].messages| == |s.rooms[r].messages| + 1;
    }
  }

  // ---------------------------------------------------------------- expiry over time

  /** In every reachable state the expiry of a room is its last activity plus `EXPIRY_TIME`, and it
      never moves back. */
  lemma ExpiryIsLastActivity(ss: seq<State>, es: seq<Event>, i: nat, j: nat, r: RoomId)
    requires IsRun(ss, es) && i <= j < |ss| && r in ss[i].rooms
    ensures r in ss[j].rooms && ss[i].rooms[r].expiry <= ss[j].rooms[r].expiry
    ensures ss[j].rooms[r].expiry == EXPIRY_TIME + LastActivity(ss[j].rooms[r])
    ensures |ss[j].rooms[r].stamps| == |ss[j].rooms[r].messages|
  {
    RunAdvances(ss, es, i, j);
    RunKeepsInv(ss, es, j);
    assert RoomClock(ss[j].rooms[r], ss[j].now);
  }

  /** A run goes on with any event that is possible. */
  lemma GoOn(ss: seq<State>, es: seq<Event>, e: Event) returns (ts: seq<State>, fs: seq<Event>)
    requires IsRun(ss, es) && Enabled(ss[|ss| - 1], e)
    ensures Resolved(ss[|ss| - 1])
    ensures IsRun(ts, fs) && ts == ss + [Step(ss[|ss| - 1], e)] && fs == es + [e]
  {
    RunKeepsInv(ss, es, |ss| - 1);
    ts, fs := ss + [Step(ss[|ss| - 1], e)], es + [e];
    forall i | 0 <= i < |fs| ensures Next(ts[i], fs[i], ts[i + 1]) {
      if i < |es| {
        assert Next(ss[i], es[i], ss[i + 1]);
      }
    }
  }

  /** The state occurs in some run. */
  ghost predicate Reached(s: State) {
    exists ss, es :: IsRun(ss, es) && ss[|ss| - 1] == s
  }

  lemma InitReached(now: Time)
    ensures Reached(Init(now))
  {
    assert IsRun([Init(now)], []) && [Init(now)][0] == Init(now);
  }

  lemma ReachedInv(s: State)
    requires Reached(s)
    ensures Inv(s)
  {
    var ss, es :| IsRun(ss, es) && ss[|ss| - 1] == s;
    RunKeepsInv(ss, es, |ss| - 1);
  }

  lemma ReachedNext(s: State, e: Event)
    requires Reached(s) && Enabled(s, e)
    ensures Resolved(s) && Resolved(Step(s, e)) && Reached(Step(s, e))
  {
    var ss, es :| IsRun(ss, es) && ss[|ss| - 1] == s;
    var ts, fs := GoOn(ss, es, e);
    ReachedInv(Step(s, e));
  }

  /** A run in which the only client has just opened the only room. */
  lemma FirstRoom() returns (ss: seq<State>, es: seq<Event>)
    ensures IsRun(ss, es)
    ensures var s := ss[|ss| - 1];
            s.now == 0 && s.timers == map[0 := Timer(0, Fresh)] && Live(s, 0) && s.rooms[0].expiry == EXPIRY_TIME
  {
    ss, es := [Init(0)], [];
    ss, es := GoOn(ss, es, Arrive(0));
    var s1 := ss[|ss| - 1];
    assert s1.clients[0].link == Attached && Enumerates([], s1.names);
    Commands.SpacelessCreate("");
    assert Commands.CMD_CREATE + "" == Commands.CMD_CREATE;
    ss, es := GoOn(ss, es, Incoming(0, Message(0, Commands.CMD_CREATE), []));
    var s2 := ss[|ss| - 1];
    assert s2 == CreateChatRoom(s1, 0, Commands.CMD_CREATE);
    assert s1.timers == map[] && s1.nextTimer == 0 && s1.nextRoom == 0 && s1.now == 0;
  }

  /** A late start does leave an expired room alive: here the first timer of a room starts one
      nanosecond late, and a week after its creation the idle room is expired, no timer is due or
      unstarted, and the room is still there. */
  lemma LateStartLeavesExpiredRoom() returns (ss: seq<State>, es: seq<Event>)
    ensures IsRun(ss, es)
    ensures var s := ss[|ss| - 1];
            && (forall t :: t in s.timers ==> s.timers[t].phase.Sleeping? && s.now < s.timers[t].phase.due)
            && Live(s, 0) && s.rooms[0].expiry <= s.now
  {
    ss, es := FirstRoom();
    ss, es := GoOn(ss, es, Tick(1));
    ss, es := GoOn(ss, es, Start(0));
    ss, es := GoOn(ss, es, Tick(EXPIRY_TIME));
  }
}
