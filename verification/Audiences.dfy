/** What each event makes the lobby send to whom, and how many texts, read off the state before it. */
module Audiences {
  import opened GoStrings
  import opened LobbyModel
  import opened Membership
  import opened Transcripts
  import Commands

  // ---------------------------------------------------------------- the texts of a line

  /** What client `x` is sent of something client `c` does: a text to its room or an answer to it alone. */
  function Notice(s: State, c: ClientId, answer: Text, text: Text, x: ClientId): seq<Delivery>
    requires Resolved(s) && c in s.clients
  {
    match s.clients[c].room
    case None => if x == c then [Private(answer)] else []
    case Some(r) => if x in s.rooms[r].members then [FromRoom(r, VisitNumber(s.clients, x), text)] else []
  }

  /** What client `x` is sent when `c` joins room `q`: the farewell of the room `c` leaves, if any; the
      replay, to `c` alone; and the notice that `c` joined. */
  function JoinSends(s: State, c: ClientId, q: RoomId, x: ClientId): seq<Delivery>
    requires Resolved(s) && c in s.clients && q in s.rooms
  {
    var room, name := s.clients[c].room, s.clients[c].name;
    var farewell := if room.Some? then Notice(s, c, ErrorLeave, Left(name), x) else [];
    var history := s.rooms[q].messages + if room == Some(q) then [Left(name)] else [];
    var replay := if x == c then Tagged(q, VisitNumber(s.clients, c) + 1, history) else [];
    var visit := VisitNumber(s.clients, x) + if x == c then 1 else 0;
    var joined := if x == c || x in s.rooms[q].members then [FromRoom(q, visit, Joined(name))] else [];
    farewell + replay + joined
  }

  /** What client `x` is sent of a line of client `c`. */
  function LineSends(s: State, c: ClientId, m: Message, order: seq<string>, command: Commands.Command, x: ClientId)
    : seq<Delivery>
    requires Resolved(s) && c in s.clients
  {
    var own := x == c;
    var name := s.clients[c].name;
    match command
    case Create(n) => if own then [Private(if n in s.names then ErrorCreate else Created(n))] else []
    case List => if own then Privately([Blank, RoomsHeading] + RoomLines(order) + [Blank]) else []
    case Help => if own then Privately(HelpTexts()) else []
    case Quit => []
    case LeaveRoom => Notice(s, c, ErrorLeave, Left(name), x)
    case Rename(n) => Notice(s, c, Renamed(name, n), Renamed(name, n), x)
    case Say => Notice(s, c, ErrorSend, Said(m.time, name, m.line), x)
    case Join(n) =>
      if n in s.names then JoinSends(s, c, s.names[n], x)
      else if own then [Private(ErrorJoin)] else []
  }

  /** What client `x` is sent of an event. */
  function Sends(s: State, e: Event, x: ClientId): seq<Delivery>
    requires Resolved(s) && Enabled(s, e)
  {
    match e
    case Arrive(c) => if x == c && |s.members| < MAX_CLIENTS then [Private(Welcome)] else []
    case Incoming(c, m, order) => LineSends(s, c, m, order, Commands.Classify(m.line), x)
    case Depart(c) => if s.clients[c].room.Some? then Notice(s, c, ErrorLeave, Left(s.clients[c].name), x) else []
    case Expire(t) =>
      var r := s.timers[t].room;
      if s.rooms[r].expiry <= s.now && x in s.rooms[r].members
      then [FromRoom(r, VisitNumber(s.clients, x), Inactive)] else []
    case Start(t) => []
    case Tick(time) => []
  }

  // ---------------------------------------------------------------- that is what is sent

  lemma RoomJoinSends(s: State, q: RoomId, c: ClientId, x: ClientId)
    requires q in s.rooms && c in s.clients && Distinct(s.rooms[q].members) && c !in s.rooms[q].members
    ensures var visit := VisitNumber(s.clients, x) + if x == c then 1 else 0;
            var replay := if x == c then Tagged(q, VisitNumber(s.clients, c) + 1, s.rooms[q].messages) else [];
            var joined := if x == c || x in s.rooms[q].members
                          then [FromRoom(q, visit, Joined(s.clients[c].name))] else [];
            Log(RoomJoin(s, q, c).out, x) == Log(s.out, x) + replay + joined
  {
    EnterLog(s, q, c, x);
    BroadcastLog(Enter(s, q, c), q, Joined(s.clients[c].name), x);
  }

  lemma NoticeToRoom(s: State, c: ClientId, answer: Text, text: Text, x: ClientId)
    requires Agreement(s) && c in s.clients && s.clients[c].room.Some?
    ensures Log(Broadcast(s, s.clients[c].room.value, text).out, x) == Log(s.out, x) + Notice(s, c, answer, text, x)
  {
    assert Live(s, s.clients[c].room.value);
    BroadcastLog(s, s.clients[c].room.value, text, x);
  }

  lemma NoticeToOne(s: State, c: ClientId, answer: Text, text: Text, x: ClientId)
    requires Resolved(s) && c in s.clients && s.clients[c].room.None?
    ensures Log(Tell(s, c, [answer]).out, x) == Log(s.out, x) + Notice(s, c, answer, text, x)
  {
    TellLog(s, c, [answer], x);
    assert Privately([answer]) == [Private(answer)];
  }

  /** A change from one room to another, or to the same one again. */
  lemma ChangeSends(s: State, r: RoomId, q: RoomId, c: ClientId, x: ClientId)
    requires Resolved(s) && c in s.clients && s.clients[c].room == Some(r) && q in s.rooms
    requires Distinct(s.rooms[r].members) && Distinct(s.rooms[q].members)
    requires c in s.rooms[r].members && (q != r ==> c !in s.rooms[q].members)
    ensures Log(RoomJoin(RoomLeave(s, r, c), q, c).out, x) == Log(s.out, x) + JoinSends(s, c, q, x)
  {
    var s1 := RoomLeave(s, r, c);
    BroadcastLog(s, r, Left(s.clients[c].name), x);
    RemoveFromDistinct(s.rooms[r].members, c);
    AfterFarewell(s, r, q, c);
    RoomJoinSends(s1, q, c, x);
    var farewell := Notice(s, c, ErrorLeave, Left(s.clients[c].name), x);
    assert Log(s1.out, x) == Log(s.out, x) + farewell;
    var replay := if x == c then Tagged(q, VisitNumber(s1.clients, c) + 1, s1.rooms[q].messages) else [];
    var visit := VisitNumber(s1.clients, x) + if x == c then 1 else 0;
    var joined := if x == c || x in s1.rooms[q].members then [FromRoom(q, visit, Joined(s.clients[c].name))] else [];
    assert JoinSends(s, c, q, x) == farewell + replay + joined;
    Regroup(Log(s.out, x), farewell, replay, joined);
  }

  lemma Regroup(a: seq<Delivery>, b: seq<Delivery>, c: seq<Delivery>, d: seq<Delivery>)
    ensures a + b + c + d == a + (b + c + d)
  {
  }

  lemma AfterFarewell(s: State, r: RoomId, q: RoomId, c: ClientId)
    requires c in s.clients && r in s.rooms && q in s.rooms && Distinct(s.rooms[r].members)
    ensures var s1 := RoomLeave(s, r, c);
            && s1.rooms[q].messages == s.rooms[q].messages + (if q == r then [Left(s.clients[c].name)] else [])
            && (forall x :: x in s1.rooms[q].members <==> x in s.rooms[q].members && !(q == r && x == c))
            && (Distinct(s.rooms[q].members) ==> Distinct(s1.rooms[q].members))
            && s1.clients[c].name == s.clients[c].name
            && forall x :: VisitNumber(s1.clients, x) == VisitNumber(s.clients, x)
  {
    RemoveFromDistinct(s.rooms[r].members, c);
  }

  /** A join by a client that is in no room. */
  lemma FirstJoinSends(s: State, q: RoomId, c: ClientId, x: ClientId)
    requires Resolved(s) && c in s.clients && s.clients[c].room.None? && q in s.rooms
    requires Distinct(s.rooms[q].members) && c !in s.rooms[q].members
    ensures Log(RoomJoin(s, q, c).out, x) == Log(s.out, x) + JoinSends(s, c, q, x)
  {
    RoomJoinSends(s, q, c, x);
    var replay := if x == c then Tagged(q, VisitNumber(s.clients, c) + 1, s.rooms[q].messages) else [];
    var visit := VisitNumber(s.clients, x) + if x == c then 1 else 0;
    var joined := if x == c || x in s.rooms[q].members then [FromRoom(q, visit, Joined(s.clients[c].name))] else [];
    assert s.rooms[q].messages + [] == s.rooms[q].messages;
    assert JoinSends(s, c, q, x) == [] + replay + joined;
    Regroup(Log(s.out, x), [], replay, joined);
    assert Log(s.out, x) + [] == Log(s.out, x);
  }

  lemma SwitchSends(s: State, c: ClientId, name: string, x: ClientId)
    requires Agreement(s) && c in s.clients && name in s.names
    ensures Log(JoinChatRoom(s, c, name).out, x) == Log(s.out, x) + JoinSends(s, c, s.names[name], x)
  {
    var q := s.names[name];
    assert Live(s, q);
    if s.clients[c].room.Some? {
      assert Live(s, s.clients[c].room.value);
      ChangeSends(s, s.clients[c].room.value, q, c, x);
      SwitchIsChange(s, c, name);
    } else {
      FirstJoinSends(s, q, c, x);
    }
  }

  lemma SwitchIsChange(s: State, c: ClientId, name: string)
    requires Resolved(s) && c in s.clients && name in s.names && s.clients[c].room.Some?
    ensures JoinChatRoom(s, c, name) == RoomJoin(RoomLeave(s, s.clients[c].room.value, c), s.names[name], c)
  {
  }

  lemma CreateSends(s: State, c: ClientId, n: string, x: ClientId)
    ensures Log(CreateChatRoom(s, c, n).out, x) == Log(s.out, x)
            + if x == c then [Private(if n in s.names then ErrorCreate else Created(n))] else []
  {
    var text := if n in s.names then ErrorCreate else Created(n);
    TellLog(if n in s.names then s else OpenRoom(s, n), c, [text], x);
    assert Privately([text]) == [Private(text)];
  }

  lemma RenameSends(s: State, c: ClientId, n: string, x: ClientId)
    requires Agreement(s) && c in s.clients
    ensures var text := Renamed(s.clients[c].name, n);
            Log(ChangeName(s, c, n).out, x) == Log(s.out, x) + Notice(s, c, text, text, x)
  {
    var text := Renamed(s.clients[c].name, n);
    if s.clients[c].room.Some? {
      NoticeToRoom(s, c, text, text, x);
    } else {
      NoticeToOne(s, c, text, text, x);
    }
  }

  /** A line makes the lobby send to every client, the one that typed it included, exactly this. */
  lemma LineSent(s: State, c: ClientId, m: Message, order: seq<string>, command: Commands.Command, x: ClientId)
    requires Agreement(s) && c in s.clients
    ensures Log(Perform(s, c, m, order, command).out, x) == Log(s.out, x) + LineSends(s, c, m, order, command, x)
  {
    match command
    case Create(n) => CreateSends(s, c, n, x);
    case List => TellLog(s, c, [Blank, RoomsHeading] + RoomLines(order) + [Blank], x);
    case Help => TellLog(s, c, HelpTexts(), x);
    case Quit =>
    case LeaveRoom => LeaveSends(s, c, x);
    case Rename(n) => RenameSends(s, c, n, x);
    case Say => SaySends(s, c, m, x);
    case Join(n) =>
      if n in s.names {
        SwitchSends(s, c, n, x);
      } else {
        TellLog(s, c, [ErrorJoin], x);
        assert Privately([ErrorJoin]) == [Private(ErrorJoin)];
      }
  }

  lemma LeaveSends(s: State, c: ClientId, x: ClientId)
    requires Agreement(s) && c in s.clients
    ensures Log(LeaveChatRoom(s, c).out, x) == Log(s.out, x) + Notice(s, c, ErrorLeave, Left(s.clients[c].name), x)
  {
    if s.clients[c].room.Some? {
      NoticeToRoom(s, c, ErrorLeave, Left(s.clients[c].name), x);
    } else {
      NoticeToOne(s, c, ErrorLeave, Left(s.clients[c].name), x);
    }
  }

  lemma SaySends(s: State, c: ClientId, m: Message, x: ClientId)
    requires Agreement(s) && c in s.clients
    ensures Log(SendMessage(s, c, m).out, x)
            == Log(s.out, x) + Notice(s, c, ErrorSend, Said(m.time, s.clients[c].name, m.line), x)
  {
    if s.clients[c].room.Some? {
      NoticeToRoom(s, c, ErrorSend, Said(m.time, s.clients[c].name, m.line), x);
    } else {
      NoticeToOne(s, c, ErrorSend, Said(m.time, s.clients[c].name, m.line), x);
    }
  }

  lemma DepartSends(s: State, c: ClientId, x: ClientId)
    requires Agreement(s) && c in s.clients
    ensures Log(Leave(s, c).out, x) == Log(s.out, x)
            + if s.clients[c].room.Some? then Notice(s, c, ErrorLeave, Left(s.clients[c].name), x) else []
  {
    if s.clients[c].room.Some? {
      NoticeToRoom(s, c, ErrorLeave, Left(s.clients[c].name), x);
    }
  }

  lemma FireSends(s: State, t: TimerId, x: ClientId)
    requires Resolved(s) && t in s.timers && Distinct(s.rooms[s.timers[t].room].members)
    ensures var r := s.timers[t].room;
            Log(Fire(s, t).out, x) == Log(s.out, x)
            + if s.rooms[r].expiry <= s.now && x in s.rooms[r].members
              then [FromRoom(r, VisitNumber(s.clients, x), Inactive)] else []
  {
    BroadcastLog(s.(timers := s.timers - {t}), s.timers[t].room, Inactive, x);
  }

  /** An event makes the lobby send to every client exactly what can be read off the state before it. */
  lemma EventSent(s: State, e: Event, x: ClientId)
    requires Agreement(s) && Enabled(s, e)
    requires e.Expire? ==> Live(s, s.timers[e.timer].room)
    ensures Log(Step(s, e).out, x) == Log(s.out, x) + Sends(s, e, x)
  {
    match e
    case Arrive(c) =>
      if |s.members| < MAX_CLIENTS {
        TellLog(Admit(s, c), c, [Welcome], x);
        assert Privately([Welcome]) == [Private(Welcome)];
      }
    case Incoming(c, m, order) => LineSent(s, c, m, order, Commands.Classify(m.line), x);
    case Depart(c) => DepartSends(s, c, x);
    case Expire(t) => FireSends(s, t, x);
    case _ =>
  }

  // ---------------------------------------------------------------- how many texts

  /** How many texts a line makes the lobby send to `x`. */
  function LineTexts(s: State, c: ClientId, command: Commands.Command, x: ClientId): nat
    requires Resolved(s) && c in s.clients
  {
    var own := if x == c then 1 else 0;
    var here := if s.clients[c].room.None? then own
                else if x in s.rooms[s.clients[c].room.value].members then 1 else 0;
    match command
    case Create(name) => own
    case List => own * (|s.names| + 3)
    case Help => own * 10
    case Quit => 0
    case LeaveRoom => here
    case Rename(name) => here
    case Say => here
    case Join(name) =>
      if name !in s.names then own
      else
        var q := s.names[name];
        var back := if s.clients[c].room == Some(q) then 1 else 0;
        (if s.clients[c].room.Some? then here else 0)
        + own * (|s.rooms[q].messages| + back)
        + if x == c || x in s.rooms[q].members then 1 else 0
  }

  /** How many texts an event makes the lobby send to `x`: known before the event is handled, whatever the
      order in which Go walks through the room map. */
  function Texts(s: State, e: Event, x: ClientId): nat
    requires Resolved(s) && Enabled(s, e)
  {
    match e
    case Arrive(c) => if x == c && |s.members| < MAX_CLIENTS then 1 else 0
    case Incoming(c, m, order) => LineTexts(s, c, Commands.Classify(m.line), x)
    case Depart(c) =>
      if s.clients[c].room.Some? && x in s.rooms[s.clients[c].room.value].members then 1 else 0
    case Expire(t) =>
      var room := s.rooms[s.timers[t].room];
      if room.expiry <= s.now && x in room.members then 1 else 0
    case Start(t) => 0
    case Tick(time) => 0
  }

  lemma {:induction false} PrivatelySize(texts: seq<Text>)
    ensures |Privately(texts)| == |texts|
  {
    if texts != [] {
      PrivatelySize(texts[..|texts| - 1]);
    }
  }

  lemma {:induction false} TaggedSize(r: RoomId, visit: nat, texts: seq<Text>)
    ensures |Tagged(r, visit, texts)| == |texts|
  {
    if texts != [] {
      TaggedSize(r, visit, texts[..|texts| - 1]);
    }
  }

  lemma {:induction false} RoomLinesSize(names: seq<string>)
    ensures |RoomLines(names)| == |names|
  {
    if names != [] {
      RoomLinesSize(names[..|names| - 1]);
    }
  }

  /** Answers go to one client, text by text; the room list has one line for each name, in order. */
  lemma {:induction false} PrivatelyAt(texts: seq<Text>, i: nat)
    requires i < |texts|
    ensures |Privately(texts)| == |texts| && Privately(texts)[i] == Private(texts[i])
  {
    PrivatelySize(texts[..|texts| - 1]);
    if i < |texts| - 1 {
      PrivatelyAt(texts[..|texts| - 1], i);
    }
  }

  lemma {:induction false} RoomLinesAt(names: seq<string>, i: nat)
    requires i < |names|
    ensures |RoomLines(names)| == |names| && RoomLines(names)[i] == RoomLine(names[i])
  {
    RoomLinesSize(names[..|names| - 1]);
    if i < |names| - 1 {
      RoomLinesAt(names[..|names| - 1], i);
    }
  }

  lemma {:induction false} EachOnce(order: seq<string>, keys: set<string>)
    requires Distinct(order) && forall n :: n in order <==> n in keys
    ensures |order| == |keys|
  {
    if order == [] {
      assert keys == {};
    } else {
      var k := |order| - 1;
      var front, last := order[..k], order[k];
      assert last !in front && last in keys;
      forall n ensures n in front <==> n in keys - {last} {
        assert n in order <==> n in front || n == last;
      }
      EachOnce(front, keys - {last});
    }
  }

  lemma LineSendsSize(s: State, c: ClientId, m: Message, order: seq<string>, command: Commands.Command, x: ClientId)
    requires Resolved(s) && c in s.clients && Enumerates(order, s.names)
    ensures |LineSends(s, c, m, order, command, x)| == LineTexts(s, c, command, x)
  {
    match command
    case List =>
      EachOnce(order, s.names.Keys);
      RoomLinesSize(order);
      PrivatelySize([Blank, RoomsHeading] + RoomLines(order) + [Blank]);
    case Help => PrivatelySize(HelpTexts());
    case Join(name) =>
      if name in s.names {
        var q := s.names[name];
        var history := s.rooms[q].messages + if s.clients[c].room == Some(q) then [Left(s.clients[c].name)] else [];
        TaggedSize(q, VisitNumber(s.clients, c) + 1, history);
      }
    case _ =>
  }

  /** The number of texts sent to every client is as foretold. */
  lemma TextsSent(s: State, e: Event, x: ClientId)
    requires Agreement(s) && Enabled(s, e)
    requires e.Expire? ==> Live(s, s.timers[e.timer].room)
    ensures |Log(Step(s, e).out, x)| == |Log(s.out, x)| + Texts(s, e, x)
  {
    EventSent(s, e, x);
    if e.Incoming? {
      LineSendsSize(s, e.client, e.message, e.order, Commands.Classify(e.message.line), x);
    }
  }
}
