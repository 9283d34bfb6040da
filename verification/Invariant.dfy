/** The invariant of the lobby, kept by every event, and what one event may change. */
module Invariant {
  import opened GoStrings
  import opened LobbyModel
  import opened Membership
  import opened Transcripts
  import opened Expiry

  ghost predicate Inv(s: State) {
    Agreement(s) && Deliveries(s) && Timing(s)
  }

  // ---------------------------------------------------------------- what an event may change

  /** Clients never come back, and are never forgotten. */
  ghost predicate ClientsAdvance(s: State, s': State) {
    forall c :: c in s.clients ==>
      && c in s'.clients
      && (s'.clients[c].link == s.clients[c].link || (s.clients[c].link == Attached && s'.clients[c].link == Detached))
      && s.clients[c].visits <= s'.clients[c].visits
  }

  /** Histories only grow, expiries only move forward, and a dead room stays exactly as it was. */
  ghost predicate RoomsAdvance(s: State, s': State) {
    forall r :: r in s.rooms ==>
      && r in s'.rooms
      && s'.rooms[r].name == s.rooms[r].name
      && s'.rooms[r].created == s.rooms[r].created
      && s.rooms[r].messages <= s'.rooms[r].messages
      && s.rooms[r].expiry <= s'.rooms[r].expiry
      && (!Live(s, r) ==> s'.rooms[r] == s.rooms[r] && !Live(s', r))
  }

  /** Sends are never taken back, and new ones go only to clients whose channel is still open. */
  ghost predicate SendsAdvance(s: State, s': State) {
    && s.out <= s'.out
    && (forall i :: |s.out| <= i < |s'.out| ==>
          var c := s'.out[i].to;
          c in s'.clients && (c in s.clients ==> s.clients[c].link == Attached))
  }

  /** A visit that is over: a later one has begun, or the client is in no room. */
  ghost predicate Completed(client: Client, v: nat) {
    1 <= v <= |client.visits| && (v < |client.visits| || client.room.None?)
  }

  /** Nothing is added to what a completed visit saw. */
  ghost predicate VisitKept(s: State, s': State, c: ClientId, v: nat)
    requires c in s.clients && c in s'.clients
  {
    Completed(s.clients[c], v) ==> Completed(s'.clients[c], v) && Seen(s', c, v) == Seen(s, c, v)
  }

  ghost predicate PastKept(s: State, s': State) {
    forall c, v: nat :: c in s.clients ==> c in s'.clients && VisitKept(s, s', c, v)
  }

  ghost predicate Advances(s: State, s': State) {
    && s.now <= s'.now
    && s.nextRoom <= s'.nextRoom
    && (forall r :: r in s'.rooms && r !in s.rooms ==> s.nextRoom <= r)
    && ClientsAdvance(s, s')
    && RoomsAdvance(s, s')
    && SendsAdvance(s, s')
    && PastKept(s, s')
  }

  /** What happens to a client that did not act: its own record stays, and it is sent precisely the
      texts added to the history of its room, once each and in order; nothing when it is in no room. */
  ghost predicate Heard(s: State, s': State, x: ClientId) {
    && x in s.clients && x in s'.clients
    && s'.clients[x] == s.clients[x]
    && match s.clients[x].room {
         case None => Log(s'.out, x) == Log(s.out, x)
         case Some(r) =>
           && r in s.rooms && r in s'.rooms
           && s.rooms[r].messages <= s'.rooms[r].messages
           && Log(s'.out, x) == Log(s.out, x)
              + Tagged(r, |s.clients[x].visits|, s'.rooms[r].messages[|s.rooms[r].messages|..])
       }
  }

  /** The effect of one client's event. */
  ghost predicate Acts(s: State, s': State, c: ClientId) {
    && Inv(s')
    && Advances(s, s')
    && (forall x :: x in s.clients && x != c ==> Heard(s, s', x))
  }

  lemma AdvancesTrans(s: State, s1: State, s2: State)
    requires Advances(s, s1) && Advances(s1, s2)
    ensures Advances(s, s2)
  {
    assert ClientsAdvance(s, s2);
    assert RoomsAdvance(s, s2);
    forall i | |s.out| <= i < |s2.out|
      ensures s2.out[i].to in s2.clients && (s2.out[i].to in s.clients ==> s.clients[s2.out[i].to].link == Attached)
    {
      if i < |s1.out| {
        assert s2.out[i] == s1.out[i];
      }
    }
    assert SendsAdvance(s, s2);
    forall c, v: nat | c in s.clients ensures VisitKept(s, s2, c, v) {
      assert VisitKept(s, s1, c, v) && VisitKept(s1, s2, c, v);
    }
  }

  lemma {:induction false} TaggedConcat(r: RoomId, visit: nat, a: seq<Text>, b: seq<Text>)
    ensures Tagged(r, visit, a + b) == Tagged(r, visit, a) + Tagged(r, visit, b)
  {
    if b == [] {
      assert a + b == a;
    } else {
      var n := |b| - 1;
      assert (a + b)[..|a + b| - 1] == a + b[..n];
      TaggedConcat(r, visit, a, b[..n]);
    }
  }

  lemma HeardTrans(s: State, s1: State, s2: State, x: ClientId)
    requires Heard(s, s1, x) && Heard(s1, s2, x)
    ensures Heard(s, s2, x)
  {
    if s.clients[x].room.Some? {
      var r := s.clients[x].room.value;
      var n := |s.clients[x].visits|;
      var m, m1, m2 := s.rooms[r].messages, s1.rooms[r].messages, s2.rooms[r].messages;
      assert m2[|m|..] == m1[|m|..] + m2[|m1|..];
      TaggedConcat(r, n, m1[|m|..], m2[|m1|..]);
    }
  }

  lemma ActsTrans(s: State, s1: State, s2: State, c: ClientId)
    requires Acts(s, s1, c) && Acts(s1, s2, c)
    ensures Acts(s, s2, c)
  {
    AdvancesTrans(s, s1, s2);
    forall x | x in s.clients && x != c ensures Heard(s, s2, x) {
      HeardTrans(s, s1, s2, x);
    }
  }

  // ---------------------------------------------------------------- single effects

  /** Effects of client `c` that send nothing and touch no history. */
  ghost predicate Quiet(s: State, s': State, c: ClientId) {
    && s'.out == s.out && s'.now == s.now && s'.nextRoom == s.nextRoom
    && s'.names == s.names && s'.rooms.Keys == s.rooms.Keys && s'.timers == s.timers
    && (forall r :: r in s.rooms ==>
          && s'.rooms[r] == s.rooms[r].(members := s'.rooms[r].members)
          && (s'.rooms[r] == s.rooms[r] || Live(s, r)))
    && (forall x :: x in s.clients && x != c ==> x in s'.clients && s'.clients[x] == s.clients[x])
    && (c in s.clients ==>
          && c in s'.clients
          && s'.clients[c].visits == s.clients[c].visits
          && (s'.clients[c].room == s.clients[c].room || s'.clients[c].room.None?)
          && (s'.clients[c].link == s.clients[c].link
              || (s.clients[c].link == Attached && s'.clients[c].link == Detached)))
  }

  lemma QuietAdvances(s: State, s': State, c: ClientId)
    requires Quiet(s, s', c)
    ensures Advances(s, s')
  {
    assert forall q :: Live(s', q) <==> Live(s, q);
  }

  lemma QuietHeard(s: State, s': State, c: ClientId, x: ClientId)
    requires Quiet(s, s', c) && Resolved(s) && x in s.clients && x != c
    ensures Heard(s, s', x)
  {
    if s.clients[x].room.Some? {
      var r := s.clients[x].room.value;
      assert r in s.rooms.Keys && r in s'.rooms;
      assert s'.rooms[r] == s.rooms[r].(members := s'.rooms[r].members);
    }
    NothingAdded(s, s', x);
  }

  /** A client whose room's history did not grow heard nothing if its log did not grow. */
  lemma NothingAdded(s: State, s': State, x: ClientId)
    requires Resolved(s)
    requires x in s.clients && x in s'.clients && s'.clients[x] == s.clients[x]
    requires Log(s'.out, x) == Log(s.out, x)
    requires s.clients[x].room.Some? ==>
               && s.clients[x].room.value in s'.rooms
               && s'.rooms[s.clients[x].room.value].messages == s.rooms[s.clients[x].room.value].messages
    ensures Heard(s, s', x)
  {
    if s.clients[x].room.Some? {
      var m := s.rooms[s.clients[x].room.value].messages;
      assert m[|m|..] == [];
    }
  }

  lemma QuietActs(s: State, s': State, c: ClientId)
    requires Resolved(s) && Inv(s') && Quiet(s, s', c)
    ensures Acts(s, s', c)
  {
    QuietAdvances(s, s', c);
    forall x | x in s.clients && x != c ensures Heard(s, s', x) {
      QuietHeard(s, s', c, x);
    }
  }

  lemma TellAdvances(s: State, c: ClientId, texts: seq<Text>)
    requires c in s.clients && s.clients[c].link == Attached
    ensures Advances(s, Tell(s, c, texts))
  {
    StreamTargets(c, Privately(texts));
    forall x, v: nat | x in s.clients ensures VisitKept(s, Tell(s, c, texts), x, v) {
      TellLog(s, c, texts, x);
      TranscriptConcat(Log(s.out, x), if x == c then Privately(texts) else [], v);
      PrivateTranscript(texts, v);
    }
    assert forall q :: Live(Tell(s, c, texts), q) <==> Live(s, q);
  }

  lemma TellActs(s: State, c: ClientId, texts: seq<Text>)
    requires Inv(s) && c in s.clients && s.clients[c].link == Attached
    ensures Acts(s, Tell(s, c, texts), c)
  {
    var s' := Tell(s, c, texts);
    TellAgreement(s, c, texts);
    TellDeliveries(s, c, texts);
    QuietTiming(s, s');
    TellAdvances(s, c, texts);
    forall x | x in s.clients && x != c ensures Heard(s, s', x) {
      TellLog(s, c, texts, x);
      NothingAdded(s, s', x);
    }
  }

  lemma ExpiryBound(room: Room, now: Time)
    requires RoomClock(room, now)
    ensures room.expiry <= now + EXPIRY_TIME
  {
    BroadcastClock(room, Blank, now);
  }

  lemma BroadcastAdvances(s: State, r: RoomId, text: Text)
    requires Resolved(s) && BackPointers(s) && RoomLists(s) && Live(s, r)
    requires s.rooms[r].expiry <= s.now + EXPIRY_TIME
    ensures Advances(s, Broadcast(s, r, text))
  {
    var s' := Broadcast(s, r, text);
    assert forall q :: Live(s', q) <==> Live(s, q);
    FanoutTargets(s.clients, r, s.rooms[r].members, text);
    assert SendsAdvance(s, s');
    assert RoomsAdvance(s, s');
    forall x, v: nat | x in s.clients ensures VisitKept(s, s', x, v) {
      BroadcastKeepsPast(s, r, text, x, v);
    }
  }

  lemma BroadcastKeepsPast(s: State, r: RoomId, text: Text, x: ClientId, v: nat)
    requires r in s.rooms && Distinct(s.rooms[r].members) && x in s.clients
    requires x in s.rooms[r].members ==> s.clients[x].room.Some?
    ensures VisitKept(s, Broadcast(s, r, text), x, v)
  {
    BroadcastLog(s, r, text, x);
    if x in s.rooms[r].members {
      var d := FromRoom(r, |s.clients[x].visits|, text);
      TranscriptConcat(Log(s.out, x), [d], v);
      assert [d][..0] == [];
    } else {
      assert Log(Broadcast(s, r, text).out, x) == Log(s.out, x);
    }
  }

  lemma BroadcastHeard(s: State, r: RoomId, text: Text, x: ClientId)
    requires Resolved(s) && BackPointers(s) && RoomLists(s) && Live(s, r) && x in s.clients
    ensures Heard(s, Broadcast(s, r, text), x)
  {
    var s' := Broadcast(s, r, text);
    BroadcastLog(s, r, text, x);
    if s.clients[x].room == Some(r) {
      var m := s.rooms[r].messages;
      assert (m + [text])[|m|..] == [text];
      assert [text][..0] == [];
    } else {
      NothingAdded(s, s', x);
    }
  }

  lemma BroadcastActs(s: State, r: RoomId, text: Text, c: ClientId)
    requires Inv(s) && Live(s, r)
    ensures Acts(s, Broadcast(s, r, text), c)
  {
    BroadcastAgreement(s, r, text);
    BroadcastDeliveries(s, r, text);
    BroadcastTiming(s, r, text);
    ExpiryBound(s.rooms[r], s.now);
    BroadcastAdvances(s, r, text);
    forall x | x in s.clients && x != c ensures Heard(s, Broadcast(s, r, text), x) {
      BroadcastHeard(s, r, text, x);
    }
  }

  lemma EnterAdvances(s: State, r: RoomId, c: ClientId)
    requires Live(s, r) && c in s.clients && s.clients[c].link == Attached
    ensures Advances(s, Enter(s, r, c))
  {
    assert forall q :: Live(Enter(s, r, c), q) <==> Live(s, q);
    StreamTargets(c, Tagged(r, |s.clients[c].visits| + 1, s.rooms[r].messages));
    forall x, v: nat | x in s.clients ensures VisitKept(s, Enter(s, r, c), x, v) {
      EnterKeepsPast(s, r, c, x, v);
    }
  }

  lemma EnterKeepsPast(s: State, r: RoomId, c: ClientId, x: ClientId, v: nat)
    requires r in s.rooms && c in s.clients && x in s.clients
    ensures VisitKept(s, Enter(s, r, c), x, v)
  {
    EnterLog(s, r, c, x);
    if x == c {
      var n := |s.clients[c].visits| + 1;
      TranscriptConcat(Log(s.out, c), Tagged(r, n, s.rooms[r].messages), v);
      TaggedTranscript(r, n, s.rooms[r].messages, v);
    } else {
      assert Log(Enter(s, r, c).out, x) == Log(s.out, x);
    }
  }

  lemma EnterTiming(s: State, r: RoomId, c: ClientId)
    requires Timing(s) && r in s.rooms && c in s.clients
    ensures Timing(Enter(s, r, c))
  {
    QuietTiming(s, Enter(s, r, c));
  }

  lemma EnterHeard(s: State, r: RoomId, c: ClientId, x: ClientId)
    requires Resolved(s) && r in s.rooms && c in s.clients && x in s.clients && x != c
    ensures Heard(s, Enter(s, r, c), x)
  {
    EnterLog(s, r, c, x);
    NothingAdded(s, Enter(s, r, c), x);
  }

  lemma EnterActs(s: State, r: RoomId, c: ClientId)
    requires Inv(s) && Live(s, r)
    requires c in s.clients && s.clients[c].link == Attached && s.clients[c].room.None?
    ensures Acts(s, Enter(s, r, c), c)
  {
    EnterAgreement(s, r, c);
    EnterDeliveries(s, r, c);
    EnterTiming(s, r, c);
    EnterAdvances(s, r, c);
    forall x | x in s.clients && x != c ensures Heard(s, Enter(s, r, c), x) {
      EnterHeard(s, r, c, x);
    }
  }

  lemma ExitTiming(s: State, r: RoomId, c: ClientId)
    requires Timing(s) && r in s.rooms && c in s.clients
    ensures Timing(Exit(s, r, c))
  {
    QuietTiming(s, Exit(s, r, c));
  }

  lemma ExitDeliveries(s: State, r: RoomId, c: ClientId)
    requires Deliveries(s) && r in s.rooms && c in s.clients
    ensures Deliveries(Exit(s, r, c))
  {
    QuietDeliveries(s, Exit(s, r, c));
  }

  lemma ExitQuiet(s: State, r: RoomId, c: ClientId)
    requires Live(s, r) && c in s.clients
    ensures Quiet(s, Exit(s, r, c), c)
  {
  }

  lemma ExitActs(s: State, r: RoomId, c: ClientId)
    requires Inv(s) && c in s.clients && s.clients[c].room == Some(r)
    ensures Acts(s, Exit(s, r, c), c)
  {
    ExitAgreement(s, r, c);
    ExitDeliveries(s, r, c);
    ExitTiming(s, r, c);
    ExitQuiet(s, r, c);
    QuietActs(s, Exit(s, r, c), c);
  }

  lemma SetNameActs(s: State, c: ClientId, name: string)
    requires Inv(s) && c in s.clients
    ensures Acts(s, SetName(s, c, name), c)
  {
    var s' := SetName(s, c, name);
    SetNameAgreement(s, c, name);
    QuietDeliveries(s, s');
    QuietTiming(s, s');
    QuietActs(s, s', c);
  }

  lemma HangUpActs(s: State, c: ClientId)
    requires Inv(s) && c in s.clients
    ensures Acts(s, HangUp(s, c), c)
  {
    var s' := HangUp(s, c);
    HangUpAgreement(s, c);
    QuietDeliveries(s, s');
    QuietTiming(s, s');
    QuietActs(s, s', c);
  }

  lemma DetachActs(s: State, c: ClientId)
    requires Inv(s) && c in s.clients && s.clients[c].room.None? && s.clients[c].link == Attached
    ensures Acts(s, Detach(s, c), c)
  {
    var s' := Detach(s, c);
    DetachAgreement(s, c);
    QuietDeliveries(s, s');
    QuietTiming(s, s');
    QuietActs(s, s', c);
  }

  lemma OpenRoomAdvances(s: State, name: string)
    requires FreshIds(s) && name !in s.names
    requires forall q :: Live(OpenRoom(s, name), q) <==> Live(s, q) || q == s.nextRoom
    ensures Advances(s, OpenRoom(s, name))
  {
  }

  lemma OpenRoomActs(s: State, name: string, c: ClientId)
    requires Inv(s) && name !in s.names && '\n' !in name
    ensures Acts(s, OpenRoom(s, name), c)
  {
    var s' := OpenRoom(s, name);
    OpenRoomAgreement(s, name);
    OpenRoomTiming(s, name);
    QuietDeliveries(s, s');
    OpenRoomLive(s, name);
    OpenRoomAdvances(s, name);
    forall x | x in s.clients && x != c ensures Heard(s, s', x) {
      NothingAdded(s, s', x);
    }
  }

  // ---------------------------------------------------------------- handlers

  lemma RoomLeaveActs(s: State, r: RoomId, c: ClientId)
    requires Inv(s) && c in s.clients && s.clients[c].room == Some(r)
    ensures Acts(s, RoomLeave(s, r, c), c)
  {
    var text := Left(s.clients[c].name);
    BroadcastActs(s, r, text, c);
    ExitActs(Broadcast(s, r, text), r, c);
    ActsTrans(s, Broadcast(s, r, text), RoomLeave(s, r, c), c);
  }

  lemma RoomJoinActs(s: State, r: RoomId, c: ClientId)
    requires Inv(s) && Live(s, r)
    requires c in s.clients && s.clients[c].link == Attached && s.clients[c].room.None?
    ensures Acts(s, RoomJoin(s, r, c), c)
  {
    EnterActs(s, r, c);
    assert Live(Enter(s, r, c), r);
    BroadcastActs(Enter(s, r, c), r, Joined(s.clients[c].name), c);
    ActsTrans(s, Enter(s, r, c), RoomJoin(s, r, c), c);
  }

  lemma RefuseActs(s: State, c: ClientId)
    requires Inv(s) && c !in s.clients
    ensures Acts(s, Refuse(s, c), c)
  {
    RefuseAgreement(s, c);
    NewClientDeliveries(s, c, Refuse(s, c).clients[c]);
    QuietTiming(s, Refuse(s, c));
    QuietActs(s, Refuse(s, c), c);
  }

  lemma AdmitActs(s: State, c: ClientId)
    requires Inv(s) && c !in s.clients && |s.members| < MAX_CLIENTS
    ensures Acts(s, Admit(s, c), c)
  {
    var s' := Admit(s, c);
    AdmitAgreement(s, c);
    NewClientDeliveries(s, c, s'.clients[c]);
    QuietDeliveries(s.(clients := s'.clients), s');
    QuietTiming(s, s');
    QuietActs(s, s', c);
  }

  lemma JoinActs(s: State, c: ClientId)
    requires Inv(s) && c !in s.clients
    ensures Acts(s, Join(s, c), c)
  {
    if |s.members| >= MAX_CLIENTS {
      RefuseActs(s, c);
    } else {
      AdmitActs(s, c);
      TellActs(Admit(s, c), c, [Welcome]);
      ActsTrans(s, Admit(s, c), Join(s, c), c);
    }
  }

  lemma LeaveActs(s: State, c: ClientId)
    requires Inv(s) && c in s.clients && s.clients[c].link == Attached
    ensures Acts(s, Leave(s, c), c)
  {
    if s.clients[c].room.Some? {
      var s1 := RoomLeave(s, s.clients[c].room.value, c);
      RoomLeaveActs(s, s.clients[c].room.value, c);
      DetachActs(s1, c);
      ActsTrans(s, s1, Leave(s, c), c);
    } else {
      DetachActs(s, c);
    }
  }

  lemma CreateActs(s: State, c: ClientId, name: string)
    requires Inv(s) && c in s.clients && s.clients[c].link == Attached && '\n' !in name
    ensures Acts(s, CreateChatRoom(s, c, name), c)
  {
    if name in s.names {
      TellActs(s, c, [ErrorCreate]);
    } else {
      OpenRoomActs(s, name, c);
      TellActs(OpenRoom(s, name), c, [Created(name)]);
      ActsTrans(s, OpenRoom(s, name), CreateChatRoom(s, c, name), c);
    }
  }

  lemma LeaveRoomActs(s: State, c: ClientId)
    requires Inv(s) && c in s.clients && s.clients[c].link == Attached
    ensures Acts(s, LeaveChatRoom(s, c), c)
  {
    if s.clients[c].room.Some? {
      RoomLeaveActs(s, s.clients[c].room.value, c);
    } else {
      TellActs(s, c, [ErrorLeave]);
    }
  }

  lemma JoinRoomActs(s: State, c: ClientId, name: string)
    requires Inv(s) && c in s.clients && s.clients[c].link == Attached
    ensures Acts(s, JoinChatRoom(s, c, name), c)
  {
    if name !in s.names {
      TellActs(s, c, [ErrorJoin]);
    } else if s.clients[c].room.Some? {
      var s1 := LeaveChatRoom(s, c);
      LeaveRoomActs(s, c);
      RoomJoinActs(s1, s.names[name], c);
      ActsTrans(s, s1, JoinChatRoom(s, c, name), c);
    } else {
      RoomJoinActs(s, s.names[name], c);
    }
  }

  lemma SendActs(s: State, c: ClientId, m: Message)
    requires Inv(s) && c in s.clients && s.clients[c].link == Attached
    ensures Acts(s, SendMessage(s, c, m), c)
  {
    if s.clients[c].room.Some? {
      BroadcastActs(s, s.clients[c].room.value, Said(m.time, s.clients[c].name, m.line), c);
    } else {
      TellActs(s, c, [ErrorSend]);
    }
  }

  lemma RenameActs(s: State, c: ClientId, name: string)
    requires Inv(s) && c in s.clients && s.clients[c].link == Attached
    ensures Acts(s, ChangeName(s, c, name), c)
  {
    var text := Renamed(s.clients[c].name, name);
    var s1 := if s.clients[c].room.None? then Tell(s, c, [text]) else Broadcast(s, s.clients[c].room.value, text);
    if s.clients[c].room.Some? {
      BroadcastActs(s, s.clients[c].room.value, text, c);
    } else {
      TellActs(s, c, [text]);
    }
    SetNameActs(s1, c, name);
    ActsTrans(s, s1, ChangeName(s, c, name), c);
  }

  lemma ListActs(s: State, c: ClientId, order: seq<string>)
    requires Inv(s) && c in s.clients && s.clients[c].link == Attached
    ensures Acts(s, ListChatRooms(s, c, order), c)
  {
    TellActs(s, c, [Blank, RoomsHeading] + RoomLines(order) + [Blank]);
  }

  lemma HelpActs(s: State, c: ClientId)
    requires Inv(s) && c in s.clients && s.clients[c].link == Attached
    ensures Acts(s, Help(s, c), c)
  {
    TellActs(s, c, HelpTexts());
  }

  lemma PerformActs(s: State, c: ClientId, m: Message, order: seq<string>, command: Commands.Command)
    requires Inv(s) && c in s.clients && s.clients[c].link == Attached
    requires command.Create? ==> '\n' !in command.name
    ensures Acts(s, Perform(s, c, m, order, command), c)
  {
    match command
    case Create(name) => CreateActs(s, c, name);
    case LeaveRoom => LeaveRoomActs(s, c);
    case List => ListActs(s, c, order);
    case Join(name) => JoinRoomActs(s, c, name);
    case Rename(name) => RenameActs(s, c, name);
    case Help => HelpActs(s, c);
    case Quit => HangUpActs(s, c);
    case Say => SendActs(s, c, m);
  }

  lemma ParseActs(s: State, c: ClientId, m: Message, order: seq<string>)
    requires Inv(s) && c in s.clients && s.clients[c].link == Attached && '\n' !in m.line
    ensures Acts(s, Parse(s, c, m, order), c)
  {
    Commands.NamesHaveNoNewline(m.line);
    PerformActs(s, c, m, order, Commands.Classify(m.line));
  }

  lemma ParseKeepsMembers(s: State, c: ClientId, m: Message, order: seq<string>, command: Commands.Command)
    requires Resolved(s) && c in s.clients
    ensures Perform(s, c, m, order, command).members == s.members
    ensures Perform(s, c, m, order, command).clients.Keys == s.clients.Keys
  {
    if command.Join? {
      SwitchKeepsMembers(s, c, command.name);
    }
  }

  lemma SwitchKeepsMembers(s: State, c: ClientId, name: string)
    requires Resolved(s) && c in s.clients
    ensures JoinChatRoom(s, c, name).members == s.members
    ensures JoinChatRoom(s, c, name).clients.Keys == s.clients.Keys
  {
  }

  // ---------------------------------------------------------------- firings

  lemma FireDeliveries(s: State, t: TimerId)
    requires Agreement(s) && Deliveries(s) && t in s.timers && Live(s, s.timers[t].room)
    ensures Deliveries(Fire(s, t))
  {
    var r := s.timers[t].room;
    var s1 := s.(timers := s.timers - {t});
    QuietDeliveries(s, s1);
    if s.rooms[r].expiry > s.now {
      QuietDeliveries(s1, Fire(s, t));
    } else {
      TimersIrrelevant(s, t);
      DissolveDeliveries(s1, r);
    }
  }

  lemma FireInv(s: State, t: TimerId)
    requires Inv(s) && Enabled(s, Expire(t))
    ensures Inv(Fire(s, t))
  {
    FireAgreement(s, t);
    FireTiming(s, t);
    FireDeliveries(s, t);
  }

  /** A firing that removes a room tells each member so, as the last text of its visit, and sends
      nothing to anyone else; a firing that renews the timer sends nothing. */
  lemma FireHeard(s: State, t: TimerId, x: ClientId)
    requires Inv(s) && Enabled(s, Expire(t)) && x in s.clients
    ensures var r := s.timers[t].room;
            var s' := Fire(s, t);
            if s.rooms[r].expiry <= s.now && s.clients[x].room == Some(r) then
              && s'.clients[x] == s.clients[x].(room := None)
              && s'.rooms[r].messages == s.rooms[r].messages + [Inactive]
              && Log(s'.out, x) == Log(s.out, x) + [FromRoom(r, |s.clients[x].visits|, Inactive)]
            else Heard(s, s', x)
  {
    var r := s.timers[t].room;
    assert Live(s, r);
    if s.rooms[r].expiry <= s.now {
      DissolveHeard(s, t, x);
    } else {
      NothingAdded(s, Fire(s, t), x);
    }
  }

  lemma DissolveHeard(s: State, t: TimerId, x: ClientId)
    requires Resolved(s) && BackPointers(s) && RoomLists(s) && t in s.timers && x in s.clients
    requires var r := s.timers[t].room; Live(s, r) && s.rooms[r].expiry <= s.now
    ensures var r := s.timers[t].room;
            var s' := Fire(s, t);
            if s.clients[x].room == Some(r) then
              && s'.clients[x] == s.clients[x].(room := None)
              && s'.rooms[r].messages == s.rooms[r].messages + [Inactive]
              && Log(s'.out, x) == Log(s.out, x) + [FromRoom(r, |s.clients[x].visits|, Inactive)]
            else Heard(s, s', x)
  {
    var r := s.timers[t].room;
    BroadcastLog(s.(timers := s.timers - {t}), r, Inactive, x);
    assert s.clients[x].room == Some(r) <==> x in s.rooms[r].members;
    if s.clients[x].room != Some(r) {
      NothingAdded(s, Fire(s, t), x);
    }
  }

  lemma FireRooms(s: State, t: TimerId)
    requires Resolved(s) && NameMap(s) && FreshIds(s) && t in s.timers && Live(s, s.timers[t].room)
    requires forall u :: u in s.timers && s.timers[u].room == s.timers[t].room ==> u == t
    requires s.rooms[s.timers[t].room].expiry <= s.now + EXPIRY_TIME
    ensures RoomsAdvance(s, Fire(s, t))
    ensures Fire(s, t).rooms.Keys == s.rooms.Keys
  {
    var r := s.timers[t].room;
    var s' := Fire(s, t);
    FireKeepsOthers(s, t);
    assert s'.rooms[r].name == s.rooms[r].name && s'.rooms[r].created == s.rooms[r].created;
    assert s.rooms[r].messages <= s'.rooms[r].messages && s.rooms[r].expiry <= s'.rooms[r].expiry;
  }

  lemma FireAdvances(s: State, t: TimerId)
    requires Resolved(s) && NameMap(s) && FreshIds(s) && BackPointers(s) && RoomLists(s)
    requires TimersSound(s) && Enabled(s, Expire(t))
    requires s.rooms[s.timers[t].room].expiry <= s.now + EXPIRY_TIME
    ensures Advances(s, Fire(s, t))
  {
    FireRooms(s, t);
    FireSends(s, t);
    forall x, v: nat | x in s.clients ensures VisitKept(s, Fire(s, t), x, v) {
      FireKeepsPast(s, t, x, v);
    }
  }

  lemma FireKeepsPast(s: State, t: TimerId, x: ClientId, v: nat)
    requires Resolved(s) && BackPointers(s) && RoomLists(s)
    requires t in s.timers && Live(s, s.timers[t].room) && x in s.clients
    ensures x in Fire(s, t).clients && VisitKept(s, Fire(s, t), x, v)
  {
    var r := s.timers[t].room;
    if s.rooms[r].expiry <= s.now {
      BroadcastKeepsPast(s.(timers := s.timers - {t}), r, Inactive, x, v);
    }
  }

  lemma FireSends(s: State, t: TimerId)
    requires Resolved(s) && BackPointers(s) && RoomLists(s) && t in s.timers && Live(s, s.timers[t].room)
    ensures ClientsAdvance(s, Fire(s, t)) && SendsAdvance(s, Fire(s, t))
    ensures Fire(s, t).now == s.now && Fire(s, t).nextRoom == s.nextRoom
  {
    var r := s.timers[t].room;
    FanoutTargets(s.clients, r, s.rooms[r].members, Inactive);
  }

  // ---------------------------------------------------------------- all events

  /** Effects of the runtime on the clock and the timers only. */
  lemma BackgroundAdvances(s: State, s': State)
    requires s' == s.(timers := s'.timers, now := s'.now) && s.now <= s'.now
    ensures Advances(s, s')
  {
    assert forall q :: Live(s', q) <==> Live(s, q);
  }

  lemma StartKeepsInv(s: State, t: TimerId)
    requires Inv(s) && Enabled(s, Start(t))
    ensures Inv(StartTimer(s, t)) && Advances(s, StartTimer(s, t))
  {
    StartTimerAgreement(s, t);
    StartTimerTiming(s, t);
    QuietDeliveries(s, StartTimer(s, t));
    BackgroundAdvances(s, StartTimer(s, t));
  }

  lemma TickKeepsInv(s: State, time: Time)
    requires Inv(s) && s.now <= time
    ensures Inv(s.(now := time)) && Advances(s, s.(now := time))
  {
    TickAgreement(s, time);
    TickTiming(s, time);
    QuietDeliveries(s, s.(now := time));
    BackgroundAdvances(s, s.(now := time));
  }

  lemma ExpireKeepsInv(s: State, t: TimerId)
    requires Inv(s) && Enabled(s, Expire(t))
    ensures Inv(Fire(s, t)) && Advances(s, Fire(s, t))
  {
    FireInv(s, t);
    ExpiryBound(s.rooms[s.timers[t].room], s.now);
    FireAdvances(s, t);
  }

  lemma StepKeepsInv(s: State, e: Event)
    requires Inv(s) && Enabled(s, e)
    ensures Inv(Step(s, e))
    ensures Advances(s, Step(s, e))
  {
    match e
    case Arrive(c) => JoinActs(s, c);
    case Incoming(c, m, order) => ParseActs(s, c, m, order);
    case Depart(c) => LeaveActs(s, c);
    case Start(t) => StartKeepsInv(s, t);
    case Expire(t) => ExpireKeepsInv(s, t);
    case Tick(time) => TickKeepsInv(s, time);
  }

  lemma StepAdvances(s: State, e: Event)
    requires Inv(s) && Enabled(s, e)
    ensures ClientsAdvance(s, Step(s, e)) && SendsAdvance(s, Step(s, e))
  {
    StepKeepsInv(s, e);
  }

  /** Clients come by arriving only, and a refused one is sent nothing. */
  lemma NewClientsArrive(s: State, e: Event, c: ClientId)
    requires Resolved(s) && Enabled(s, e) && c !in s.clients && c in Step(s, e).clients
    ensures e == Arrive(c)
    ensures Step(s, e).clients[c].link == Refused ==> Step(s, e).out == s.out
  {
    match e
    case Incoming(d, m, order) => ParseKeepsMembers(s, d, m, order, Commands.Classify(m.line));
    case _ =>
  }

  lemma InitInv(now: Time)
    ensures Inv(Init(now))
  {
  }
}
