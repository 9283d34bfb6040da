/** Who is where: the lobby's list, the rooms' lists, the back-pointers and the name map agree. */
module Membership {
  import opened GoStrings
  import opened LobbyModel

  /** The lobby's list holds exactly the attached clients, once each, and never more than the limit. */
  ghost predicate LobbyList(s: State) {
    && Distinct(s.members)
    && |s.members| <= MAX_CLIENTS
    && (forall c :: c in s.members ==> c in s.clients && s.clients[c].link == Attached)
    && (forall c :: c in s.clients && s.clients[c].link == Attached ==> c in s.members)
  }

  /** The key of every live room is its name, and contains no newline. */
  ghost predicate NameMap(s: State) {
    forall n :: n in s.names ==> s.names[n] in s.rooms && s.rooms[s.names[n]].name == n && '\n' !in n
  }

  /** A back-pointer leads to a live room that lists the client. */
  ghost predicate BackPointers(s: State) {
    forall c :: c in s.clients && s.clients[c].room.Some? ==>
      && s.clients[c].link == Attached
      && Live(s, s.clients[c].room.value)
      && c in s.rooms[s.clients[c].room.value].members
  }

  /** A live room lists each of its members once, and each of them points back to it. */
  ghost predicate RoomLists(s: State) {
    forall r :: Live(s, r) ==>
      && Distinct(s.rooms[r].members)
      && (forall c :: c in s.rooms[r].members ==> c in s.clients && s.clients[c].room == Some(r))
  }

  ghost predicate FreshIds(s: State) {
    && 0 <= s.nextRoom
    && (forall r :: r in s.rooms ==> 0 <= r < s.nextRoom)
    && (forall t :: t in s.timers ==> t < s.nextTimer)
  }

  ghost predicate Agreement(s: State) {
    && Resolved(s)
    && LobbyList(s)
    && NameMap(s)
    && BackPointers(s)
    && RoomLists(s)
    && FreshIds(s)
  }

  // ---------------------------------------------------------------- removal from a list

  /** Removing from a duplicate-free list takes out exactly that element and keeps the order. */
  lemma {:induction false} RemoveFirstAt(xs: seq<ClientId>, i: nat)
    requires i < |xs| && xs[i] !in xs[..i]
    ensures RemoveFirst(xs, xs[i]) == xs[..i] + xs[i + 1..]
  {
    if i > 0 {
      assert xs[0] in xs[..i];
      assert xs[1..][..i - 1] == xs[..i][1..];
      RemoveFirstAt(xs[1..], i - 1);
      assert xs[1..][i..] == xs[i + 1..];
    }
  }

  lemma RemoveFromDistinct(xs: seq<ClientId>, x: ClientId)
    requires Distinct(xs)
    ensures Distinct(RemoveFirst(xs, x))
    ensures forall y :: y in RemoveFirst(xs, x) <==> y in xs && y != x
    ensures |RemoveFirst(xs, x)| == if x in xs then |xs| - 1 else |xs|
  {
    if x in xs {
      var i :| 0 <= i < |xs| && xs[i] == x;
      RemoveFirstAt(xs, i);
      var ys := xs[..i] + xs[i + 1..];
      forall y | y in xs && y != x ensures y in ys {
        var k :| 0 <= k < |xs| && xs[k] == y;
        assert k < i ==> ys[k] == y;
        assert k > i ==> ys[k - 1] == y;
      }
    } else {
      RemoveAbsent(xs, x);
    }
  }

  lemma {:induction false} RemoveAbsent(xs: seq<ClientId>, x: ClientId)
    requires x !in xs
    ensures RemoveFirst(xs, x) == xs
  {
    if xs != [] {
      RemoveAbsent(xs[1..], x);
    }
  }

  // ---------------------------------------------------------------- single effects

  lemma BroadcastAgreement(s: State, r: RoomId, text: Text)
    requires Agreement(s) && r in s.rooms
    ensures Agreement(Broadcast(s, r, text))
    ensures forall q :: Live(Broadcast(s, r, text), q) <==> Live(s, q)
  {
    var s' := Broadcast(s, r, text);
    assert forall q :: Live(s', q) <==> Live(s, q);
  }

  lemma TellAgreement(s: State, c: ClientId, texts: seq<Text>)
    requires Agreement(s)
    ensures Agreement(Tell(s, c, texts))
  {
    assert forall q :: Live(Tell(s, c, texts), q) <==> Live(s, q);
  }

  lemma AdmitAgreement(s: State, c: ClientId)
    requires Agreement(s) && c !in s.clients && |s.members| < MAX_CLIENTS
    ensures Agreement(Admit(s, c))
  {
    assert forall q :: Live(Admit(s, c), q) <==> Live(s, q);
  }

  lemma RefuseAgreement(s: State, c: ClientId)
    requires Agreement(s) && c !in s.clients
    ensures Agreement(Refuse(s, c))
  {
    assert forall q :: Live(Refuse(s, c), q) <==> Live(s, q);
  }

  lemma DetachAgreement(s: State, c: ClientId)
    requires Agreement(s) && c in s.clients && s.clients[c].room.None? && s.clients[c].link == Attached
    ensures Agreement(Detach(s, c))
  {
    RemoveFromDistinct(s.members, c);
    assert forall q :: Live(Detach(s, c), q) <==> Live(s, q);
  }

  lemma SetNameAgreement(s: State, c: ClientId, name: string)
    requires Agreement(s) && c in s.clients
    ensures Agreement(SetName(s, c, name))
  {
    assert forall q :: Live(SetName(s, c, name), q) <==> Live(s, q);
  }

  lemma HangUpAgreement(s: State, c: ClientId)
    requires Agreement(s) && c in s.clients
    ensures Agreement(HangUp(s, c))
  {
    assert forall q :: Live(HangUp(s, c), q) <==> Live(s, q);
  }

  lemma OpenRoomLive(s: State, name: string)
    requires Agreement(s) && name !in s.names
    ensures forall q :: Live(OpenRoom(s, name), q) <==> Live(s, q) || q == s.nextRoom
  {
    var s' := OpenRoom(s, name);
    assert s.nextRoom !in s.rooms;
    forall q ensures Live(s', q) <==> Live(s, q) || q == s.nextRoom {
      if q in s.rooms {
        assert s'.rooms[q] == s.rooms[q];
      }
    }
  }

  lemma OpenRoomAgreement(s: State, name: string)
    requires Agreement(s) && name !in s.names && '\n' !in name
    ensures Agreement(OpenRoom(s, name))
  {
    OpenRoomLive(s, name);
    OpenRoomMaps(s, name);
    OpenRoomPointers(s, name);
  }

  lemma OpenRoomMaps(s: State, name: string)
    requires Resolved(s) && LobbyList(s) && NameMap(s) && FreshIds(s) && '\n' !in name
    ensures var s' := OpenRoom(s, name); Resolved(s') && LobbyList(s') && NameMap(s') && FreshIds(s')
  {
    assert s.nextRoom !in s.rooms;
  }

  lemma OpenRoomPointers(s: State, name: string)
    requires Resolved(s) && BackPointers(s) && RoomLists(s) && FreshIds(s)
    requires forall q :: Live(OpenRoom(s, name), q) <==> Live(s, q) || q == s.nextRoom
    ensures BackPointers(OpenRoom(s, name)) && RoomLists(OpenRoom(s, name))
  {
    assert s.nextRoom !in s.rooms;
  }

  lemma EnterRoomLists(s: State, r: RoomId, c: ClientId)
    requires RoomLists(s) && Live(s, r) && c in s.clients && s.clients[c].room.None?
    ensures RoomLists(Enter(s, r, c))
    ensures forall q :: Live(Enter(s, r, c), q) <==> Live(s, q)
  {
    var s' := Enter(s, r, c);
    assert forall q :: Live(s', q) <==> Live(s, q);
    assert c !in s.rooms[r].members;
    forall q | Live(s', q)
      ensures Distinct(s'.rooms[q].members)
      ensures forall d :: d in s'.rooms[q].members ==> d in s'.clients && s'.clients[d].room == Some(q)
    {
      assert Live(s, q);
    }
  }

  lemma EnterAgreement(s: State, r: RoomId, c: ClientId)
    requires Agreement(s) && Live(s, r)
    requires c in s.clients && s.clients[c].link == Attached && s.clients[c].room.None?
    ensures Agreement(Enter(s, r, c))
  {
    EnterRoomLists(s, r, c);
  }

  lemma ExitRoomLists(s: State, r: RoomId, c: ClientId)
    requires RoomLists(s) && r in s.rooms && c in s.clients && s.clients[c].room == Some(r)
    requires Distinct(s.rooms[r].members)
    ensures RoomLists(Exit(s, r, c))
    ensures forall q :: Live(Exit(s, r, c), q) <==> Live(s, q)
  {
    var s' := Exit(s, r, c);
    RemoveFromDistinct(s.rooms[r].members, c);
    assert forall q :: Live(s', q) <==> Live(s, q);
    forall q | Live(s', q)
      ensures Distinct(s'.rooms[q].members)
      ensures forall d :: d in s'.rooms[q].members ==> d in s'.clients && s'.clients[d].room == Some(q)
    {
      assert Live(s, q);
    }
  }

  lemma ExitBackPointers(s: State, r: RoomId, c: ClientId)
    requires Resolved(s) && BackPointers(s) && r in s.rooms && Distinct(s.rooms[r].members)
    requires c in s.clients && s.clients[c].room == Some(r)
    requires forall q :: Live(Exit(s, r, c), q) <==> Live(s, q)
    ensures BackPointers(Exit(s, r, c))
  {
    RemoveFromDistinct(s.rooms[r].members, c);
  }

  lemma ExitAgreement(s: State, r: RoomId, c: ClientId)
    requires Agreement(s)
    requires c in s.clients && s.clients[c].room == Some(r)
    ensures Agreement(Exit(s, r, c))
  {
    ExitRoomLists(s, r, c);
    ExitBackPointers(s, r, c);
  }

  lemma DissolveGone(s: State, r: RoomId)
    requires NameMap(s) && Live(s, r)
    ensures forall q :: Live(Dissolve(s, r), q) <==> Live(s, q) && q != r
  {
    var s' := Dissolve(s, r);
    forall q ensures Live(s', q) <==> Live(s, q) && q != r {
    }
  }

  lemma DissolveLists(s: State, r: RoomId)
    requires Resolved(s) && NameMap(s) && BackPointers(s) && RoomLists(s) && Live(s, r)
    ensures BackPointers(Dissolve(s, r)) && RoomLists(Dissolve(s, r))
  {
    var s' := Dissolve(s, r);
    DissolveGone(s, r);
    forall c | c in s'.clients && s'.clients[c].room.Some?
      ensures Live(s', s'.clients[c].room.value) && c in s'.rooms[s'.clients[c].room.value].members
    {
      assert s.clients[c].room == s'.clients[c].room;
    }
    forall q | Live(s', q)
      ensures forall d :: d in s'.rooms[q].members ==> d in s'.clients && s'.clients[d].room == Some(q)
    {
      assert Live(s, q);
    }
  }

  lemma DissolveAgreement(s: State, r: RoomId)
    requires Agreement(s) && Live(s, r)
    ensures Agreement(Dissolve(s, r))
  {
    DissolveLists(s, r);
  }

  lemma RearmAgreement(s: State, r: RoomId)
    requires Agreement(s) && r in s.rooms
    ensures Agreement(Rearm(s, r))
  {
    var s' := Rearm(s, r);
    assert forall q :: Live(s', q) <==> Live(s, q);
  }

  lemma TimersIrrelevant(s: State, t: TimerId)
    requires Agreement(s)
    ensures Agreement(s.(timers := s.timers - {t}))
    ensures forall q :: Live(s.(timers := s.timers - {t}), q) <==> Live(s, q)
  {
    assert forall q :: Live(s.(timers := s.timers - {t}), q) <==> Live(s, q);
  }

  lemma FireAgreement(s: State, t: TimerId)
    requires Agreement(s) && t in s.timers && Live(s, s.timers[t].room)
    ensures Agreement(Fire(s, t))
  {
    var s1 := s.(timers := s.timers - {t});
    TimersIrrelevant(s, t);
    RearmAgreement(s1, s.timers[t].room);
    DissolveAgreement(s1, s.timers[t].room);
  }

  lemma StartTimerAgreement(s: State, t: TimerId)
    requires Agreement(s) && t in s.timers
    ensures Agreement(StartTimer(s, t))
  {
    assert forall q :: Live(StartTimer(s, t), q) <==> Live(s, q);
  }

  lemma TickAgreement(s: State, time: Time)
    requires Agreement(s)
    ensures Agreement(s.(now := time))
  {
    assert forall q :: Live(s.(now := time), q) <==> Live(s, q);
  }

  // ---------------------------------------------------------------- conservation

  /** The clients whose back-pointer leads to one of the first `n` rooms ever opened. */
  ghost function Population(s: State, n: nat): set<ClientId> {
    set c | c in s.clients && s.clients[c].room.Some? && s.clients[c].room.value < n
  }

  /** The sizes of the live rooms among the first `n` ever opened, added up. */
  function TotalSize(s: State, n: nat): nat {
    if n == 0 then 0
    else TotalSize(s, n - 1) + if Live(s, n - 1) then |s.rooms[n - 1].members| else 0
  }

  ghost function Elements(xs: seq<ClientId>): set<ClientId> {
    set x | x in xs
  }

  lemma {:induction false} DistinctSize(xs: seq<ClientId>)
    requires Distinct(xs)
    ensures |Elements(xs)| == |xs|
  {
    if xs != [] {
      var n := |xs| - 1;
      DistinctSize(xs[..n]);
      assert xs[n] !in xs[..n];
      assert Elements(xs) == Elements(xs[..n]) + {xs[n]};
    }
  }

  lemma PopulationStep(s: State, n: nat)
    requires Resolved(s) && BackPointers(s) && RoomLists(s)
    ensures Live(s, n) ==>
              && Population(s, n + 1) == Population(s, n) + Elements(s.rooms[n].members)
              && Population(s, n) !! Elements(s.rooms[n].members)
    ensures !Live(s, n) ==> Population(s, n + 1) == Population(s, n)
  {
    if Live(s, n) {
      var here := Elements(s.rooms[n].members);
      forall c ensures c in Population(s, n + 1) <==> c in Population(s, n) || c in here {
      }
      forall c | c in here ensures c !in Population(s, n) {
        assert s.clients[c].room == Some(n);
      }
    } else {
      forall c | c in Population(s, n + 1) ensures c in Population(s, n) {
        assert Live(s, s.clients[c].room.value);
      }
      assert Population(s, n + 1) == Population(s, n);
    }
  }

  lemma {:induction false} PopulationSize(s: State, n: nat)
    requires Agreement(s)
    ensures |Population(s, n)| == TotalSize(s, n)
  {
    if n == 0 {
      assert forall c :: c in s.clients && s.clients[c].room.Some? ==> 0 <= s.clients[c].room.value;
      assert Population(s, 0) == {};
    } else {
      PopulationSize(s, n - 1);
      PopulationStep(s, n - 1);
      if Live(s, n - 1) {
        DistinctSize(s.rooms[n - 1].members);
      }
    }
  }

  /** The clients that are in the lobby but in no room. */
  ghost function Outside(s: State): set<ClientId>
    requires Resolved(s)
  {
    set c | c in s.members && s.clients[c].room.None?
  }

  /** No client is counted twice or lost: the sizes of the live rooms and the number of clients in no
      room add up to the length of the lobby's list, which is at most the limit; and two live rooms
      share no member. */
  lemma Conservation(s: State)
    requires Agreement(s)
    ensures 0 <= s.nextRoom && TotalSize(s, s.nextRoom) + |Outside(s)| == |s.members| <= MAX_CLIENTS
    ensures forall q, r, c :: Live(s, q) && Live(s, r) && c in s.rooms[q].members && c in s.rooms[r].members ==> q == r
    ensures forall r, c :: Live(s, r) && c in s.rooms[r].members ==> c in s.members
  {
    PopulationSize(s, s.nextRoom);
    MembersSplit(s);
    forall q, r, c | Live(s, q) && Live(s, r) && c in s.rooms[q].members && c in s.rooms[r].members ensures q == r {
      assert s.clients[c].room == Some(q) && s.clients[c].room == Some(r);
    }
  }

  lemma MembersSplit(s: State)
    requires Agreement(s)
    ensures |Population(s, s.nextRoom)| + |Outside(s)| == |s.members|
  {
    DistinctSize(s.members);
    var inside := Population(s, s.nextRoom);
    forall c ensures c in Elements(s.members) <==> c in inside || c in Outside(s) {
    }
    assert Elements(s.members) == inside + Outside(s);
    assert inside !! Outside(s);
  }

  /** Every key once, in some order. */
  lemma ListNames(names: map<string, RoomId>) returns (order: seq<string>)
    ensures Enumerates(order, names)
  {
    order := [];
    var rest := names.Keys;
    while rest != {}
      invariant rest <= names.Keys
      invariant Distinct(order)
      invariant forall n :: n in order <==> n in names && n !in rest
      decreases rest
    {
      var n :| n in rest;
      order := order + [n];
      rest := rest - {n};
    }
  }

  // ---------------------------------------------------------------- joinability

  /** Every live room can be entered by any attached client: the line `/j `, followed by the room's
      key, leads into exactly that room, as its last member. */
  lemma EveryLiveRoomJoinable(s: State, c: ClientId, n: string, time: Time, order: seq<string>)
    requires Agreement(s) && n in s.names
    requires c in s.clients && s.clients[c].link == Attached && Enumerates(order, s.names)
    ensures var m := Message(time, Commands.CMD_JOIN + (" " + n));
            && Enabled(s, Incoming(c, m, order))
            && var s' := Step(s, Incoming(c, m, order));
            && s'.clients[c].room == Some(s.names[n])
            && s'.names == s.names
            && s'.rooms[s.names[n]].members == RemoveFirst(s.rooms[s.names[n]].members, c) + [c]
  {
    Commands.JoinLineNamesRoom(n);
    assert '\n' !in Commands.CMD_JOIN + (" " + n);
    var r := s.names[n];
    if s.clients[c].room == Some(r) {
    } else {
      assert Live(s, r);
      RemoveAbsent(s.rooms[r].members, c);
    }
  }
}
