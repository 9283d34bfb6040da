/** Which events block the lobby: exactly those that make it send some client more texts than the client's
    writer can take, because its connection failed or was closed by the server. */
module Blocking {
  import opened GoStrings
  import opened LobbyModel
  import opened Membership
  import opened Transcripts
  import opened Invariant
  import opened Runs
  import opened Audiences
  import G = Goroutines
  import opened Progress
  import Commands

  type System = G.System
  type Move = G.Move

  /** The event has more texts for somebody than the writer of that client can take: a matter of the
      system before the event. */
  ghost predicate Blocks(y: System, m: Move)
    requires Resolved(y.lobby) && IsTurn(m) && G.Guard(y, m) && G.Ready(y, m)
  {
    exists x :: Overwhelmed(y, x, Texts(y.lobby, G.Effect(y, m).value, x))
  }

  // ---------------------------------------------------------------- a turn and its sends

  lemma TurnFacts(y: System, m: Move)
    requires IsTurn(m) && G.Guard(y, m) && G.Ready(y, m)
    ensures G.Apply(y, m).done == |y.lobby.out| && G.Idle(y)
    ensures Resolved(y.lobby) && G.Apply(y, m).lobby == Step(y.lobby, G.Effect(y, m).value)
    ensures forall x :: x in G.Apply(y, m).procs <==> x in y.procs
    ensures forall x :: x in y.procs ==> G.Apply(y, m).procs[x].writer == y.procs[x].writer
  {
  }

  lemma LineHangsUp(s: State, c: ClientId, m: Message, order: seq<string>, command: Commands.Command, x: ClientId)
    requires Resolved(s) && c in s.clients
    ensures HungUp(Perform(s, c, m, order, command), x) <==> HungUp(s, x) || (command.Quit? && x == c)
  {
    if command.Join? && command.name in s.names {
      SwitchHangsNobodyUp(s, c, command.name, x);
    }
  }

  lemma SwitchHangsNobodyUp(s: State, c: ClientId, name: string, x: ClientId)
    requires Resolved(s) && c in s.clients && name in s.names
    ensures HungUp(JoinChatRoom(s, c, name), x) <==> HungUp(s, x)
  {
    if s.clients[c].room.Some? {
      SwitchIsChange(s, c, name);
    }
  }

  /** The server closes the connection only of clients to which it sends nothing in the same handler. */
  lemma HangsUpUnaddressed(s: State, e: Event, x: ClientId)
    requires Resolved(s) && Enabled(s, e) && Texts(s, e, x) > 0
    ensures HungUp(Step(s, e), x) <==> HungUp(s, x)
  {
    match e
    case Incoming(c, m, order) => LineHangsUp(s, c, m, order, Commands.Classify(m.line), x);
    case _ =>
  }

  lemma SendsAfter(s: State, s': State, done: nat, x: ClientId)
    requires s.out <= s'.out && done == |s.out|
    ensures |Log(s'.out, x)| == |Log(s.out, x)| + |Log(s'.out[done..], x)|
  {
    LogConcat(s.out, s'.out[done..], x);
    assert s'.out == s.out + s'.out[done..];
  }

  lemma TimerOfLiveRoom(s: State, e: Event)
    requires Inv(s) && Enabled(s, e) && e.Expire?
    ensures Live(s, s.timers[e.timer].room)
  {
  }

  /** After a turn the lobby has the foretold number of texts to send to every client. */
  lemma AheadAfterTurn(y: System, m: Move, x: ClientId)
    requires G.Sound(y) && IsTurn(m) && G.Guard(y, m) && G.Ready(y, m)
    ensures Ahead(G.Apply(y, m), x) == Texts(y.lobby, G.Effect(y, m).value, x)
  {
    var e := G.Effect(y, m).value;
    TurnFacts(y, m);
    StepSends(y.lobby, e);
    if e.Expire? {
      TimerOfLiveRoom(y.lobby, e);
    }
    TextsSent(y.lobby, e, x);
    SendsAfter(y.lobby, Step(y.lobby, e), |y.lobby.out|, x);
  }

  lemma StepSends(s: State, e: Event)
    requires Inv(s) && Enabled(s, e)
    ensures s.out <= Step(s, e).out
  {
    StepKeepsInv(s, e);
  }

  lemma ExcessAfterTurn(y: System, m: Move, x: ClientId)
    requires G.Sound(y) && IsTurn(m) && G.Guard(y, m) && G.Ready(y, m)
    ensures Excess(G.Apply(y, m), x, 0) <==> Overwhelmed(y, x, Texts(y.lobby, G.Effect(y, m).value, x))
  {
    TurnFacts(y, m);
    AheadAfterTurn(y, m, x);
    if Texts(y.lobby, G.Effect(y, m).value, x) > 0 {
      HangsUpUnaddressed(y.lobby, G.Effect(y, m).value, x);
    }
  }

  /** The lobby takes up an event from which it cannot come back if and only if the event has more texts
      for somebody than can be taken. */
  lemma DoomedExactlyWhenBlocks(y: System, m: Move)
    requires G.Sound(y) && IsTurn(m) && G.Guard(y, m)
    ensures G.Ready(y, m)
    ensures Doomed(G.Apply(y, m)) <==> Blocks(y, m)
  {
    G.OffersAreEnabled(y, m);
    forall x ensures Excess(G.Apply(y, m), x, 0) <==> Overwhelmed(y, x, Texts(y.lobby, G.Effect(y, m).value, x)) {
      ExcessAfterTurn(y, m, x);
    }
  }

  /** Once the lobby has taken up an event, some continuation brings it back to its `select` if and only
      if the event has not more texts for anybody than can be taken. */
  lemma TurnReturnsIff(y: System, m: Move)
    requires G.Sound(y) && IsTurn(m) && G.Guard(y, m)
    ensures G.Ready(y, m)
    ensures (exists ys, ms :: IsFragment(ys, ms) && ys[0] == G.Apply(y, m) && G.Idle(ys[|ys| - 1])) <==> !Blocks(y, m)
  {
    DoomedExactlyWhenBlocks(y, m);
    G.MoveKeepsSound(y, m);
    LobbyReturnsIff(G.Apply(y, m));
  }

  // ---------------------------------------------------------------- a member that takes no more

  /** The writer of the client can take no text any more: it has given up, or its write is bound to fail. */
  predicate TakesNoMore(y: System, c: ClientId) {
    Overwhelmed(y, c, 1)
  }

  /** Nobody can leave a room one of whose members takes no more, that member included: the notice of
      leaving is sent to all members, and the lobby does not come back from it. */
  lemma NobodyLeaves(y: System, m: Move, x: ClientId, c: ClientId)
    requires G.Sound(y) && G.Guard(y, m) && TakesNoMore(y, c)
    requires c in y.lobby.clients && x in y.lobby.clients
    requires y.lobby.clients[c].room.Some? && y.lobby.clients[x].room == y.lobby.clients[c].room
    requires m == G.Resign(x)
             || (m.Handle? && m.client == x && Commands.Classify(y.procs[x].forwarder.message.line).LeaveRoom?)
    ensures G.Ready(y, m) && Doomed(G.Apply(y, m))
  {
    DoomedExactlyWhenBlocks(y, m);
    assert c in y.lobby.rooms[y.lobby.clients[c].room.value].members;
    assert Texts(y.lobby, G.Effect(y, m).value, c) == 1;
  }

  lemma LineRests(s: State, d: ClientId, m: Message, order: seq<string>, command: Commands.Command,
                  c: ClientId, r: RoomId)
    requires Resolved(s) && FreshIds(s) && d in s.clients && r in s.rooms && c in s.rooms[r].members
    requires LineTexts(s, d, command, c) == 0
    ensures Perform(s, d, m, order, command).rooms[r] == s.rooms[r]
  {
    if command.Join? && command.name in s.names {
      SwitchRests(s, d, command.name, r);
    }
  }

  lemma SwitchRests(s: State, d: ClientId, name: string, r: RoomId)
    requires Resolved(s) && d in s.clients && name in s.names && r in s.rooms
    requires s.names[name] != r && s.clients[d].room != Some(r)
    ensures JoinChatRoom(s, d, name).rooms[r] == s.rooms[r]
  {
    if s.clients[d].room.Some? {
      SwitchIsChange(s, d, name);
    }
  }

  lemma EventRests(s: State, e: Event, c: ClientId, r: RoomId)
    requires Resolved(s) && FreshIds(s) && Enabled(s, e) && r in s.rooms && c in s.rooms[r].members
    requires Texts(s, e, c) == 0
    ensures r in Step(s, e).rooms && Step(s, e).rooms[r].messages == s.rooms[r].messages
    ensures Step(s, e).rooms[r].members == s.rooms[r].members
  {
    match e
    case Incoming(d, m, order) => LineRests(s, d, m, order, Commands.Classify(m.line), c, r);
    case _ =>
  }

  /** An event that sends nothing to a client leaves it in its room. */
  lemma UnaddressedStays(s: State, e: Event, c: ClientId)
    requires Inv(s) && Enabled(s, e) && c in s.clients && s.clients[c].room.Some?
    requires Texts(s, e, c) == 0
    ensures c in Step(s, e).clients && Step(s, e).clients[c].room == s.clients[c].room
  {
    assert c in s.rooms[s.clients[c].room.value].members;
    if (e.Incoming? || e.Depart?) && e.client == c {
      assert e.Incoming? && Commands.Classify(e.message.line).Quit?;
    } else {
      Bystander(s, e, c);
    }
  }

  /** Client `c` is in room `r` and can take no text beyond those on their way; the room's history and
      members are these. */
  ghost predicate Resting(y: System, c: ClientId, r: RoomId, history: seq<Text>, members: seq<ClientId>) {
    && c in y.lobby.clients && y.lobby.clients[c].room == Some(r)
    && r in y.lobby.rooms && y.lobby.rooms[r].messages == history && y.lobby.rooms[r].members == members
    && Excess(y, c, 1)
  }

  lemma TurnRests(y: System, m: Move, c: ClientId, r: RoomId, history: seq<Text>, members: seq<ClientId>)
    requires G.Sound(y) && G.Guard(y, m) && IsTurn(m) && Resting(y, c, r, history, members)
    ensures G.Ready(y, m)
    ensures Doomed(G.Apply(y, m)) || Resting(G.Apply(y, m), c, r, history, members)
  {
    DoomedExactlyWhenBlocks(y, m);
    TurnFacts(y, m);
    NothingAhead(y, c);
    var e := G.Effect(y, m).value;
    if Texts(y.lobby, e, c) == 0 {
      assert c in y.lobby.rooms[r].members;
      EventRests(y.lobby, e, c, r);
      UnaddressedStays(y.lobby, e, c);
      AheadAfterTurn(y, m, c);
    } else {
      assert Overwhelmed(y, c, Texts(y.lobby, e, c));
    }
  }

  lemma OtherMoveRests(y: System, m: Move, c: ClientId, r: RoomId, history: seq<Text>, members: seq<ClientId>)
    requires G.Guard(y, m) && G.Ready(y, m) && !IsTurn(m) && Resting(y, c, r, history, members)
    ensures Resting(G.Apply(y, m), c, r, history, members)
  {
    ExcessPersists(y, m, c, 1);
  }

  ghost predicate Held(y: System, c: ClientId, r: RoomId, history: seq<Text>, members: seq<ClientId>) {
    Doomed(y) || Resting(y, c, r, history, members)
  }

  lemma HeldStep(y: System, m: Move, y': System, c: ClientId, r: RoomId, history: seq<Text>, members: seq<ClientId>)
    requires G.Sound(y) && G.MovesTo(y, m, y') && Held(y, c, r, history, members)
    ensures G.Sound(y') && Held(y', c, r, history, members)
  {
    MovesToKeepsSound(y, m, y');
    if Doomed(y) {
      DoomedStep(y, m, y');
    } else if IsTurn(m) {
      TurnRests(y, m, c, r, history, members);
    } else {
      OtherMoveRests(y, m, c, r, history, members);
    }
  }

  lemma HeldThroughout(ys: seq<System>, ms: seq<Move>, i: nat,
                       c: ClientId, r: RoomId, history: seq<Text>, members: seq<ClientId>)
    requires IsFragment(ys, ms) && i < |ys| && G.Sound(ys[0]) && Held(ys[0], c, r, history, members)
    ensures G.Sound(ys[i]) && Held(ys[i], c, r, history, members)
  {
    var holds := (y: System) => G.Sound(y) && Held(y, c, r, history, members);
    forall k, l | 0 <= k && l == k + 1 && l < |ys| && holds(ys[k]) ensures holds(ys[l]) {
      FragmentStep(ys, ms, k);
      HeldStep(ys[k], ms[k], ys[l], c, r, history, members);
    }
    CarriedAlong(holds, ys, i);
  }

  /** A room with a member that can take no text beyond those on their way is frozen: in every
      continuation, whenever the lobby is at its `select`, nobody has left or entered the room, by leaving,
      switching, disconnecting or the room's deletion, and nothing was said in it. */
  lemma LostMemberFreezesRoom(ys: seq<System>, ms: seq<Move>, i: nat, c: ClientId, r: RoomId)
    requires IsFragment(ys, ms) && i < |ys| && G.Sound(ys[0])
    requires Excess(ys[0], c, 1) && c in ys[0].lobby.clients && ys[0].lobby.clients[c].room == Some(r)
    ensures r in ys[0].lobby.rooms
    ensures G.Idle(ys[i]) ==>
              && r in ys[i].lobby.rooms && ys[i].lobby.rooms[r].messages == ys[0].lobby.rooms[r].messages
              && ys[i].lobby.rooms[r].members == ys[0].lobby.rooms[r].members
              && forall x :: x in ys[i].lobby.rooms[r].members ==>
                   x in ys[i].lobby.clients && ys[i].lobby.clients[x].room == Some(r)
  {
    var room := ys[0].lobby.rooms[r];
    HeldThroughout(ys, ms, i, c, r, room.messages, room.members);
    if G.Idle(ys[i]) {
      NotDoomedAtEnd(ys[i]);
      MembersStay(ys[i].lobby, c, r);
    }
  }

  lemma MembersStay(s: State, c: ClientId, r: RoomId)
    requires Inv(s) && c in s.clients && s.clients[c].room == Some(r)
    ensures forall x :: x in s.rooms[r].members ==> x in s.clients && s.clients[x].room == Some(r)
  {
    assert Live(s, r);
  }

  // ---------------------------------------------------------------- whatever the schedule

  /** `n` texts are more than the writer can take, at worst: on a connection closed by the server the
      present write may fail. */
  predicate MayExceed(writer: G.Writer, hungUp: bool, n: nat) {
    match writer
    case Waiting => hungUp && n > 1
    case Writing(what, late) => (late || hungUp) && n > 0
    case Failed => n > 0
    case Finished => n > 0
  }

  predicate Risked(y: System, c: ClientId, n: nat) {
    c in y.procs && MayExceed(y.procs[c].writer, HungUp(y.lobby, c), n)
  }

  predicate RisksNow(y: System, c: ClientId) {
    Risked(y, c, Ahead(y, c))
  }

  ghost predicate AtRisk(y: System) {
    exists c :: RisksNow(y, c)
  }

  ghost predicate Risks(y: System, m: Move)
    requires Resolved(y.lobby) && IsTurn(m) && G.Guard(y, m) && G.Ready(y, m)
  {
    exists x :: Risked(y, x, Texts(y.lobby, G.Effect(y, m).value, x))
  }

  lemma RiskAfterTurn(y: System, m: Move)
    requires G.Sound(y) && IsTurn(m) && G.Guard(y, m)
    ensures G.Ready(y, m)
    ensures AtRisk(G.Apply(y, m)) <==> Risks(y, m)
  {
    G.OffersAreEnabled(y, m);
    TurnFacts(y, m);
    var e := G.Effect(y, m).value;
    forall x ensures RisksNow(G.Apply(y, m), x) <==> Risked(y, x, Texts(y.lobby, e, x)) {
      AheadAfterTurn(y, m, x);
      if Texts(y.lobby, e, x) > 0 {
        HangsUpUnaddressed(y.lobby, e, x);
      }
    }
  }

  lemma DoomedIsAtRisk(y: System)
    requires Doomed(y)
    ensures AtRisk(y)
  {
    var c :| Excess(y, c, 0);
    assert RisksNow(y, c);
  }

  /** No step of the server's own, but a turn, brings a risk. */
  lemma RiskFromOwnStep(y: System, m: Move, c: ClientId)
    requires G.ChannelsOk(y) && G.Guard(y, m) && G.Ready(y, m) && Internal(y, m) && !IsTurn(m)
    requires RisksNow(G.Apply(y, m), c)
    ensures RisksNow(y, c)
  {
    var y' := G.Apply(y, m);
    if m.Transmit? {
      NextAhead(y, c);
      SameAhead(y.(done := y.done + 1), y', c);
    } else {
      SameAhead(y, y', c);
      if c in y.closed {
        UnaddressedLog(y.lobby.out[y.done..], c);
      }
    }
  }

  /** In the middle of a handler some schedule of the server's own steps blocks the lobby if and only if
      there is a client to which it may have to send more than can be taken at worst. */
  lemma MayBlockIff(y: System)
    requires G.Sound(y)
    ensures AtRisk(y) <==>
            exists ys, ms :: IsFragment(ys, ms) && ys[0] == y && Doomed(ys[|ys| - 1]) && OwnSteps(ys, ms)
  {
    if AtRisk(y) {
      var ys, ms := RunsIntoBlock(y);
    }
    if ys, ms :| IsFragment(ys, ms) && ys[0] == y && Doomed(ys[|ys| - 1]) && OwnSteps(ys, ms) {
      if !AtRisk(y) {
        SafeThroughout(ys, ms, |ys| - 1);
        DoomedIsAtRisk(ys[|ys| - 1]);
      }
    }
  }

  /** Steps of the server's own within one handler. */
  ghost predicate OwnSteps(ys: seq<System>, ms: seq<Move>)
    requires |ys| == |ms| + 1
  {
    forall k :: 0 <= k < |ms| ==> Internal(ys[k], ms[k]) && !IsTurn(ms[k])
  }

  lemma RunsIntoBlock(y: System) returns (ys: seq<System>, ms: seq<Move>)
    requires AtRisk(y)
    ensures IsFragment(ys, ms) && ys[0] == y && Doomed(ys[|ys| - 1]) && OwnSteps(ys, ms)
  {
    if Doomed(y) {
      ys, ms := [y], [];
    } else {
      var c :| RisksNow(y, c);
      assert !Excess(y, c, 0);
      FailureBlocks(y, c);
      ys, ms := [y, G.Apply(y, G.WriteError(c))], [G.WriteError(c)];
    }
  }

  /** A risk that is no doom yet is a write that may fail. */
  lemma FailureBlocks(y: System, c: ClientId)
    requires RisksNow(y, c) && !Excess(y, c, 0)
    ensures G.Guard(y, G.WriteError(c)) && G.Ready(y, G.WriteError(c)) && Internal(y, G.WriteError(c))
    ensures Doomed(G.Apply(y, G.WriteError(c)))
  {
    SameAhead(y, G.Apply(y, G.WriteError(c)), c);
    assert Excess(G.Apply(y, G.WriteError(c)), c, 0);
  }

  lemma SafeStep(y: System, m: Move, y': System)
    requires G.Sound(y) && !AtRisk(y) && G.MovesTo(y, m, y') && Internal(y, m) && !IsTurn(m)
    ensures G.Sound(y') && !AtRisk(y')
  {
    MovesToKeepsSound(y, m, y');
    if c :| RisksNow(y', c) {
      RiskFromOwnStep(y, m, c);
    }
  }

  lemma SafeThroughout(ys: seq<System>, ms: seq<Move>, i: nat)
    requires IsFragment(ys, ms) && i < |ys| && G.Sound(ys[0]) && !AtRisk(ys[0]) && OwnSteps(ys, ms)
    ensures !AtRisk(ys[i])
  {
    var holds := (y: System) => G.Sound(y) && !AtRisk(y);
    forall k, l | 0 <= k && l == k + 1 && l < |ys| && holds(ys[k]) ensures holds(ys[l]) {
      FragmentStep(ys, ms, k);
      SafeStep(ys[k], ms[k], ys[l]);
    }
    CarriedAlong(holds, ys, i);
  }

  /** After the lobby has taken up an event, no schedule of the server's own steps blocks it, if and only if
      the event has for nobody more texts than can be taken at worst. */
  lemma TurnNeverBlocksIff(y: System, m: Move)
    requires G.Sound(y) && IsTurn(m) && G.Guard(y, m)
    ensures G.Ready(y, m)
    ensures !Risks(y, m) <==>
            !exists ys, ms :: IsFragment(ys, ms) && ys[0] == G.Apply(y, m) && Doomed(ys[|ys| - 1]) && OwnSteps(ys, ms)
  {
    RiskAfterTurn(y, m);
    G.MoveKeepsSound(y, m);
    MayBlockIff(G.Apply(y, m));
  }
}
