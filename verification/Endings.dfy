/** Which clients the server can be rid of: those it once admitted, if they can leave the room they are in.
    The goroutines of a client it refused wait for ever: nobody closes or drains their channels. */
module Endings {
  import opened GoStrings
  import opened LobbyModel
  import opened Membership
  import opened Invariant
  import G = Goroutines
  import opened Progress
  import opened Audiences
  import opened Blocking
  import opened Settling

  /** The reader, the forwarder and the writer of the client have returned, and its channel is closed. */
  predicate Departed(y: System, c: ClientId) {
    && c in y.procs && c in y.closed
    && y.procs[c].reader.Ended? && y.procs[c].forwarder.Gone?
    && (y.procs[c].writer.Finished? || y.procs[c].writer.Failed?)
  }

  predicate Admitted(y: System, c: ClientId) {
    c in y.procs && c in y.lobby.clients && y.lobby.clients[c].link != Refused
  }

  lemma LobbyAdvances(y: System, m: Move, y': System)
    requires G.Sound(y) && G.MovesTo(y, m, y')
    ensures G.Ready(y, m) && y' == G.Apply(y, m) && ClientsAdvance(y.lobby, y'.lobby)
  {
    G.OffersAreEnabled(y, m);
    G.MoveIsEvent(y, m);
    if G.Effect(y, m).Some? {
      StepAdvances(y.lobby, G.Effect(y, m).value);
    }
  }

  // ---------------------------------------------------------------- leaving

  /** No member of the client's room is short of room for a notice beyond the texts on their way. */
  ghost predicate CanLeave(y: System, c: ClientId)
    requires Resolved(y.lobby) && c in y.lobby.clients
  {
    y.lobby.clients[c].room.Some? ==>
      forall x :: x in y.lobby.rooms[y.lobby.clients[c].room.value].members ==> !Excess(y, x, 1)
  }

  predicate NoLinePending(p: G.Proc) {
    !p.reader.Offering? && !p.forwarder.Forwarding?
  }

  lemma Joined(ys: seq<System>, ms: seq<Move>, zs: seq<System>, ns: seq<Move>)
    returns (xs: seq<System>, ls: seq<Move>)
    requires IsFragment(ys, ms) && IsFragment(zs, ns) && ys[|ys| - 1] == zs[0]
    ensures IsFragment(xs, ls) && xs[0] == ys[0] && xs[|xs| - 1] == zs[|zs| - 1]
  {
    xs, ls := ys + zs[1..], ms + ns;
    forall i | 0 <= i < |ls| ensures G.MovesTo(xs[i], ls[i], xs[i + 1]) {
      if i < |ms| {
        FragmentStep(ys, ms, i);
      } else {
        FragmentStep(zs, ns, i - |ms|);
      }
    }
  }

  /** Between the two systems only the reader and the forwarder of one client moved. */
  ghost predicate SameWriters(y: System, z: System) {
    && z.lobby == y.lobby && z.done == y.done && z.closed == y.closed && z.closing == y.closing
    && z.procs.Keys == y.procs.Keys && forall x :: x in y.procs ==> z.procs[x].writer == y.procs[x].writer
  }

  lemma SameExcess(y: System, z: System, c: ClientId)
    requires SameWriters(y, z) && Resolved(y.lobby) && c in y.lobby.clients && CanLeave(y, c)
    ensures CanLeave(z, c)
  {
    forall x | Excess(z, x, 1) ensures Excess(y, x, 1) {
      SameAhead(y, z, x);
    }
  }

  lemma StopReadingMoves(y: System, c: ClientId)
    requires c in y.procs && y.procs[c].reader.Reading?
    ensures var z := G.Apply(y, G.StopReading(c));
            && G.MovesTo(y, G.StopReading(c), z) && SameWriters(y, z)
            && z.procs[c].reader.Ended? && z.procs[c].forwarder == y.procs[c].forwarder
  {
  }

  lemma SeeEndMoves(y: System, c: ClientId)
    requires c in y.procs && y.procs[c].reader.Ended? && y.procs[c].forwarder.Receiving?
    ensures var z := G.Apply(y, G.SeeEnd(c));
            G.MovesTo(y, G.SeeEnd(c), z) && SameWriters(y, z) && z.procs[c].forwarder.Leaving?
  {
  }

  /** The reader stops and the forwarder finds out. */
  lemma ToLeaving(y: System, c: ClientId) returns (ys: seq<System>, ms: seq<Move>, z: System)
    requires c in y.procs && NoLinePending(y.procs[c])
    requires y.procs[c].forwarder.Receiving? || y.procs[c].forwarder.Leaving?
    ensures IsFragment(ys, ms) && ys[0] == y && z == ys[|ys| - 1]
    ensures SameWriters(y, z) && z.procs[c].forwarder.Leaving?
  {
    ys, ms, z := [y], [], y;
    if z.procs[c].forwarder.Receiving? && z.procs[c].reader.Reading? {
      StopReadingMoves(z, c);
      ys, ms := Append(ys, ms, G.StopReading(c));
      z := ys[|ys| - 1];
    }
    if z.procs[c].forwarder.Receiving? {
      SeeEndMoves(z, c);
      ys, ms := Append(ys, ms, G.SeeEnd(c));
      z := ys[|ys| - 1];
    }
  }

  lemma FragmentSound(ys: seq<System>, ms: seq<Move>, i: nat)
    requires IsFragment(ys, ms) && i < |ys| && G.Sound(ys[0])
    ensures G.Sound(ys[i])
  {
    forall k, l | 0 <= k && l == k + 1 && l < |ys| && G.Sound(ys[k]) ensures G.Sound(ys[l]) {
      FragmentStep(ys, ms, k);
      MovesToKeepsSound(ys[k], ms[k], ys[l]);
    }
    CarriedAlong((y: System) => G.Sound(y), ys, i);
  }

  /** A departure that everybody in the room can be told of does not block. */
  lemma DepartureTold(y: System, c: ClientId)
    requires G.Sound(y) && G.Idle(y) && c in y.procs && y.procs[c].forwarder.Leaving?
    requires c in y.lobby.clients && CanLeave(y, c)
    ensures G.Guard(y, G.Resign(c)) && G.Ready(y, G.Resign(c)) && !Doomed(G.Apply(y, G.Resign(c)))
  {
    var m := G.Resign(c);
    DoomedExactlyWhenBlocks(y, m);
    forall x ensures !Overwhelmed(y, x, Texts(y.lobby, Depart(c), x)) {
      NothingAhead(y, x);
      if Texts(y.lobby, Depart(c), x) > 0 {
        assert !Excess(y, x, 1);
      }
    }
  }

  /** The writer of a client whose channel is closed can end. */
  lemma WriterEnds(y: System, c: ClientId) returns (ys: seq<System>, ms: seq<Move>)
    requires c in y.procs && c in y.closed && y.procs[c].reader.Ended? && y.procs[c].forwarder.Gone?
    ensures IsFragment(ys, ms) && ys[0] == y && Departed(ys[|ys| - 1], c)
  {
    ys, ms := [y], [];
    if y.procs[c].writer.Waiting? {
      ys, ms := Append(ys, ms, G.StopWriting(c));
    } else if y.procs[c].writer.Writing? {
      ys, ms := Append(ys, ms, G.WriteError(c));
    }
  }

  /** At the lobby's `select` the channel of a client that has left is closed. */
  lemma GoneIsClosed(y: System, c: ClientId)
    requires G.Wired(y) && G.Idle(y) && c in y.procs && y.procs[c].forwarder.Gone?
    ensures c in y.closed && y.procs[c].reader.Ended?
  {
    assert G.ProcOk(y.lobby, y.done, c, y.procs[c]);
  }

  lemma CompletesSound(y: System) returns (ys: seq<System>, ms: seq<Move>, z: System)
    requires G.Sound(y) && !Doomed(y)
    ensures IsFragment(ys, ms) && ys[0] == y && z == ys[|ys| - 1]
    ensures G.Sound(z) && G.Idle(z) && OnlyWrote(y, z)
  {
    ys, ms := HandlerCompletes(y);
    z := ys[|ys| - 1];
  }

  lemma CanStillLeave(y: System, z: System, c: ClientId)
    requires OnlyWrote(y, z) && Resolved(y.lobby) && c in y.lobby.clients && CanLeave(y, c)
    ensures CanLeave(z, c)
  {
    forall x | Excess(z, x, 1) ensures Excess(y, x, 1) {
      assert NoTighter(y, z);
    }
  }

  lemma ForwarderOfAdmitted(y: System, c: ClientId)
    requires G.ProcsOk(y) && Admitted(y, c)
    ensures !y.procs[c].forwarder.Unstarted?
  {
    assert G.ProcOk(y.lobby, y.done, c, y.procs[c]);
  }

  /** A client at the lobby's `select` that can leave can be got rid of. */
  lemma LeavesAndEnds(y: System, c: ClientId) returns (ys: seq<System>, ms: seq<Move>)
    requires G.Sound(y) && G.Idle(y) && Admitted(y, c) && NoLinePending(y.procs[c]) && CanLeave(y, c)
    requires !y.procs[c].forwarder.Gone?
    ensures IsFragment(ys, ms) && ys[0] == y && Departed(ys[|ys| - 1], c)
  {
    ForwarderOfAdmitted(y, c);
    var z;
    ys, ms, z := ToLeaving(y, c);
    FragmentSound(ys, ms, |ys| - 1);
    SameExcess(y, z, c);
    DepartureTold(z, c);
    ys, ms := Append(ys, ms, G.Resign(c));
    G.MoveKeepsSound(z, G.Resign(c));
    var zs, ns, w := CompletesSound(G.Apply(z, G.Resign(c)));
    ys, ms := Joined(ys, ms, zs, ns);
    GoneIsClosed(w, c);
    zs, ns := WriterEnds(w, c);
    ys, ms := Joined(ys, ms, zs, ns);
  }

  /** From any sound system that is not blocked: a client without a line on its way that can leave. */
  lemma CanEnd(y: System, c: ClientId) returns (ys: seq<System>, ms: seq<Move>)
    requires G.Sound(y) && !Doomed(y) && Admitted(y, c) && NoLinePending(y.procs[c]) && CanLeave(y, c)
    ensures IsFragment(ys, ms) && ys[0] == y && Departed(ys[|ys| - 1], c)
  {
    var z, zs, ns;
    ys, ms, z := CompletesSound(y);
    CanStillLeave(y, z, c);
    if z.procs[c].forwarder.Gone? {
      GoneIsClosed(z, c);
      zs, ns := WriterEnds(z, c);
    } else {
      zs, ns := LeavesAndEnds(z, c);
    }
    ys, ms := Joined(ys, ms, zs, ns);
  }

  // ---------------------------------------------------------------- not leaving

  /** The client sits in a room with a member that takes no more, or the lobby is blocked. */
  ghost predicate Trapped(y: System, c: ClientId, x: ClientId, r: RoomId, history: seq<Text>, members: seq<ClientId>) {
    c !in y.closed && c in members && Held(y, x, r, history, members)
  }

  lemma TrappedStep(y: System, m: Move, y': System,
                    c: ClientId, x: ClientId, r: RoomId, history: seq<Text>, members: seq<ClientId>)
    requires G.Sound(y) && G.MovesTo(y, m, y') && Trapped(y, c, x, r, history, members)
    ensures G.Sound(y') && Trapped(y', c, x, r, history, members)
  {
    HeldStep(y, m, y', x, r, history, members);
    if m.CloseOut? {
      ClosesAtEnd(y);
      NotDoomedAtEnd(y);
      MemberNotClosing(y, c, x, r);
    }
    G.OffersAreEnabled(y, m);
    ClosesOne(y, m);
  }

  lemma MemberNotClosing(y: System, c: ClientId, x: ClientId, r: RoomId)
    requires Inv(y.lobby) && G.ChannelsOk(y) && y.closing.Some?
    requires x in y.lobby.clients && y.lobby.clients[x].room == Some(r) && c in y.lobby.rooms[r].members
    ensures y.closing.value != c
  {
    MembersStay(y.lobby, x, r);
    ClosingHasLeft(y);
  }

  lemma ClosesAtEnd(y: System)
    requires G.Guard(y, G.CloseOut)
    ensures y.done == |y.lobby.out| && y.closing.Some?
  {
  }

  lemma ClosesOne(y: System, m: Move)
    requires G.Guard(y, m) && G.Ready(y, m)
    ensures G.Apply(y, m).closed == if m.CloseOut? then y.closed + {y.closing.value} else y.closed
  {
  }

  lemma ClosingHasLeft(y: System)
    requires G.ChannelsOk(y) && BackPointers(y.lobby) && y.closing.Some?
    ensures y.closing.value in y.lobby.clients && y.lobby.clients[y.closing.value].room.None?
  {
    var c := y.closing.value;
    assert y.lobby.clients[c].link == Detached;
  }

  lemma TrappedAlong(ys: seq<System>, ms: seq<Move>, i: nat,
                     c: ClientId, x: ClientId, r: RoomId, history: seq<Text>, members: seq<ClientId>)
    requires IsFragment(ys, ms) && i < |ys| && G.Sound(ys[0]) && Trapped(ys[0], c, x, r, history, members)
    ensures Trapped(ys[i], c, x, r, history, members)
  {
    var holds := (y: System) => G.Sound(y) && Trapped(y, c, x, r, history, members);
    forall k, l | 0 <= k && l == k + 1 && l < |ys| && holds(ys[k]) ensures holds(ys[l]) {
      FragmentStep(ys, ms, k);
      TrappedStep(ys[k], ms[k], ys[l], c, x, r, history, members);
    }
    CarriedAlong(holds, ys, i);
  }

  /** A client that shares a room with a member that takes no more is never got rid of. */
  lemma NeverEndsTrapped(ys: seq<System>, ms: seq<Move>, i: nat, c: ClientId)
    requires IsFragment(ys, ms) && i < |ys| && G.Sound(ys[0])
    requires c in ys[0].lobby.clients && !CanLeave(ys[0], c)
    ensures !Departed(ys[i], c)
  {
    var s := ys[0].lobby;
    var r := s.clients[c].room.value;
    var x :| x in s.rooms[r].members && Excess(ys[0], x, 1);
    MemberPoints(s, c, x, r);
    TrappedAlong(ys, ms, i, c, x, r, s.rooms[r].messages, s.rooms[r].members);
  }

  lemma MemberPoints(s: State, c: ClientId, x: ClientId, r: RoomId)
    requires Agreement(s) && c in s.clients && s.clients[c].room == Some(r) && x in s.rooms[r].members
    ensures x in s.clients && s.clients[x].room == Some(r) && c in s.rooms[r].members && s.clients[c].link == Attached
  {
    assert Live(s, r);
  }

  // ---------------------------------------------------------------- refused clients

  /** The client was refused, or not admitted yet. */
  predicate Outside(y: System, c: ClientId) {
    c !in y.lobby.clients || y.lobby.clients[c].link == Refused
  }

  /** Nothing is on its way to the client, and its writer waits. */
  predicate Unheard(y: System, c: ClientId) {
    c in y.procs && y.procs[c].writer.Waiting? && forall i :: y.done <= i < |y.lobby.out| ==> y.lobby.out[i].to != c
  }

  /** Clients outside the lobby are sent nothing. */
  ghost predicate OutsideUnheard(y: System, c: ClientId) {
    c in y.procs && Outside(y, c) ==> Unheard(y, c)
  }

  /** New sends of an event go to no client that is outside afterwards. */
  lemma NothingForOutside(s: State, e: Event, c: ClientId)
    requires Inv(s) && Enabled(s, e)
    requires c !in Step(s, e).clients || Step(s, e).clients[c].link == Refused
    ensures c !in s.clients || s.clients[c].link == Refused
    ensures s.out <= Step(s, e).out
    ensures forall i :: |s.out| <= i < |Step(s, e).out| ==> Step(s, e).out[i].to != c
  {
    StepAdvances(s, e);
    if c !in s.clients && c in Step(s, e).clients {
      NewClientsArrive(s, e, c);
    }
  }

  lemma EventUnheard(y: System, m: Move, c: ClientId)
    requires G.Sound(y) && G.Guard(y, m) && G.Ready(y, m) && G.Effect(y, m).Some? && OutsideUnheard(y, c)
    ensures OutsideUnheard(G.Apply(y, m), c)
  {
    G.MoveIsEvent(y, m);
    if c in y.procs && Outside(G.Apply(y, m), c) {
      NothingForOutside(y.lobby, G.Effect(y, m).value, c);
    }
  }

  lemma OtherMoveUnheard(y: System, m: Move, c: ClientId)
    requires forall i :: 0 <= i < |y.lobby.out| ==> y.lobby.out[i].to in y.procs
    requires c in y.procs && y.procs[c].writer.Waiting? && Outside(y, c) ==> c !in y.closed
    requires G.Guard(y, m) && G.Ready(y, m) && G.Effect(y, m).None? && OutsideUnheard(y, c)
    ensures OutsideUnheard(G.Apply(y, m), c)
  {
  }

  lemma MoveUnheard(y: System, m: Move, y': System, c: ClientId)
    requires G.Sound(y) && G.MovesTo(y, m, y') && OutsideUnheard(y, c)
    ensures OutsideUnheard(y', c) && G.Sound(y')
  {
    MovesToKeepsSound(y, m, y');
    if G.Effect(y, m).Some? {
      EventUnheard(y, m, c);
    } else {
      OtherMoveUnheard(y, m, c);
    }
  }

  lemma UnheardAlong(ys: seq<System>, ms: seq<Move>, i: nat, c: ClientId)
    requires IsFragment(ys, ms) && i < |ys| && G.Sound(ys[0]) && OutsideUnheard(ys[0], c)
    ensures OutsideUnheard(ys[i], c)
  {
    var holds := (y: System) => G.Sound(y) && OutsideUnheard(y, c);
    forall k, l | 0 <= k && l == k + 1 && l < |ys| && holds(ys[k]) ensures holds(ys[l]) {
      FragmentStep(ys, ms, k);
      MoveUnheard(ys[k], ms[k], ys[l], c);
    }
    CarriedAlong(holds, ys, i);
  }

  /** A refused client stays refused. */
  lemma RefusedNext(y: System, m: Move, y': System, c: ClientId)
    requires G.Sound(y) && G.MovesTo(y, m, y')
    requires c in y.lobby.clients && y.lobby.clients[c].link == Refused
    ensures c in y'.lobby.clients && y'.lobby.clients[c].link == Refused
  {
    LobbyAdvances(y, m, y');
  }

  lemma RefusedAlong(ys: seq<System>, ms: seq<Move>, i: nat, c: ClientId)
    requires IsFragment(ys, ms) && i < |ys| && G.Sound(ys[0])
    requires c in ys[0].lobby.clients && ys[0].lobby.clients[c].link == Refused
    ensures c in ys[i].lobby.clients && ys[i].lobby.clients[c].link == Refused
  {
    var holds := (y: System) => G.Sound(y) && c in y.lobby.clients && y.lobby.clients[c].link == Refused;
    forall k, l | 0 <= k && l == k + 1 && l < |ys| && holds(ys[k]) ensures holds(ys[l]) {
      FragmentStep(ys, ms, k);
      RefusedNext(ys[k], ms[k], ys[l], c);
      MovesToKeepsSound(ys[k], ms[k], ys[l]);
    }
    CarriedAlong(holds, ys, i);
  }

  /** A refused client is sent nothing, and its writer waits for ever. */
  lemma RefusedWriterWaits(ys: seq<System>, ms: seq<Move>, i: nat, c: ClientId)
    requires G.IsExecution(ys, ms) && i < |ys|
    requires c in ys[i].lobby.clients && ys[i].lobby.clients[c].link == Refused
    ensures Unheard(ys[i], c)
  {
    InitInv(ys[0].lobby.now);
    UnheardAlong(ys, ms, i, c);
    G.ExecutionSound(ys, ms, i);
  }

  lemma OfferStays(y: System, m: Move, c: ClientId)
    requires G.ProcsOk(y) && G.Guard(y, m) && G.Ready(y, m) && c in y.procs
    requires c in y.lobby.clients && y.lobby.clients[c].link == Refused && y.procs[c].reader.Offering?
    ensures c in G.Apply(y, m).procs && G.Apply(y, m).procs[c].reader == y.procs[c].reader
  {
    assert G.ProcOk(y.lobby, y.done, c, y.procs[c]);
  }

  /** The reader of a refused client, once it has read a line, offers it for ever. */
  lemma RefusedReaderOffers(ys: seq<System>, ms: seq<Move>, i: nat, c: ClientId)
    requires IsFragment(ys, ms) && i < |ys| && G.Sound(ys[0]) && c in ys[0].procs
    requires c in ys[0].lobby.clients && ys[0].lobby.clients[c].link == Refused && ys[0].procs[c].reader.Offering?
    ensures c in ys[i].procs && ys[i].procs[c].reader == ys[0].procs[c].reader
  {
    var reader := ys[0].procs[c].reader;
    var holds := (y: System) =>
      G.Sound(y) && c in y.lobby.clients && y.lobby.clients[c].link == Refused &&
      c in y.procs && y.procs[c].reader == reader;
    forall k, l | 0 <= k && l == k + 1 && l < |ys| && holds(ys[k]) ensures holds(ys[l]) {
      FragmentStep(ys, ms, k);
      RefusedNext(ys[k], ms[k], ys[l], c);
      MovesToKeepsSound(ys[k], ms[k], ys[l]);
      OfferStays(ys[k], ms[k], c);
    }
    CarriedAlong(holds, ys, i);
  }

  // ---------------------------------------------------------------- exactly which

  lemma RefusedNeverEnds(ys: seq<System>, ms: seq<Move>, i: nat, c: ClientId)
    requires IsFragment(ys, ms) && i < |ys| && G.Sound(ys[0])
    requires c in ys[0].lobby.clients && ys[0].lobby.clients[c].link == Refused
    ensures !Departed(ys[i], c)
  {
    RefusedAlong(ys, ms, i, c);
    FragmentSound(ys, ms, i);
  }

  /** While the lobby is not blocked, the server can be rid of a client no line of which is on its way, its
      goroutines ended and its channel closed, if and only if the client was not refused and every member
      of its room can take a notice beyond the texts on their way. */
  lemma EndsIff(ys: seq<System>, ms: seq<Move>, i: nat, c: ClientId)
    requires G.IsExecution(ys, ms) && i < |ys| && !Doomed(ys[i])
    requires c in ys[i].lobby.clients && c in ys[i].procs && NoLinePending(ys[i].procs[c])
    ensures Resolved(ys[i].lobby)
    ensures (exists zs, ns :: IsFragment(zs, ns) && zs[0] == ys[i] && Departed(zs[|zs| - 1], c))
            <==> ys[i].lobby.clients[c].link != Refused && CanLeave(ys[i], c)
  {
    G.ExecutionSound(ys, ms, i);
    if ys[i].lobby.clients[c].link == Refused {
      forall zs, ns | IsFragment(zs, ns) && zs[0] == ys[i] ensures !Departed(zs[|zs| - 1], c) {
        RefusedNeverEnds(zs, ns, |zs| - 1, c);
      }
    } else if !CanLeave(ys[i], c) {
      forall zs, ns | IsFragment(zs, ns) && zs[0] == ys[i] ensures !Departed(zs[|zs| - 1], c) {
        NeverEndsTrapped(zs, ns, |zs| - 1, c);
      }
    } else {
      var zs, ns := CanEnd(ys[i], c);
    }
  }

  // ---------------------------------------------------------------- calm systems

  lemma AdmittedNext(y: System, m: Move, y': System, c: ClientId)
    requires G.Sound(y) && G.MovesTo(y, m, y') && Admitted(y, c)
    ensures Admitted(y', c)
  {
    LobbyAdvances(y, m, y');
    StaysAdmitted(y, m, c);
  }

  lemma StaysAdmitted(y: System, m: Move, c: ClientId)
    requires G.Guard(y, m) && G.Ready(y, m) && ClientsAdvance(y.lobby, G.Apply(y, m).lobby) && Admitted(y, c)
    ensures Admitted(G.Apply(y, m), c)
  {
  }

  /** What is left when nothing is owed: a client that has ended, or one whose reader waits. */
  lemma SettledClient(y: System, c: ClientId)
    requires G.Wired(y) && !Owes(y) && Admitted(y, c)
    ensures Departed(y, c) || (y.procs[c].reader.Reading? && y.procs[c].forwarder.Receiving? && !HungUp(y.lobby, c))
  {
    assert G.ProcOk(y.lobby, y.done, c, y.procs[c]);
    assert !OwesClient(y, c);
  }

  lemma CalmCanLeave(y: System, c: ClientId)
    requires G.Sound(y) && Calm(y) && G.Idle(y) && c in y.lobby.clients
    ensures CanLeave(y, c)
  {
    if y.lobby.clients[c].room.Some? {
      var r := y.lobby.clients[c].room.value;
      forall x | x in y.lobby.rooms[r].members ensures !Excess(y, x, 1) {
        MemberPoints(y.lobby, c, x, r);
        MemberPoints(y.lobby, x, x, r);
        NothingAhead(y, x);
        assert CalmClient(y, x);
      }
    }
  }

  lemma CalmCanEnd(y: System, c: ClientId) returns (ys: seq<System>, ms: seq<Move>)
    requires G.Sound(y) && Calm(y) && Admitted(y, c)
    ensures IsFragment(ys, ms) && ys[0] == y && Departed(ys[|ys| - 1], c)
  {
    var z;
    ys, ms, z := CalmStops(y, c);
    SettledClient(z, c);
    if !Departed(z, c) {
      CalmCanLeave(z, c);
      CalmIsNotDoomed(z);
      var zs, ns := CanEnd(z, c);
      ys, ms := Joined(ys, ms, zs, ns);
    }
  }

  lemma CalmStops(y: System, c: ClientId) returns (ys: seq<System>, ms: seq<Move>, z: System)
    requires G.Sound(y) && Calm(y) && Admitted(y, c)
    ensures IsFragment(ys, ms) && ys[0] == y && z == ys[|ys| - 1]
    ensures G.Sound(z) && Calm(z) && Admitted(z, c) && !Owes(z)
  {
    var holds := (x: System) => G.Sound(x) && Calm(x) && Admitted(x, c);
    forall x, m, x' | holds(x) && Internal(x, m) && G.MovesTo(x, m, x') ensures holds(x') {
      CalmStep(x, m, x');
      AdmittedNext(x, m, x', c);
    }
    ys, ms := ServerStops(y, holds);
    z := ys[|ys| - 1];
    CalmIsNotDoomed(z);
    StoppedOwesIffDoomed(z);
  }

  /** As long as no connection has failed or been closed but those of refused clients, and no `/q` is
      pending, the server can be rid of any client it has heard of if and only if the client was not
      refused, whatever lines are on their way. */
  lemma EndsIffAdmitted(ys: seq<System>, ms: seq<Move>, i: nat, c: ClientId)
    requires G.IsExecution(ys, ms) && i < |ys| && Calm(ys[i]) && c in ys[i].lobby.clients
    ensures (exists zs, ns :: IsFragment(zs, ns) && zs[0] == ys[i] && Departed(zs[|zs| - 1], c))
            <==> ys[i].lobby.clients[c].link != Refused
  {
    G.ExecutionSound(ys, ms, i);
    if ys[i].lobby.clients[c].link == Refused {
      forall zs, ns | IsFragment(zs, ns) && zs[0] == ys[i] ensures !Departed(zs[|zs| - 1], c) {
        RefusedNeverEnds(zs, ns, |zs| - 1, c);
      }
    } else {
      var zs, ns := CalmCanEnd(ys[i], c);
    }
  }

  /** `/q` takes effect: under every schedule of the server's own steps that goes on while it can, every
      admitted client whose connection the server has closed is got rid of, unless the lobby gets blocked. */
  lemma EveryQuitEnds(ys: nat -> System, ms: nat -> Move) returns (n: nat)
    requires G.Sound(ys(0)) && forall i: nat :: CanMove(ys(i)) ==> StepsAt(ys, ms, i)
    ensures forall k: nat :: k < n ==> StepsAt(ys, ms, k)
    ensures Doomed(ys(n)) || forall c :: Admitted(ys(n), c) && HungUp(ys(n).lobby, c) ==> Departed(ys(n), c)
  {
    n := EveryScheduleSettles(ys, ms);
    if !Doomed(ys(n)) {
      forall c | Admitted(ys(n), c) && HungUp(ys(n).lobby, c) ensures Departed(ys(n), c) {
        SettledClient(ys(n), c);
      }
    }
  }
}
