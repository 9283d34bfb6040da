/** Who waits for whom, and when the lobby gets on with its work. */
module Progress {
  import opened GoStrings
  import opened LobbyModel
  import opened Membership
  import opened Transcripts
  import opened Goroutines

  // ---------------------------------------------------------------- circular waits

  datatype Goroutine =
    | ReaderOf(client: ClientId)
    | ForwarderOf(client: ClientId)
    | WriterOf(client: ClientId)
    | TimerOf(timer: TimerId)
    | LobbyLoop

  /** `g` is blocked at a channel operation whose other end belongs to `h`, and `h` is not there. */
  predicate WaitsFor(y: System, g: Goroutine, h: Goroutine) {
    match g
    case ReaderOf(c) =>
      c in y.procs && y.procs[c].reader.Offering? && !y.procs[c].forwarder.Receiving? && h == ForwarderOf(c)
    case ForwarderOf(c) =>
      && c in y.procs
      && (   (y.procs[c].forwarder.Receiving? && y.procs[c].reader.Reading? && h == ReaderOf(c))
          || ((y.procs[c].forwarder.Forwarding? || y.procs[c].forwarder.Leaving?) && !Idle(y) && h == LobbyLoop))
    case WriterOf(c) =>
      && c in y.procs && y.procs[c].writer.Waiting? && c !in y.closed
      && !(y.done < |y.lobby.out| && y.lobby.out[y.done].to == c)
      && h == LobbyLoop
    case TimerOf(t) =>
      t in y.lobby.timers && y.lobby.timers[t].phase.Sleeping? && y.lobby.timers[t].phase.due <= y.lobby.now
      && !Idle(y) && h == LobbyLoop
    case LobbyLoop =>
      if y.done < |y.lobby.out| then
        var c := y.lobby.out[y.done].to;
        c in y.procs && !y.procs[c].writer.Waiting? && h == WriterOf(c)
      else
        y.closing.None? && h.ForwarderOf? && h.client in y.procs && y.procs[h.client].forwarder.Receiving?
  }

  /** A goroutine waits only for goroutines of lower rank. */
  function Rank(y: System, g: Goroutine): nat {
    match g
    case ReaderOf(c) => if c in y.procs && y.procs[c].reader.Offering? then 5 else 0
    case ForwarderOf(c) =>
      if c in y.procs && (y.procs[c].forwarder.Forwarding? || y.procs[c].forwarder.Leaving?) then 4 else 1
    case WriterOf(c) => if c in y.procs && y.procs[c].writer.Waiting? then 4 else 0
    case TimerOf(t) => 4
    case LobbyLoop => 3
  }

  lemma {:induction false} RanksFall(y: System, gs: seq<Goroutine>, k: nat)
    requires forall i :: 0 <= i < |gs| - 1 ==> WaitsFor(y, gs[i], gs[i + 1])
    requires k < |gs|
    ensures Rank(y, gs[k]) + k <= Rank(y, gs[0])
  {
    if k > 0 {
      RanksFall(y, gs, k - 1);
      assert WaitsFor(y, gs[k - 1], gs[k - 1 + 1]);
    }
  }

  /** No goroutines wait for one another in a circle, in whatever state. */
  lemma NoCircularWait(y: System, gs: seq<Goroutine>)
    requires gs != [] && forall i :: 0 <= i < |gs| - 1 ==> WaitsFor(y, gs[i], gs[i + 1])
    ensures !WaitsFor(y, gs[|gs| - 1], gs[0])
  {
    RanksFall(y, gs, |gs| - 1);
  }

  // ---------------------------------------------------------------- no deadlock

  /** A move of the server itself, not of the network, the clock, or a failing connection. On a connection
      the server has closed, reading waits for nobody, and a write may fail at any time. */
  predicate Internal(y: System, m: Move) {
    match m
    case Connect(c, stream) => false
    case Admit(c) => false
    case Read(c) => HungUp(y.lobby, c)
    case StopReading(c) => HungUp(y.lobby, c)
    case WriteError(c) => HungUp(y.lobby, c) || (c in y.procs && y.procs[c].writer.Writing? && y.procs[c].writer.late)
    case Pass(time) => false
    case _ => true
  }

  /** The lobby takes up an event. */
  predicate IsTurn(m: Move) {
    m.Admit? || m.Handle? || m.Resign? || m.Ring?
  }

  /** The timer has not begun to sleep, or is due. */
  predicate Waits(s: State, t: TimerId)
    requires t in s.timers
  {
    s.timers[t].phase.Sleeping? ==> s.timers[t].phase.due <= s.now
  }

  /** A client is owed a step: a line or a departure of it is on its way, a text to it is being written,
      its writer has to be told to stop, or its reader is to find the connection closed. */
  predicate OwesClient(y: System, c: ClientId) {
    && c in y.procs
    && (|| y.procs[c].forwarder.Forwarding? || y.procs[c].forwarder.Leaving?
        || (y.procs[c].forwarder.Receiving? && !y.procs[c].reader.Reading?)
        || y.procs[c].writer.Writing?
        || (c in y.closed && y.procs[c].writer.Waiting?)
        || (HungUp(y.lobby, c) && y.procs[c].reader.Reading?))
  }

  /** The server owes somebody a step: a handler has not finished, or a client or a timer waits for one. */
  predicate Owes(y: System) {
    || !Idle(y)
    || (exists c :: c in y.procs && OwesClient(y, c))
    || (exists t :: t in y.lobby.timers && Waits(y.lobby, t))
  }

  /** The next send of the lobby goes to a client whose writer has given up. */
  predicate Stuck(y: System) {
    && y.done < |y.lobby.out|
    && y.lobby.out[y.done].to in y.procs
    && y.procs[y.lobby.out[y.done].to].writer.Failed?
  }

  /** Unless the lobby is just about to send to a writer that has given up, the server never gets stuck:
      whenever it owes a step, some step of its own is possible. */
  lemma NoDeadlock(ys: seq<System>, ms: seq<Move>, i: nat)
    requires IsExecution(ys, ms) && i < |ys|
    requires Owes(ys[i]) && !Stuck(ys[i])
    ensures CanMove(ys[i])
  {
    ExecutionSound(ys, ms, i);
    OwedStep(ys[i]);
  }

  ghost predicate CanMove(y: System) {
    exists m :: Internal(y, m) && Guard(y, m)
  }

  lemma OwedToClient(y: System, c: ClientId)
    requires Idle(y) && OwesClient(y, c)
    ensures CanMove(y)
  {
    var order := ListNames(y.lobby.names);
    var p := y.procs[c];
    var m := if p.forwarder.Forwarding? then Handle(c, order)
             else if p.forwarder.Leaving? then Resign(c)
             else if p.forwarder.Receiving? && p.reader.Offering? then HandOver(c)
             else if p.forwarder.Receiving? && p.reader.Ended? then SeeEnd(c)
             else if p.writer.Writing? then (if p.writer.late then WriteError(c) else Flush(c))
             else if c in y.closed && p.writer.Waiting? then StopWriting(c)
             else StopReading(c);
    assert Internal(y, m) && Guard(y, m);
  }

  lemma OwedToTimer(y: System, t: TimerId)
    requires Idle(y) && t in y.lobby.timers && Waits(y.lobby, t)
    ensures CanMove(y)
  {
    var m := if y.lobby.timers[t].phase.Sleeping? then Ring(t) else Wake(t);
    assert Internal(y, m) && Guard(y, m);
  }

  lemma OwedStep(y: System)
    requires Wired(y) && Owes(y) && !Stuck(y)
    ensures CanMove(y)
  {
    if !Idle(y) {
      BusyLobbyProceeds(y);
    } else if t :| t in y.lobby.timers && Waits(y.lobby, t) {
      OwedToTimer(y, t);
    } else {
      var c :| c in y.procs && OwesClient(y, c);
      OwedToClient(y, c);
    }
  }

  /** The writer the lobby is about to send to exists and has not stopped. */
  lemma TargetIsThere(y: System)
    requires Wired(y) && y.done < |y.lobby.out|
    ensures y.lobby.out[y.done].to in y.procs
    ensures !y.procs[y.lobby.out[y.done].to].writer.Finished?
  {
  }

  lemma BusyLobbyProceeds(y: System)
    requires Wired(y) && !Idle(y) && !Stuck(y)
    ensures CanMove(y)
  {
    if y.done < |y.lobby.out| {
      TargetIsThere(y);
      var c := y.lobby.out[y.done].to;
      var m := if y.procs[c].writer.Waiting? then Transmit
               else if y.procs[c].writer.late then WriteError(c)
               else Flush(c);
      assert Internal(y, m) && Guard(y, m);
    } else {
      assert Internal(y, CloseOut) && Guard(y, CloseOut);
    }
  }

  // ---------------------------------------------------------------- what a writer can still take

  /** How many of the sends the current handler has yet to carry out go to the client. */
  function Ahead(y: System, c: ClientId): nat {
    if y.done <= |y.lobby.out| then |Log(y.lobby.out[y.done..], c)| else 0
  }

  /** `n` texts are more than the writer can take, at best: a writer that has given up takes none, nor does
      one whose write is bound to fail; on a connection closed by the server one more text is taken, and
      cannot be written. */
  predicate Exceeds(writer: Writer, hungUp: bool, n: nat) {
    match writer
    case Waiting => hungUp && n > 1
    case Writing(what, late) => if late then n > 0 else hungUp && n > 1
    case Failed => n > 0
    case Finished => n > 0
  }

  predicate Overwhelmed(y: System, c: ClientId, n: nat) {
    c in y.procs && Exceeds(y.procs[c].writer, HungUp(y.lobby, c), n)
  }

  /** `k` texts on top of those the current handler has left for the client are more than its writer can
      take. */
  predicate Excess(y: System, c: ClientId, k: nat) {
    Overwhelmed(y, c, Ahead(y, c) + k)
  }

  /** The current handler has more texts left for some client than the client's writer can take. */
  ghost predicate Doomed(y: System) {
    exists c :: Excess(y, c, 0)
  }

  /** Consecutive systems of an execution, from any point on. */
  ghost predicate IsFragment(ys: seq<System>, ms: seq<Move>) {
    && |ys| == |ms| + 1
    && forall i :: 0 <= i < |ms| ==> MovesTo(ys[i], ms[i], ys[i + 1])
  }

  lemma NothingAhead(y: System, c: ClientId)
    requires y.done == |y.lobby.out|
    ensures Ahead(y, c) == 0
  {
    assert y.lobby.out[y.done..] == [];
  }

  lemma NextAhead(y: System, c: ClientId)
    requires y.done < |y.lobby.out|
    ensures Ahead(y, c) == Ahead(y.(done := y.done + 1), c) + if y.lobby.out[y.done].to == c then 1 else 0
  {
    var out := y.lobby.out[y.done..];
    LogConcat([out[0]], out[1..], c);
    assert out == [out[0]] + out[1..] && out[1..] == y.lobby.out[y.done + 1..];
    assert [out[0]][..0] == [];
  }

  lemma DoomedIsBusy(y: System)
    requires Doomed(y)
    ensures y.done < |y.lobby.out|
  {
    var c :| Excess(y, c, 0);
  }

  lemma NotDoomedAtEnd(y: System)
    requires y.done == |y.lobby.out|
    ensures !Doomed(y)
  {
    if Doomed(y) {
      DoomedIsBusy(y);
    }
  }

  lemma SameAhead(y: System, y': System, c: ClientId)
    requires y'.lobby.out == y.lobby.out && y'.done == y.done
    ensures Ahead(y', c) == Ahead(y, c)
  {
  }

  /** What a writer cannot take, with `k` texts more, it cannot take after any step but a turn. */
  lemma ExcessPersists(y: System, m: Move, c: ClientId, k: nat)
    requires Guard(y, m) && Ready(y, m) && !IsTurn(m) && Excess(y, c, k)
    ensures Excess(Apply(y, m), c, k)
    ensures Apply(y, m).lobby.out == y.lobby.out
  {
    var y' := Apply(y, m);
    if m.Transmit? {
      NextAhead(y, c);
      SameAhead(y.(done := y.done + 1), y', c);
    } else {
      SameAhead(y, y', c);
    }
  }

  lemma DoomPersists(y: System, m: Move)
    requires Guard(y, m) && Ready(y, m) && Doomed(y)
    ensures Doomed(Apply(y, m)) && Apply(y, m).lobby.out == y.lobby.out && !IsTurn(m)
  {
    DoomedIsBusy(y);
    var c :| Excess(y, c, 0);
    ExcessPersists(y, m, c, 0);
  }

  lemma FragmentStep(ys: seq<System>, ms: seq<Move>, i: nat)
    requires IsFragment(ys, ms) && i < |ms|
    ensures MovesTo(ys[i], ms[i], ys[i + 1])
  {
  }

  lemma MovesToKeepsSound(y: System, m: Move, y': System)
    requires Sound(y) && MovesTo(y, m, y')
    ensures Ready(y, m) && y' == Apply(y, m) && Sound(y')
  {
    MoveKeepsSound(y, m);
  }

  /** What carries over at every step holds along the way. */
  lemma {:induction false} CarriedAlong<T>(holds: T -> bool, ys: seq<T>, i: nat)
    requires i < |ys| && holds(ys[0])
    requires forall k, l :: 0 <= k && l == k + 1 && l < |ys| && holds(ys[k]) ==> holds(ys[l])
    ensures holds(ys[i])
  {
    if i > 0 {
      CarriedAlong(holds, ys, i - 1);
      assert holds(ys[i - 1]);
    }
  }

  lemma DoomedStep(y: System, m: Move, y': System)
    requires Sound(y) && MovesTo(y, m, y') && Doomed(y)
    ensures Sound(y') && Doomed(y') && y'.lobby.out == y.lobby.out
  {
    MovesToKeepsSound(y, m, y');
    DoomPersists(y, m);
  }

  lemma DoomedThroughout(ys: seq<System>, ms: seq<Move>, i: nat)
    requires IsFragment(ys, ms) && i < |ys| && Sound(ys[0]) && Doomed(ys[0])
    ensures Doomed(ys[i]) && ys[i].lobby.out == ys[0].lobby.out
  {
    var out := ys[0].lobby.out;
    var holds := (y: System) => Sound(y) && Doomed(y) && y.lobby.out == out;
    forall k, l | 0 <= k && l == k + 1 && l < |ys| && holds(ys[k]) ensures holds(ys[l]) {
      FragmentStep(ys, ms, k);
      DoomedStep(ys[k], ms[k], ys[l]);
    }
    CarriedAlong(holds, ys, i);
  }

  /** Once a handler has more texts for a client than the client's writer can take, the lobby never gets
      back to its `select`: no event of any client or timer is handled again. */
  lemma DoomedForever(ys: seq<System>, ms: seq<Move>, i: nat)
    requires IsFragment(ys, ms) && i < |ys| && Sound(ys[0]) && Doomed(ys[0])
    ensures Doomed(ys[i]) && !Idle(ys[i]) && ys[i].lobby.out == ys[0].lobby.out
    ensures i < |ms| ==> !ms[i].Admit? && !ms[i].Handle? && !ms[i].Resign? && !ms[i].Ring?
  {
    DoomedThroughout(ys, ms, i);
    DoomedIsBusy(ys[i]);
    if i < |ms| {
      assert MovesTo(ys[i], ms[i], ys[i + 1]);
    }
  }

  // ---------------------------------------------------------------- handlers complete

  /** Nothing but writing happened: the lobby's state and the clients' readers and forwarders are as before. */
  ghost predicate OnlyWrote(y: System, y': System) {
    && y'.lobby == y.lobby && y'.procs.Keys == y.procs.Keys
    && (forall c :: c in y.procs ==>
          y'.procs[c] == y.procs[c].(writer := y'.procs[c].writer, written := y'.procs[c].written))
    && (forall c :: c in y.procs && y'.procs[c].writer.Failed? ==> y.procs[c].writer.Failed?)
    && NoTighter(y, y')
  }

  /** Whatever the writers could take beyond the sends left, they still can. */
  ghost predicate NoTighter(y: System, y': System) {
    forall c, k: nat :: Excess(y', c, k) ==> Excess(y, c, k)
  }

  lemma OnlyWroteTrans(y: System, y1: System, y2: System)
    requires OnlyWrote(y, y1) && OnlyWrote(y1, y2)
    ensures OnlyWrote(y, y2)
  {
  }

  lemma Prepend(y: System, m: Move, ys: seq<System>, ms: seq<Move>)
    requires IsFragment(ys, ms) && MovesTo(y, m, ys[0])
    ensures IsFragment([y] + ys, [m] + ms)
  {
    var zs, ns := [y] + ys, [m] + ms;
    forall i | 0 <= i < |ns| ensures MovesTo(zs[i], ns[i], zs[i + 1]) {
      if i > 0 {
        assert MovesTo(ys[i - 1], ms[i - 1], ys[i - 1 + 1]);
      }
    }
  }

  /** A step of the lobby in the middle of a handler, or of a writer. */
  predicate Delivers(m: Move) {
    m.Transmit? || m.Flush? || m.CloseOut?
  }

  lemma PrependDelivery(y: System, m: Move, ys: seq<System>, ms: seq<Move>)
    requires IsFragment(ys, ms) && MovesTo(y, m, ys[0]) && OnlyWrote(y, ys[0])
    requires Delivers(m) && forall k :: 0 <= k < |ms| ==> Delivers(ms[k])
    requires OnlyWrote(ys[0], ys[|ys| - 1])
    ensures var zs, ns := [y] + ys, [m] + ms;
            && IsFragment(zs, ns) && (forall k :: 0 <= k < |ns| ==> Delivers(ns[k]))
            && OnlyWrote(y, zs[|zs| - 1])
  {
    Prepend(y, m, ys, ms);
    OnlyWroteTrans(y, ys[0], ys[|ys| - 1]);
  }

  /** The next move that brings a handler nearer to its end. */
  function NextMove(y: System): Move
    requires y.done < |y.lobby.out| ==> y.lobby.out[y.done].to in y.procs
  {
    if y.done == |y.lobby.out| then CloseOut
    else if y.done < |y.lobby.out| && y.procs[y.lobby.out[y.done].to].writer.Writing? then Flush(y.lobby.out[y.done].to)
    else Transmit
  }

  /** A send that can be carried out at all can be after the writer's present write. */
  lemma NextWriterTakes(y: System)
    requires y.done < |y.lobby.out| && !Doomed(y) && y.lobby.out[y.done].to in y.procs
    ensures var writer := y.procs[y.lobby.out[y.done].to].writer;
            writer.Waiting? || (writer.Writing? && !writer.late)
  {
    var c := y.lobby.out[y.done].to;
    NextAhead(y, c);
    assert !Excess(y, c, 0);
  }

  lemma NextMoveIsPossible(y: System)
    requires Wired(y) && !Idle(y) && !Doomed(y)
    ensures y.done < |y.lobby.out| ==> y.lobby.out[y.done].to in y.procs
    ensures Guard(y, NextMove(y)) && Ready(y, NextMove(y)) && Wired(Apply(y, NextMove(y)))
  {
    if y.done == |y.lobby.out| {
      CloseOutKeeps(y);
    } else {
      TargetIsThere(y);
      NextWriterTakes(y);
      var c := y.lobby.out[y.done].to;
      if y.procs[c].writer.Writing? {
        LocalKeeps(y, Flush(c));
      } else {
        TransmitKeeps(y);
      }
    }
  }

  lemma NextMoveTightensNothing(y: System, c: ClientId, k: nat)
    requires y.done <= |y.lobby.out|
    requires y.done < |y.lobby.out| ==> y.lobby.out[y.done].to in y.procs
    requires Guard(y, NextMove(y)) && Ready(y, NextMove(y))
    requires var y' := Apply(y, NextMove(y)); Excess(y', c, k)
    ensures Excess(y, c, k)
  {
    var y' := Apply(y, NextMove(y));
    if NextMove(y).Transmit? {
      NextAhead(y, c);
      SameAhead(y.(done := y.done + 1), y', c);
    } else {
      SameAhead(y, y', c);
    }
  }

  lemma NextMoveHelps(y: System)
    requires y.done <= |y.lobby.out| && !Doomed(y)
    requires y.done < |y.lobby.out| ==> y.lobby.out[y.done].to in y.procs
    requires Guard(y, NextMove(y)) && Ready(y, NextMove(y))
    ensures OnlyWrote(y, Apply(y, NextMove(y))) && !Doomed(Apply(y, NextMove(y)))
    ensures Remaining(Apply(y, NextMove(y))) < Remaining(y)
  {
    var y' := Apply(y, NextMove(y));
    forall c, k: nat | Excess(y', c, k) ensures Excess(y, c, k) {
      NextMoveTightensNothing(y, c, k);
    }
    assert NoTighter(y, y');
  }

  function Remaining(y: System): nat {
    2 * (if y.done <= |y.lobby.out| then |y.lobby.out| - y.done else 0)
    + (if y.done < |y.lobby.out| && y.lobby.out[y.done].to in y.procs
          && y.procs[y.lobby.out[y.done].to].writer.Writing? then 1 else 0)
    + (if y.closing.Some? then 2 else 0)
  }

  lemma NextDelivery(y: System) returns (m: Move, y': System)
    requires Wired(y) && !Idle(y) && !Doomed(y)
    ensures MovesTo(y, m, y') && Delivers(m)
    ensures Wired(y') && !Doomed(y') && OnlyWrote(y, y') && Remaining(y') < Remaining(y)
  {
    NextMoveIsPossible(y);
    NextMoveHelps(y);
    m := NextMove(y);
    y' := Apply(y, m);
  }

  /** A handler that has not more texts for anybody than can be taken comes to its end by moves of the lobby
      and of the writers alone, without any write failing. */
  lemma {:induction false} HandlerCompletes(y: System) returns (ys: seq<System>, ms: seq<Move>)
    requires Wired(y) && !Doomed(y)
    ensures IsFragment(ys, ms) && ys[0] == y
    ensures forall k :: 0 <= k < |ms| ==> Delivers(ms[k])
    ensures var z := ys[|ys| - 1]; Idle(z) && Wired(z) && OnlyWrote(y, z)
    decreases Remaining(y)
  {
    if Idle(y) {
      ys, ms := [y], [];
    } else {
      var m, next := NextDelivery(y);
      var rest, moves := HandlerCompletes(next);
      ys, ms := [y] + rest, [m] + moves;
      PrependDelivery(y, m, rest, moves);
    }
  }

  /** The lobby can get back to its `select` exactly when the current handler has no more texts left for any
      client than its writer can take. */
  lemma LobbyReturnsIff(y: System)
    requires Sound(y)
    ensures (exists ys, ms :: IsFragment(ys, ms) && ys[0] == y && Idle(ys[|ys| - 1])) <==> !Doomed(y)
  {
    if Doomed(y) {
      forall ys, ms | IsFragment(ys, ms) && ys[0] == y ensures !Idle(ys[|ys| - 1]) {
        DoomedForever(ys, ms, |ys| - 1);
      }
    } else {
      var ys, ms := HandlerCompletes(y);
    }
  }

  /** The move is the lobby's next event as soon as the lobby is back at its `select`: a forwarder offers
      a line or a departure, or a due timer offers its room. */
  ghost predicate Offered(y: System, m: Move) {
    match m
    case Handle(c, order) => c in y.procs && y.procs[c].forwarder.Forwarding? && Enumerates(order, y.lobby.names)
    case Resign(c) => c in y.procs && y.procs[c].forwarder.Leaving?
    case Ring(t) => Enabled(y.lobby, Expire(t))
    case _ => false
  }

  lemma OfferLasts(y: System, z: System, m: Move)
    requires Offered(y, m) && OnlyWrote(y, z) && Idle(z)
    ensures Guard(z, m)
  {
  }

  /** Whatever is offered to the lobby is taken in some continuation in which it is the last move, and
      nothing but the lobby's and the writers' own steps come before it. */
  lemma OfferIsTaken(y: System, m: Move) returns (ys: seq<System>, ms: seq<Move>, z: System)
    requires Sound(y) && !Doomed(y) && Offered(y, m)
    ensures IsFragment(ys, ms) && ys[0] == y
    ensures |ms| > 0 && ms[|ms| - 1] == m && forall k :: 0 <= k < |ms| - 1 ==> Delivers(ms[k])
    ensures z == ys[|ys| - 2] && Idle(z) && OnlyWrote(y, z)
    ensures Guard(z, m) && Ready(z, m) && ys[|ys| - 1] == Apply(z, m)
  {
    var zs, ns := HandlerCompletes(y);
    z := zs[|zs| - 1];
    OfferLasts(y, z, m);
    OffersAreEnabled(z, m);
    ys, ms := Append(zs, ns, m);
  }

  /** A line a forwarder offers is parsed so, whatever the other clients do. */
  lemma LineIsTaken(y: System, c: ClientId) returns (ys: seq<System>, ms: seq<Move>, order: seq<string>)
    requires Sound(y) && !Doomed(y) && c in y.procs && y.procs[c].forwarder.Forwarding?
    ensures IsFragment(ys, ms) && ys[0] == y
    ensures |ms| > 0 && ms[|ms| - 1] == Handle(c, order) && forall k :: 0 <= k < |ms| - 1 ==> Delivers(ms[k])
    ensures OnlyWrote(y, ys[|ys| - 2]) && c in ys[|ys| - 1].procs
    ensures ys[|ys| - 1].procs[c].parsed == y.procs[c].parsed + [y.procs[c].forwarder.message]
  {
    order := ListNames(y.lobby.names);
    var z;
    ys, ms, z := OfferIsTaken(y, Handle(c, order));
    assert z.procs[c] == y.procs[c].(writer := z.procs[c].writer, written := z.procs[c].written);
  }

  /** A departure a forwarder offers is handled so, and the client's channel is closed next. */
  lemma DepartureIsTaken(y: System, c: ClientId) returns (ys: seq<System>, ms: seq<Move>)
    requires Sound(y) && !Doomed(y) && c in y.procs && y.procs[c].forwarder.Leaving?
    ensures IsFragment(ys, ms) && ys[0] == y
    ensures |ms| > 0 && ms[|ms| - 1] == Resign(c) && forall k :: 0 <= k < |ms| - 1 ==> Delivers(ms[k])
    ensures OnlyWrote(y, ys[|ys| - 2])
    ensures var z := ys[|ys| - 1];
            c in z.lobby.clients && z.lobby.clients[c].link == Detached && z.closing == Some(c)
  {
    var z;
    ys, ms, z := OfferIsTaken(y, Resign(c));
  }

  /** So is the room a due timer offers: its timer is gone, and the room deleted or its timer renewed. */
  lemma TimerIsTaken(y: System, t: TimerId) returns (ys: seq<System>, ms: seq<Move>)
    requires Sound(y) && !Doomed(y) && Enabled(y.lobby, Expire(t))
    ensures IsFragment(ys, ms) && ys[0] == y
    ensures |ms| > 0 && ms[|ms| - 1] == Ring(t) && forall k :: 0 <= k < |ms| - 1 ==> Delivers(ms[k])
    ensures OnlyWrote(y, ys[|ys| - 2])
    ensures Resolved(y.lobby) && ys[|ys| - 1].lobby == Fire(y.lobby, t)
  {
    var z;
    ys, ms, z := OfferIsTaken(y, Ring(t));
  }

  // ---------------------------------------------------------------- longer executions

  lemma Append(ys: seq<System>, ms: seq<Move>, m: Move) returns (zs: seq<System>, ns: seq<Move>)
    requires IsFragment(ys, ms) && Guard(ys[|ys| - 1], m) && Ready(ys[|ys| - 1], m)
    ensures IsFragment(zs, ns) && zs == ys + [Apply(ys[|ys| - 1], m)] && ns == ms + [m]
  {
    zs, ns := ys + [Apply(ys[|ys| - 1], m)], ms + [m];
    forall i | 0 <= i < |ns| ensures MovesTo(zs[i], ns[i], zs[i + 1]) {
      if i < |ms| {
        assert MovesTo(ys[i], ms[i], ys[i + 1]);
      }
    }
  }

  lemma Follow(ys: seq<System>, ms: seq<Move>, m: Move) returns (zs: seq<System>, ns: seq<Move>)
    requires IsExecution(ys, ms) && Guard(ys[|ys| - 1], m)
    ensures Ready(ys[|ys| - 1], m)
    ensures IsExecution(zs, ns) && zs[|zs| - 1] == Apply(ys[|ys| - 1], m)
  {
    ExecutionSound(ys, ms, |ys| - 1);
    OffersAreEnabled(ys[|ys| - 1], m);
    zs, ns := Append(ys, ms, m);
  }
}
