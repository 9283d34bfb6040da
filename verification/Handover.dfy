/** From a client's connection to the lobby: the lines the lobby handles are those the client sent, in
    order, each with the time at which it was read. */
module Handover {
  import opened GoStrings
  import opened LobbyModel
  import opened Goroutines
  import opened EndToEnd
  import opened Outcomes

  // ---------------------------------------------------------------- one move

  /** What a move does to the messages of a client: only a read produces one, and only the lobby's taking
      up what the forwarder holds adds to those parsed. */
  ghost predicate MessagesMove(y: System, m: Move, y': System, c: ClientId) {
    && (c in y.procs ==>
          && c in y'.procs
          && y'.procs[c].stream == y.procs[c].stream
          && (m == Read(c) ==> ReadsNext(y.procs[c], y'.procs[c], y.lobby.now))
          && (m != Read(c) ==> y'.procs[c].produced == y.procs[c].produced)
          && (if m.Handle? && m.client == c
              then y.procs[c].forwarder.Forwarding?
                   && y'.procs[c].parsed == y.procs[c].parsed + [y.procs[c].forwarder.message]
              else y'.procs[c].parsed == y.procs[c].parsed))
    && (c !in y.procs ==> !(m.Handle? && m.client == c))
    && (c !in y.procs && c in y'.procs ==>
          m == Connect(c, y'.procs[c].stream) && y'.procs[c].produced == [] && y'.procs[c].parsed == [])
  }

  /** One message more has been produced: the next line of what was left of the stream, at this time. */
  ghost predicate ReadsNext(p: Proc, p': Proc, now: Time) {
    var n := |p.produced|;
    && |p'.produced| == n + 1 && p'.produced[..n] == p.produced
    && p'.produced[n].time == now
    && Lines(p.rest) == [p'.produced[n].line] + Lines(p'.rest)
  }

  lemma MovesMessages(y: System, m: Move, c: ClientId)
    requires Guard(y, m) && Ready(y, m)
    ensures MessagesMove(y, m, Apply(y, m), c)
  {
    if m == Read(c) {
      ReadYieldsNextLine(y.procs[c].rest);
    }
  }

  lemma StepMessages(ys: seq<System>, ms: seq<Move>, k: nat, c: ClientId)
    requires IsExecution(ys, ms) && k < |ms|
    ensures MessagesMove(ys[k], ms[k], ys[k + 1], c) && Guard(ys[k], ms[k])
  {
    assert MovesTo(ys[k], ms[k], ys[k + 1]);
    ExecutionSound(ys, ms, k);
    OffersAreEnabled(ys[k], ms[k]);
    MovesMessages(ys[k], ms[k], c);
  }

  /** The event a move is in the run: an arrival, a line the forwarder holds, a departure, or a timer's; all
      other moves leave the run where it is. */
  lemma EventOfMove(ys: seq<System>, ms: seq<Move>, n: nat, ss: seq<State>, es: seq<Event>, f: seq<nat>, k: nat)
    requires Mirrors(ys, ms, n, ss, es, f) && k < n && Guard(ys[k], ms[k])
    ensures match ms[k]
            case Admit(c) => f[k + 1] == f[k] + 1 <= |es| && es[f[k]] == Arrive(c)
            case Handle(c, order) =>
              f[k + 1] == f[k] + 1 <= |es| && c in ys[k].procs && ys[k].procs[c].forwarder.Forwarding?
              && es[f[k]] == Incoming(c, ys[k].procs[c].forwarder.message, order)
            case Resign(c) => f[k + 1] == f[k] + 1 <= |es| && es[f[k]] == Depart(c)
            case Wake(t) => f[k + 1] == f[k] + 1 <= |es| && es[f[k]] == Start(t)
            case Ring(t) => f[k + 1] == f[k] + 1 <= |es| && es[f[k]] == Expire(t)
            case Pass(time) => f[k + 1] == f[k] + 1 <= |es| && es[f[k]] == Tick(time)
            case _ => f[k + 1] == f[k]
  {
    var l := k + 1;
    assert MatchesMove(ys[k], ms[k], f[k], f[l], es);
  }

  // ---------------------------------------------------------------- what the lobby handles

  /** The messages of one client among the first `n` events, in order. */
  function Received(es: seq<Event>, n: nat, c: ClientId): seq<Message>
    requires n <= |es|
  {
    if n == 0 then []
    else Received(es, n - 1, c) + if es[n - 1].Incoming? && es[n - 1].client == c then [es[n - 1].message] else []
  }

  lemma ReceivedStep(ys: seq<System>, ms: seq<Move>, n: nat,
                     ss: seq<State>, es: seq<Event>, f: seq<nat>, k: nat, c: ClientId)
    requires Mirrors(ys, ms, n, ss, es, f) && k < n && Guard(ys[k], ms[k])
    ensures f[k] <= |es| && f[k + 1] <= |es|
    ensures Received(es, f[k + 1], c) == Received(es, f[k], c)
            + if ms[k].Handle? && ms[k].client == c then [ys[k].procs[c].forwarder.message] else []
  {
    EventOfMove(ys, ms, n, ss, es, f, k);
  }

  /** The lines of a client the lobby has handled are exactly those recorded as parsed. */
  lemma {:induction false} ReceivedIsParsed(ys: seq<System>, ms: seq<Move>, n: nat,
                                            ss: seq<State>, es: seq<Event>, f: seq<nat>, i: nat, c: ClientId)
    requires IsExecution(ys, ms) && Mirrors(ys, ms, n, ss, es, f) && i <= n
    ensures Received(es, f[i], c) == if c in ys[i].procs then ys[i].procs[c].parsed else []
  {
    if i > 0 {
      ReceivedIsParsed(ys, ms, n, ss, es, f, i - 1, c);
      StepMessages(ys, ms, i - 1, c);
      ReceivedStep(ys, ms, n, ss, es, f, i - 1, c);
    }
  }

  /** The stream of a client is the one it connected with. */
  lemma {:induction false} StreamOfConnect(ys: seq<System>, ms: seq<Move>, i: nat, c: ClientId) returns (k: nat)
    requires IsExecution(ys, ms) && i < |ys| && c in ys[i].procs
    ensures k < i && ms[k] == Connect(c, ys[i].procs[c].stream)
  {
    k := i - 1;
    StepMessages(ys, ms, k, c);
    if c in ys[k].procs {
      k := StreamOfConnect(ys, ms, k, c);
    }
  }

  /** Under every interleaving the lines of a client the lobby has handled are, in order, the first complete
      lines of the stream the client connected with, none skipped, repeated or changed. */
  lemma HandledInOrder(ys: seq<System>, ms: seq<Move>, n: nat,
                       ss: seq<State>, es: seq<Event>, f: seq<nat>, i: nat, c: ClientId) returns (k: nat)
    requires IsExecution(ys, ms) && Mirrors(ys, ms, n, ss, es, f) && i <= n && c in ys[i].procs
    ensures k < i && ms[k].Connect? && ms[k].client == c
    ensures LinesOf(Received(es, f[i], c)) <= Lines(ms[k].stream)
  {
    k := StreamOfConnect(ys, ms, i, c);
    ReceivedIsParsed(ys, ms, n, ss, es, f, i, c);
    ParsedInOrder(ys, ms, i, c);
  }

  // ---------------------------------------------------------------- when it was read

  /** Every message was produced by a read of the client, which took the next line of its stream and the
      time at which it did. */
  lemma {:induction false} ProducedByRead(ys: seq<System>, ms: seq<Move>, i: nat, c: ClientId, a: nat) returns (k: nat)
    requires IsExecution(ys, ms) && i < |ys| && c in ys[i].procs && a < |ys[i].procs[c].produced|
    ensures k < i && ms[k] == Read(c) && c in ys[k].procs && |ys[k].procs[c].produced| == a
    ensures ys[i].procs[c].produced[a].time == ys[k].lobby.now
    ensures var lines := Lines(ys[k].procs[c].rest); lines != [] && lines[0] == ys[i].procs[c].produced[a].line
  {
    k := i - 1;
    StepMessages(ys, ms, k, c);
    if ms[k] != Read(c) || a < |ys[k].procs[c].produced| {
      k := ProducedByRead(ys, ms, k, c, a);
    }
  }

  lemma ClockNeverGoesBack(ys: seq<System>, ms: seq<Move>, k: nat)
    requires IsExecution(ys, ms) && k < |ms|
    ensures ys[k].lobby.now <= ys[k + 1].lobby.now
  {
    MoveIsEventOrNothing(ys, ms, k);
    if Effect(ys[k], ms[k]).Some? {
      ClockOutcome(ys[k].lobby, Effect(ys[k], ms[k]).value);
    }
  }

  /** The times of one client's messages never decrease. */
  lemma {:induction false} TimesAscend(ys: seq<System>, ms: seq<Move>, i: nat, c: ClientId)
    requires IsExecution(ys, ms) && i < |ys| && c in ys[i].procs
    ensures forall a, b :: 0 <= a <= b < |ys[i].procs[c].produced| ==>
              ys[i].procs[c].produced[a].time <= ys[i].procs[c].produced[b].time <= ys[i].lobby.now
  {
    var k := i - 1;
    StepMessages(ys, ms, k, c);
    ClockNeverGoesBack(ys, ms, k);
    if c in ys[k].procs {
      TimesAscend(ys, ms, k, c);
    }
  }

  lemma {:induction false} ReceivedAt(es: seq<Event>, n: nat, j: nat, c: ClientId)
    requires j < n <= |es| && es[j].Incoming? && es[j].client == c
    ensures es[j].message in Received(es, n, c)
  {
    if j < n - 1 {
      ReceivedAt(es, n - 1, j, c);
    }
  }

  lemma ReceivedWasProduced(ys: seq<System>, ms: seq<Move>, n: nat,
                            ss: seq<State>, es: seq<Event>, f: seq<nat>, i: nat, j: nat) returns (a: nat)
    requires IsExecution(ys, ms) && Mirrors(ys, ms, n, ss, es, f) && i <= n && j < f[i] && es[j].Incoming?
    ensures var c := es[j].client;
            c in ys[i].procs && a < |ys[i].procs[c].produced| && ys[i].procs[c].produced[a] == es[j].message
  {
    var c := es[j].client;
    ReceivedAt(es, f[i], j, c);
    ReceivedIsParsed(ys, ms, n, ss, es, f, i, c);
    ParsedInOrder(ys, ms, i, c);
    var p := ys[i].procs[c];
    a :| 0 <= a < |p.parsed| && p.parsed[a] == es[j].message;
    assert p.produced[a] == p.parsed[a];
  }

  /** Under every interleaving, whatever is said in a room was a line a client sent, and bears the time at
      which it was read. */
  lemma SaidWasRead(ys: seq<System>, ms: seq<Move>, i: nat, r: RoomId, k: nat) returns (q: nat, c: ClientId)
    requires IsExecution(ys, ms) && i < |ys|
    requires r in ys[i].lobby.rooms && k < |ys[i].lobby.rooms[r].messages| && ys[i].lobby.rooms[r].messages[k].Said?
    ensures q < i && ms[q] == Read(c) && c in ys[q].procs
    ensures var text := ys[i].lobby.rooms[r].messages[k];
            var lines := Lines(ys[q].procs[c].rest);
            text.time == ys[q].lobby.now && lines != [] && lines[0] == text.line
  {
    var ss, es, f := ExecutionIsRun(ys, ms, |ms|);
    var j := SaidComesFrom(ss, es, f[i], r, k);
    c := es[j].client;
    var a := ReceivedWasProduced(ys, ms, |ms|, ss, es, f, i, j);
    q := ProducedByRead(ys, ms, i, c, a);
  }
}
