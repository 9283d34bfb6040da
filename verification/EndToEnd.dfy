/** The layers put together: what the goroutines carry out is a run of the lobby, move by event, so that
    the properties of runs hold under every interleaving; and what a member's writer has written is the
    history of its room. */
module EndToEnd {
  import opened LobbyModel
  import opened Transcripts
  import opened Runs
  import opened Deletion
  import opened Goroutines
  import Invariant

  // ---------------------------------------------------------------- executions are runs

  /** From place `a` to place `b` of a run lies the event the move is for the lobby, or nothing. */
  predicate MatchesMove(y: System, m: Move, a: nat, b: nat, es: seq<Event>) {
    match Effect(y, m)
    case Some(e) => b == a + 1 && a < |es| && es[a] == e
    case None => b == a
  }

  /** The run is what the first `n` moves do to the lobby: `f` gives for each system of the execution
      its place in the run. */
  ghost predicate Mirrors(ys: seq<System>, ms: seq<Move>, n: nat, ss: seq<State>, es: seq<Event>, f: seq<nat>) {
    && n <= |ms| < |ys| && IsRun(ss, es)
    && |f| == n + 1 && f[0] == 0 && f[n] == |es|
    && (forall k :: 0 <= k <= n ==> f[k] <= |es| && ss[f[k]] == ys[k].lobby)
    && (forall k, l :: 0 <= k && l == k + 1 && l <= n ==> MatchesMove(ys[k], ms[k], f[k], f[l], es))
  }

  lemma MirrorsNext(ys: seq<System>, ms: seq<Move>, n: nat, ss: seq<State>, es: seq<Event>, f: seq<nat>)
    returns (ts: seq<State>, fs: seq<Event>, g: seq<nat>)
    requires Mirrors(ys, ms, n, ss, es, f) && n < |ms|
    requires Effect(ys[n], ms[n]).Some? ==>
               var e := Effect(ys[n], ms[n]).value;
               Enabled(ys[n].lobby, e) && (Resolved(ys[n].lobby) ==> ys[n + 1].lobby == Step(ys[n].lobby, e))
    requires Effect(ys[n], ms[n]).None? ==> ys[n + 1].lobby == ys[n].lobby
    ensures Mirrors(ys, ms, n + 1, ts, fs, g)
  {
    if Effect(ys[n], ms[n]).Some? {
      ts, fs := GoOn(ss, es, Effect(ys[n], ms[n]).value);
      g := f + [f[n] + 1];
    } else {
      ts, fs, g := ss, es, f + [f[n]];
    }
    forall k | 0 <= k <= n ensures g[k] <= |fs| && ts[g[k]] == ys[k].lobby {
      assert g[k] == f[k];
    }
    forall k, l | 0 <= k && l == k + 1 && l <= n + 1 ensures MatchesMove(ys[k], ms[k], g[k], g[l], fs) {
      if k < n {
        assert MatchesMove(ys[k], ms[k], f[k], f[l], es);
      }
    }
  }

  lemma MoveIsEventOrNothing(ys: seq<System>, ms: seq<Move>, i: nat)
    requires IsExecution(ys, ms) && i < |ms|
    ensures match Effect(ys[i], ms[i])
            case Some(e) => Resolved(ys[i].lobby) && Enabled(ys[i].lobby, e) && ys[i + 1].lobby == Step(ys[i].lobby, e)
            case None => ys[i + 1].lobby == ys[i].lobby
  {
    assert MovesTo(ys[i], ms[i], ys[i + 1]);
    ExecutionSound(ys, ms, i);
    OffersAreEnabled(ys[i], ms[i]);
    MoveIsEvent(ys[i], ms[i]);
  }

  /** What all goroutines do to the lobby in an execution is a run of the lobby alone: every system of
      the execution has a place in the run, and between neighbouring places lies the event the move is
      for the lobby, or nothing when the move does not concern it. */
  lemma {:induction false} ExecutionIsRun(ys: seq<System>, ms: seq<Move>, n: nat)
    returns (ss: seq<State>, es: seq<Event>, f: seq<nat>)
    requires IsExecution(ys, ms) && n <= |ms|
    ensures Mirrors(ys, ms, n, ss, es, f)
  {
    if n == 0 {
      ss, es, f := [ys[0].lobby], [], [0];
    } else {
      ss, es, f := ExecutionIsRun(ys, ms, n - 1);
      MoveIsEventOrNothing(ys, ms, n - 1);
      ss, es, f := MirrorsNext(ys, ms, n - 1, ss, es, f);
    }
  }

  lemma {:induction false} PlacesAscend(ys: seq<System>, ms: seq<Move>, n: nat,
                                        ss: seq<State>, es: seq<Event>, f: seq<nat>, k: nat, l: nat)
    requires Mirrors(ys, ms, n, ss, es, f) && k <= l <= n
    ensures f[k] <= f[l]
    decreases l
  {
    if k < l {
      PlacesAscend(ys, ms, n, ss, es, f, k, l - 1);
      assert MatchesMove(ys[l - 1], ms[l - 1], f[l - 1], f[l], es);
    }
  }

  /** A move that is an event of the lobby takes its own place in the run. */
  lemma EventPlace(ys: seq<System>, ms: seq<Move>, n: nat, ss: seq<State>, es: seq<Event>, f: seq<nat>, k: nat, l: nat)
    requires Mirrors(ys, ms, n, ss, es, f) && k < l <= n && Effect(ys[k], ms[k]).Some?
    ensures f[k] < f[l] && f[k] < |es| && es[f[k]] == Effect(ys[k], ms[k]).value && f[k + 1] == f[k] + 1
  {
    var k' := k + 1;
    assert MatchesMove(ys[k], ms[k], f[k], f[k'], es);
    PlacesAscend(ys, ms, n, ss, es, f, k', l);
  }

  /** Every event of the run is some move. */
  lemma {:induction false} MoveOfEvent(ys: seq<System>, ms: seq<Move>, n: nat,
                                       ss: seq<State>, es: seq<Event>, f: seq<nat>, l: nat, p: nat)
    returns (k: nat)
    requires Mirrors(ys, ms, n, ss, es, f) && l <= n && p < f[l]
    ensures k < l && f[k] == p && f[k + 1] == p + 1
    decreases l
  {
    k := l - 1;
    assert MatchesMove(ys[k], ms[k], f[k], f[l], es);
    if p < f[k] {
      k := MoveOfEvent(ys, ms, n, ss, es, f, k, p);
    }
  }

  // ---------------------------------------------------------------- properties of interleavings

  /** Under every interleaving a client departs at most once, and afterwards none of its lines is parsed and
      nothing more is sent to it than in the handler of its departure. */
  lemma NothingAfterResign(ys: seq<System>, ms: seq<Move>, k: nat, l: nat, c: ClientId)
    requires IsExecution(ys, ms) && k < l < |ys| && ms[k] == Resign(c)
    ensures Log(ys[l].lobby.out, c) == Log(ys[k + 1].lobby.out, c)
    ensures l < |ms| ==> ms[l] != Resign(c) && !(ms[l].Handle? && ms[l].client == c)
  {
    var ss, es, f := ExecutionIsRun(ys, ms, |ms|);
    EventPlace(ys, ms, |ms|, ss, es, f, k, |ms|);
    PlacesAscend(ys, ms, |ms|, ss, es, f, k + 1, l);
    ClosedOnceByDeparture(ss, es, f[k + 1], c);
    assert HasLeft(ss[f[k + 1]], c);
    NothingAfterClose(ss, es, f[k + 1], f[l], c);
    if l < |ms| {
      assert MovesTo(ys[l], ms[l], ys[l + 1]);
      if Effect(ys[l], ms[l]).Some? {
        EventPlace(ys, ms, |ms|, ss, es, f, l, |ms|);
      }
    }
  }

  /** The move is the handling of a timer of room `r`. */
  predicate Rings(y: System, m: Move, r: RoomId) {
    m.Ring? && m.timer in y.lobby.timers && y.lobby.timers[m.timer].room == r
  }

  lemma RingPlace(ys: seq<System>, ms: seq<Move>, ss: seq<State>, es: seq<Event>, f: seq<nat>,
                  k: nat, l: nat, r: RoomId)
    requires Mirrors(ys, ms, |ms|, ss, es, f) && k < l <= |ms| && Rings(ys[k], ms[k], r)
    ensures f[k] < f[l] && f[k] < |es| && Fires(ss[f[k]], es[f[k]], r)
  {
    EventPlace(ys, ms, |ms|, ss, es, f, k, l);
  }

  /** Under every interleaving, of any three rings of one room's timers the last comes at least
      `EXPIRY_TIME` after the first. */
  lemma RingsApart(ys: seq<System>, ms: seq<Move>, i: nat, j: nat, k: nat, r: RoomId)
    requires IsExecution(ys, ms) && i < j < k < |ms|
    requires Rings(ys[i], ms[i], r) && Rings(ys[j], ms[j], r) && Rings(ys[k], ms[k], r)
    ensures ys[i].lobby.now + EXPIRY_TIME <= ys[k].lobby.now
  {
    var ss, es, f := ExecutionIsRun(ys, ms, |ms|);
    RingPlace(ys, ms, ss, es, f, i, j, r);
    RingPlace(ys, ms, ss, es, f, j, k, r);
    RingPlace(ys, ms, ss, es, f, k, |ms|, r);
    FiringsApart(ss, es, f[i], f[j], f[k], r);
  }

  /** The move opened room `r` or added to its history. */
  ghost predicate Stirs(y: System, y': System, r: RoomId) {
    Touched(y.lobby, y'.lobby, r)
  }

  /** A move that stirs a room is an event that touches it. */
  lemma StirPlace(ys: seq<System>, ms: seq<Move>, ss: seq<State>, es: seq<Event>, f: seq<nat>,
                  k: nat, l: nat, r: RoomId)
    requires Mirrors(ys, ms, |ms|, ss, es, f) && k < l <= |ms| && Stirs(ys[k], ys[k + 1], r)
    ensures f[k] < f[l] && f[k] < |es| && Touched(ss[f[k]], ss[f[k] + 1], r)
  {
    var k' := k + 1;
    assert MatchesMove(ys[k], ms[k], f[k], f[k'], es);
    assert ss[f[k]] == ys[k].lobby && ss[f[k']] == ys[k'].lobby;
    PlacesAscend(ys, ms, |ms|, ss, es, f, k', l);
  }

  /** An event that touches a room is a move that stirs it. */
  lemma TouchedMove(ys: seq<System>, ms: seq<Move>, ss: seq<State>, es: seq<Event>, f: seq<nat>,
                    l: nat, p: nat, r: RoomId)
    returns (k: nat)
    requires Mirrors(ys, ms, |ms|, ss, es, f) && l <= |ms| && p < f[l] && Touched(ss[p], ss[p + 1], r)
    ensures k < l && f[k] == p && Stirs(ys[k], ys[k + 1], r) && ys[k].lobby == ss[p]
  {
    k := MoveOfEvent(ys, ms, |ms|, ss, es, f, l, p);
    var k' := k + 1;
    assert ss[f[k]] == ys[k].lobby && ss[f[k']] == ys[k'].lobby;
  }

  /** Under every interleaving, a ring deletes the room if and only if every move that opened the room or
      added to its history lies at least `EXPIRY_TIME` in the past; the room's name still leads to it,
      and no other move deletes or revives a room. */
  lemma RingDeletesExactlyWhenIdle(ys: seq<System>, ms: seq<Move>, i: nat, r: RoomId)
    requires IsExecution(ys, ms) && i < |ms| && r in ys[i].lobby.rooms
    ensures var s, s' := ys[i].lobby, ys[i + 1].lobby;
            && (Rings(ys[i], ms[i], r) ==>
                  && s.rooms[r].name in s.names && s.names[s.rooms[r].name] == r
                  && (!Live(s', r) <==> forall k :: 0 <= k < i && Stirs(ys[k], ys[k + 1], r) ==>
                                          ys[k].lobby.now + EXPIRY_TIME <= s.now))
            && (!Rings(ys[i], ms[i], r) ==> (Live(s', r) <==> Live(s, r)))
  {
    var ss, es, f := ExecutionIsRun(ys, ms, |ms|);
    var i' := i + 1;
    assert MatchesMove(ys[i], ms[i], f[i], f[i'], es);
    assert ss[f[i]] == ys[i].lobby && ss[f[i']] == ys[i'].lobby;
    if Effect(ys[i], ms[i]).Some? {
      DeletedExactlyWhenIdle(ss, es, f[i], r);
      if Rings(ys[i], ms[i], r) {
        IdleInBoth(ys, ms, ss, es, f, i, r);
      }
    }
  }

  lemma IdleInBoth(ys: seq<System>, ms: seq<Move>, ss: seq<State>, es: seq<Event>, f: seq<nat>, i: nat, r: RoomId)
    requires Mirrors(ys, ms, |ms|, ss, es, f) && i < |ms|
    ensures (forall p :: 0 <= p < f[i] && Touched(ss[p], ss[p + 1], r) ==> ss[p].now + EXPIRY_TIME <= ss[f[i]].now)
            <==> (forall k :: 0 <= k < i && Stirs(ys[k], ys[k + 1], r) ==>
                    ys[k].lobby.now + EXPIRY_TIME <= ys[i].lobby.now)
  {
    if forall p :: 0 <= p < f[i] && Touched(ss[p], ss[p + 1], r) ==> ss[p].now + EXPIRY_TIME <= ss[f[i]].now {
      forall k | 0 <= k < i && Stirs(ys[k], ys[k + 1], r) ensures ys[k].lobby.now + EXPIRY_TIME <= ys[i].lobby.now {
        StirPlace(ys, ms, ss, es, f, k, i, r);
      }
    }
    if forall k :: 0 <= k < i && Stirs(ys[k], ys[k + 1], r) ==> ys[k].lobby.now + EXPIRY_TIME <= ys[i].lobby.now {
      forall p | 0 <= p < f[i] && Touched(ss[p], ss[p + 1], r) ensures ss[p].now + EXPIRY_TIME <= ss[f[i]].now {
        var k := TouchedMove(ys, ms, ss, es, f, i, p, r);
      }
    }
  }

  lemma LiveAfterRing(ys: seq<System>, ms: seq<Move>, ss: seq<State>, es: seq<Event>, f: seq<nat>, i: nat, r: RoomId)
    requires Mirrors(ys, ms, |ms|, ss, es, f) && i < |ms| && Rings(ys[i], ms[i], r)
    ensures f[i] < |es| && Fires(ss[f[i]], es[f[i]], r) && (Live(ss[f[i] + 1], r) <==> Live(ys[i + 1].lobby, r))
  {
    var i' := i + 1;
    EventPlace(ys, ms, |ms|, ss, es, f, i, i');
    assert ss[f[i']] == ys[i'].lobby;
  }

  lemma RenewalActivity(ss: seq<State>, es: seq<Event>, i: nat, k: nat, r: RoomId) returns (p: nat)
    requires IsRun(ss, es) && i < k < |es|
    requires Fires(ss[i], es[i], r) && Live(ss[i + 1], r) && Fires(ss[k], es[k], r) && Live(ss[k + 1], r)
    ensures i < p < k && Touched(ss[p], ss[p + 1], r)
  {
    RenewalNeedsActivity(ss, es, i, k, r);
    p :| i < p < k && TouchedAt(ss, p, r);
  }

  /** Under every interleaving, a room that outlives two rings was spoken in between them. */
  lemma RenewalNeedsMove(ys: seq<System>, ms: seq<Move>, i: nat, k: nat, r: RoomId) returns (j: nat)
    requires IsExecution(ys, ms) && i < k < |ms|
    requires Rings(ys[i], ms[i], r) && Live(ys[i + 1].lobby, r) && Rings(ys[k], ms[k], r) && Live(ys[k + 1].lobby, r)
    ensures i < j < k && Stirs(ys[j], ys[j + 1], r)
  {
    var ss, es, f := ExecutionIsRun(ys, ms, |ms|);
    LiveAfterRing(ys, ms, ss, es, f, i, r);
    LiveAfterRing(ys, ms, ss, es, f, k, r);
    RingPlace(ys, ms, ss, es, f, i, k, r);
    var p := RenewalActivity(ss, es, f[i], f[k], r);
    j := TouchedMove(ys, ms, ss, es, f, k, p, r);
    if j <= i {
      PlacesAscend(ys, ms, |ms|, ss, es, f, j, i);
    }
  }

  /** Under every interleaving, what a completed visit saw is settled: it never changes, is a prefix of
      the room's history from then on, and of what any later visit of the client to that room sees. */
  lemma VisitsAreSettled(ys: seq<System>, ms: seq<Move>, i: nat, j: nat, c: ClientId, v: nat, w: nat)
    requires IsExecution(ys, ms) && i <= j < |ys|
    requires c in ys[i].lobby.clients && Invariant.Completed(ys[i].lobby.clients[c], v)
    ensures var s, s' := ys[i].lobby, ys[j].lobby;
            && c in s'.clients && s.clients[c].visits <= s'.clients[c].visits
            && Seen(s', c, v) == Seen(s, c, v)
            && s.clients[c].visits[v - 1] in s'.rooms
            && Seen(s, c, v) <= s'.rooms[s.clients[c].visits[v - 1]].messages
            && (v < w <= |s'.clients[c].visits| && s'.clients[c].visits[w - 1] == s'.clients[c].visits[v - 1]
                ==> Seen(s, c, v) <= Seen(s', c, w))
  {
    var ss, es, f := ExecutionIsRun(ys, ms, |ms|);
    PlacesAscend(ys, ms, |ms|, ss, es, f, i, j);
    VisitPrefixLaw(ss, es, f[i], f[j], c, v, w);
  }

  // ---------------------------------------------------------------- what is written

  /** Whenever the lobby is between two events, a member of a live room whose connection holds has been
      written, during its current visit, exactly the history of the room; the last text may still be
      on its way. */
  lemma MembersHaveReadTheHistory(ys: seq<System>, ms: seq<Move>, i: nat, r: RoomId, c: ClientId)
    requires IsExecution(ys, ms) && i < |ys| && Idle(ys[i])
    requires Live(ys[i].lobby, r) && c in ys[i].lobby.rooms[r].members
    ensures c in ys[i].lobby.clients && c in ys[i].procs
    ensures var p := ys[i].procs[c];
            var v := |ys[i].lobby.clients[c].visits|;
            var history := ys[i].lobby.rooms[r].messages;
            && (p.writer.Waiting? ==> Transcript(p.written, v) == history)
            && (p.writer.Writing? ==> Transcript(p.written + [p.writer.what], v) == history)
            && p.writer != Finished
  {
    ExecutionSound(ys, ms, i);
    WrittenInOrder(ys, ms, i, c);
    TranscriptIsHistory(ys[i].lobby, r, c, c);
  }
}
