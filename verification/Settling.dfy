/** The server left alone by the network and the clock: whatever its goroutines do, and in whatever
    order, after finitely many steps all that is owed is finished, or the lobby is blocked. */
module Settling {
  import opened GoStrings
  import opened LobbyModel
  import opened Membership
  import opened Expiry
  import opened Transcripts
  import G = Goroutines
  import opened Progress
  import opened Audiences
  import opened Blocking
  import Invariant
  import Commands

  // ---------------------------------------------------------------- sums over maps

  ghost function Sum(m: map<int, nat>): nat {
    if forall k :: k !in m then 0
    else
      var k :| k in m;
      m[k] + Sum(m - {k})
  }

  lemma {:induction false} SumTakeOut(m: map<int, nat>, k: int)
    requires k in m
    ensures Sum(m) == m[k] + Sum(m - {k})
  {
    var j :| j in m && Sum(m) == m[j] + Sum(m - {j});
    if j != k {
      SumTakeOut(m - {j}, k);
      SumTakeOut(m - {k}, j);
      assert m - {j} - {k} == m - {k} - {j};
    }
  }

  lemma SumPut(m: map<int, nat>, k: int, v: nat)
    requires k in m
    ensures Sum(m[k := v]) + m[k] == Sum(m) + v
  {
    SumTakeOut(m, k);
    SumTakeOut(m[k := v], k);
    assert m[k := v] - {k} == m - {k};
  }

  lemma SumAdd(m: map<int, nat>, k: int, v: nat)
    requires k !in m
    ensures Sum(m[k := v]) == Sum(m) + v
  {
    SumTakeOut(m[k := v], k);
    assert m[k := v] - {k} == m;
  }

  // ---------------------------------------------------------------- what is still to be done

  /** A connection the server has not closed. */
  function Open(p: G.Proc, hungUp: bool): nat {
    if hungUp then 0 else 1
  }

  /** The lines and the departure of a client the lobby has yet to handle, and twice the lines that can
      still be read from a closed connection. */
  function Pending(p: G.Proc, hungUp: bool): nat {
    (if p.reader.Offering? then 1 else 0)
    + (if p.forwarder.Forwarding? then 1 else 0)
    + (if p.forwarder.Receiving? || p.forwarder.Forwarding? || p.forwarder.Leaving? then 1 else 0)
    + (if hungUp then 2 * |Lines(p.rest)| else 0)
  }

  /** The steps of a client's goroutines among themselves. */
  function OwnWork(p: G.Proc, hungUp: bool): nat {
    (if p.reader.Offering? || (hungUp && p.reader.Reading?) then 1 else 0)
    + (if p.forwarder.Receiving? then 1 else 0)
    + (if p.writer.Writing? then 2 else if p.writer.Waiting? then 1 else 0)
  }

  /** A weight of all clients' goroutines together. */
  ghost function Total(y: System, w: (G.Proc, bool) -> nat): nat {
    Sum(map c | c in y.procs :: w(y.procs[c], HungUp(y.lobby, c)))
  }

  /** Only the goroutines or the connection of one client changed. */
  ghost predicate OnlyOne(y: System, y': System, c: ClientId) {
    && c in y.procs && y'.procs.Keys == y.procs.Keys
    && forall d :: d in y.procs && d != c ==>
         y'.procs[d] == y.procs[d] && (HungUp(y'.lobby, d) <==> HungUp(y.lobby, d))
  }

  lemma TotalChange(y: System, y': System, c: ClientId, w: (G.Proc, bool) -> nat)
    requires OnlyOne(y, y', c)
    ensures Total(y', w) + w(y.procs[c], HungUp(y.lobby, c)) == Total(y, w) + w(y'.procs[c], HungUp(y'.lobby, c))
  {
    var m := map d | d in y.procs :: w(y.procs[d], HungUp(y.lobby, d));
    var m' := map d | d in y'.procs :: w(y'.procs[d], HungUp(y'.lobby, d));
    var v := w(y'.procs[c], HungUp(y'.lobby, c));
    SumPut(m, c, v);
    SameMap(m', m[c := v]);
  }

  lemma TotalSame(y: System, y': System, w: (G.Proc, bool) -> nat)
    requires y'.procs == y.procs && forall d :: d in y.procs ==> (HungUp(y'.lobby, d) <==> HungUp(y.lobby, d))
    ensures Total(y', w) == Total(y, w)
  {
    var m := map d | d in y.procs :: w(y.procs[d], HungUp(y.lobby, d));
    var m' := map d | d in y'.procs :: w(y'.procs[d], HungUp(y'.lobby, d));
    SameMap(m', m);
  }

  /** The steps a timer takes before it sleeps into the future or is gone. */
  function TimerSteps(expiry: Time, phase: Phase, now: Time): nat {
    match phase
    case Fresh => 1
    case Rearmed => if now < expiry then 1 else 2
    case Sleeping(due, armed) => if now < due then 0 else if now < expiry then 2 else 1
  }

  ghost predicate Roomed(s: State) {
    forall t :: t in s.timers ==> s.timers[t].room in s.rooms
  }

  ghost function TimerWork(s: State): map<int, nat>
    requires Roomed(s)
  {
    map t | t in s.timers :: TimerSteps(s.rooms[s.timers[t].room].expiry, s.timers[t].phase, s.now)
  }

  function SendsLeft(y: System): nat {
    2 * (if y.done <= |y.lobby.out| then |y.lobby.out| - y.done else 0) + if y.closing.Some? then 1 else 0
  }

  /** All that is left to be done: connections that may be closed, events, timers, sends, and steps within a
      client. */
  datatype Work = Work(open: nat, pending: nat, timers: nat, sends: nat, own: nat)

  ghost function WorkLeft(y: System): Work {
    Work(Total(y, Open), Total(y, Pending),
         if Roomed(y.lobby) then Sum(TimerWork(y.lobby)) else 0,
         SendsLeft(y), Total(y, OwnWork))
  }

  predicate Less(v: Work, w: Work) {
    || v.open < w.open
    || (v.open == w.open && v.pending < w.pending)
    || (v.open == w.open && v.pending == w.pending && v.timers < w.timers)
    || (v.open == w.open && v.pending == w.pending && v.timers == w.timers && v.sends < w.sends)
    || (v.open == w.open && v.pending == w.pending && v.timers == w.timers && v.sends == w.sends && v.own < w.own)
  }

  ghost predicate Descends(y: System, y': System) {
    Less(WorkLeft(y'), WorkLeft(y))
  }

  // ---------------------------------------------------------------- every step leaves less to do

  /** The totals of all clients change only by what changed for one. */
  lemma TotalsChange(y: System, y': System, c: ClientId)
    requires OnlyOne(y, y', c)
    ensures var h, h' := HungUp(y.lobby, c), HungUp(y'.lobby, c);
            && Total(y', Open) + Open(y.procs[c], h) == Total(y, Open) + Open(y'.procs[c], h')
            && Total(y', Pending) + Pending(y.procs[c], h) == Total(y, Pending) + Pending(y'.procs[c], h')
            && Total(y', OwnWork) + OwnWork(y.procs[c], h) == Total(y, OwnWork) + OwnWork(y'.procs[c], h')
  {
    TotalChange(y, y', c, Open);
    TotalChange(y, y', c, Pending);
    TotalChange(y, y', c, OwnWork);
  }

  lemma TotalsSame(y: System, y': System)
    requires y'.procs == y.procs && forall d :: d in y.procs ==> (HungUp(y'.lobby, d) <==> HungUp(y.lobby, d))
    ensures Total(y', Open) == Total(y, Open) && Total(y', Pending) == Total(y, Pending)
    ensures Total(y', OwnWork) == Total(y, OwnWork)
  {
    TotalSame(y, y', Open);
    TotalSame(y, y', Pending);
    TotalSame(y, y', OwnWork);
  }

  /** A step within one client's goroutines. */
  lemma LocalWork(y: System, m: Move)
    requires G.Guard(y, m) && G.Ready(y, m) && Internal(y, m) && G.Local(m)
    requires !m.WriteError? || y.procs[m.client].writer.Writing?
    ensures var p, p' := y.procs[m.client], G.Apply(y, m).procs[m.client];
            var h := HungUp(y.lobby, m.client);
            || Pending(p', h) < Pending(p, h)
            || (Pending(p', h) == Pending(p, h) && OwnWork(p', h) < OwnWork(p, h))
  {
    if m.Read? {
      ReadYieldsNextLine(y.procs[m.client].rest);
    }
  }

  lemma LocalDescends(y: System, m: Move)
    requires G.Guard(y, m) && G.Ready(y, m) && Internal(y, m) && G.Local(m)
    ensures Descends(y, G.Apply(y, m))
  {
    G.LocalFrame(y, m);
    TotalsChange(y, G.Apply(y, m), m.client);
    LocalWork(y, m);
  }

  lemma TransmitDescends(y: System)
    requires G.Guard(y, G.Transmit)
    ensures Descends(y, G.Apply(y, G.Transmit))
  {
    TotalsChange(y, G.Apply(y, G.Transmit), y.lobby.out[y.done].to);
  }

  lemma CloseOutDescends(y: System)
    requires G.Guard(y, G.CloseOut)
    ensures Descends(y, G.Apply(y, G.CloseOut))
  {
    TotalsSame(y, G.Apply(y, G.CloseOut));
  }

  lemma HandleDescends(y: System, c: ClientId, order: seq<string>)
    requires G.Guard(y, G.Handle(c, order)) && G.Ready(y, G.Handle(c, order))
    ensures Descends(y, G.Apply(y, G.Handle(c, order)))
  {
    var m := G.Handle(c, order);
    var message := y.procs[c].forwarder.message;
    forall x ensures HungUp(G.Apply(y, m).lobby, x)
        <==> HungUp(y.lobby, x) || (Commands.Classify(message.line).Quit? && x == c)
    {
      LineHangsUp(y.lobby, c, message, order, Commands.Classify(message.line), x);
    }
    TotalsChange(y, G.Apply(y, m), c);
  }

  lemma LeaveHangsNobodyUp(s: State, c: ClientId, x: ClientId)
    requires Resolved(s) && c in s.clients
    ensures HungUp(Leave(s, c), x) <==> HungUp(s, x)
  {
  }

  lemma ResignDescends(y: System, c: ClientId)
    requires G.Guard(y, G.Resign(c)) && G.Ready(y, G.Resign(c))
    ensures Descends(y, G.Apply(y, G.Resign(c)))
  {
    forall x ensures HungUp(G.Apply(y, G.Resign(c)).lobby, x) <==> HungUp(y.lobby, x) {
      LeaveHangsNobodyUp(y.lobby, c, x);
    }
    TotalsChange(y, G.Apply(y, G.Resign(c)), c);
  }

  lemma WakeDescends(y: System, t: TimerId)
    requires Resolved(y.lobby) && G.Guard(y, G.Wake(t)) && Resolved(StartTimer(y.lobby, t))
    ensures Descends(y, G.Apply(y, G.Wake(t)))
  {
    var y' := G.Apply(y, G.Wake(t));
    assert y'.lobby == StartTimer(y.lobby, t) && y'.procs == y.procs;
    TotalsSame(y, y');
    StartDescends(y.lobby, t);
    TimersDescend(y, y');
  }

  lemma StartDescends(s: State, t: TimerId)
    requires Resolved(s) && Enabled(s, Start(t)) && Resolved(StartTimer(s, t))
    ensures Sum(TimerWork(StartTimer(s, t))) < Sum(TimerWork(s))
  {
    var s' := StartTimer(s, t);
    SumPut(TimerWork(s), t, TimerWork(s')[t]);
    assert TimerWork(s') == TimerWork(s)[t := TimerWork(s')[t]];
  }

  /** One timer is replaced by a renewed one. */
  lemma RenewalDescends(s: State, s': State, t: TimerId, n: TimerId)
    requires Roomed(s) && Roomed(s') && t in s.timers && n !in s.timers && s'.now == s.now
    requires forall q :: q in s.rooms ==> q in s'.rooms && s'.rooms[q].expiry == s.rooms[q].expiry
    requires s'.timers == (s.timers - {t})[n := Timer(s.timers[t].room, Rearmed)]
    requires s.timers[t].phase.Sleeping? && s.timers[t].phase.due <= s.now < s.rooms[s.timers[t].room].expiry
    ensures Sum(TimerWork(s')) < Sum(TimerWork(s))
  {
    var m := TimerWork(s);
    SumTakeOut(m, t);
    SumAdd(m - {t}, n, 1);
    var w := (m - {t})[n := 1];
    forall u | u in s'.timers ensures TimerWork(s')[u] == w[u] {
    }
    SameMap(TimerWork(s'), w);
  }

  lemma SameMap<K, V>(a: map<K, V>, b: map<K, V>)
    requires a.Keys == b.Keys && forall k :: k in a ==> a[k] == b[k]
    ensures a == b
  {
  }

  /** One timer is gone, and its room has no other. */
  lemma DeletionDescends(s: State, s': State, t: TimerId)
    requires Roomed(s) && Roomed(s') && t in s.timers && s'.timers == s.timers - {t} && s'.now == s.now
    requires forall u :: u in s.timers && u != t ==>
                           s.timers[u].room in s'.rooms &&
                           s'.rooms[s.timers[u].room].expiry == s.rooms[s.timers[u].room].expiry
    requires s.timers[t].phase.Sleeping? && s.timers[t].phase.due <= s.now
    ensures Sum(TimerWork(s')) < Sum(TimerWork(s))
  {
    SumTakeOut(TimerWork(s), t);
    var w := TimerWork(s) - {t};
    forall u | u in s'.timers ensures TimerWork(s')[u] == w[u] {
      assert s'.timers[u] == s.timers[u];
    }
    SameMap(TimerWork(s'), w);
  }

  lemma OtherExpiries(s: State, t: TimerId)
    requires Resolved(s) && TimersSound(s) && t in s.timers && s.rooms[s.timers[t].room].expiry <= s.now
    ensures forall u :: u in s.timers && u != t ==>
                          && s.timers[u].room in Fire(s, t).rooms
                          && Fire(s, t).rooms[s.timers[u].room].expiry == s.rooms[s.timers[u].room].expiry
  {
  }

  lemma FireDescends(s: State, t: TimerId)
    requires Resolved(s) && FreshIds(s) && TimersSound(s) && Enabled(s, Expire(t)) && Resolved(Fire(s, t))
    ensures Sum(TimerWork(Fire(s, t))) < Sum(TimerWork(s))
  {
    if s.now < s.rooms[s.timers[t].room].expiry {
      RenewalDescends(s, Fire(s, t), t, s.nextTimer);
    } else {
      OtherExpiries(s, t);
      DeletionDescends(s, Fire(s, t), t);
    }
  }

  lemma TimersDescend(y: System, y': System)
    requires Total(y', Open) == Total(y, Open) && Total(y', Pending) == Total(y, Pending)
    requires Roomed(y.lobby) && Roomed(y'.lobby) && Sum(TimerWork(y'.lobby)) < Sum(TimerWork(y.lobby))
    ensures Descends(y, y')
  {
  }

  lemma FireHangsNobodyUp(s: State, t: TimerId, x: ClientId)
    requires Resolved(s) && t in s.timers
    ensures HungUp(Fire(s, t), x) <==> HungUp(s, x)
  {
  }

  lemma RingDescends(y: System, t: TimerId)
    requires Resolved(y.lobby) && FreshIds(y.lobby) && TimersSound(y.lobby)
    requires G.Guard(y, G.Ring(t)) && Resolved(Fire(y.lobby, t))
    ensures Descends(y, G.Apply(y, G.Ring(t)))
  {
    var y' := G.Apply(y, G.Ring(t));
    FireDescends(y.lobby, t);
    forall x ensures HungUp(Fire(y.lobby, t), x) <==> HungUp(y.lobby, x) {
      FireHangsNobodyUp(y.lobby, t, x);
    }
    assert y'.lobby == Fire(y.lobby, t) && y'.procs == y.procs;
    TotalsSame(y, y');
    TimersDescend(y, y');
  }

  /** Every step of the server itself leaves less to do. */
  lemma StepDescends(y: System, m: Move)
    requires Resolved(y.lobby) && FreshIds(y.lobby) && TimersSound(y.lobby)
    requires G.Guard(y, m) && G.Ready(y, m) && Internal(y, m) && Resolved(G.Apply(y, m).lobby)
    ensures Descends(y, G.Apply(y, m))
  {
    if G.Local(m) {
      LocalDescends(y, m);
    } else {
      match m
      case Handle(c, order) => HandleDescends(y, c, order);
      case Resign(c) => ResignDescends(y, c);
      case Wake(t) => WakeDescends(y, t);
      case Ring(t) => RingDescends(y, t);
      case Transmit => TransmitDescends(y);
      case CloseOut => CloseOutDescends(y);
    }
  }

  // ---------------------------------------------------------------- every schedule stops

  /** Work that gets less at every step is done some time. */
  lemma {:induction false} DoneSomeTime(work: nat -> Work, goesOn: nat -> bool, i: nat) returns (n: nat)
    requires forall k: nat :: k < i ==> goesOn(k)
    requires forall k: nat, l: nat :: l == k + 1 && (forall j: nat :: j <= k ==> goesOn(j)) ==> Less(work(l), work(k))
    ensures !goesOn(n) && forall k: nat :: k < n ==> goesOn(k)
    decreases work(i).open, work(i).pending, work(i).timers, work(i).sends, work(i).own
  {
    if goesOn(i) {
      var j := i + 1;
      assert Less(work(j), work(i));
      n := DoneSomeTime(work, goesOn, j);
    } else {
      n := i;
    }
  }

  /** The schedule takes a step of the server's own at time `i`. */
  ghost predicate StepsAt(ys: nat -> System, ms: nat -> Move, i: nat) {
    Internal(ys(i), ms(i)) && G.MovesTo(ys(i), ms(i), ys(i + 1))
  }

  /** A step of the server's own leaves less to do. */
  lemma OwnStep(y: System, m: Move, y': System)
    requires G.Sound(y) && Internal(y, m) && G.MovesTo(y, m, y')
    ensures G.Sound(y') && Descends(y, y')
  {
    MovesToKeepsSound(y, m, y');
    StepDescends(y, m);
  }

  /** What holds at first and carries over at every step holds after any number of the server's own steps. */
  lemma HoldsUntil(holds: System -> bool, ys: nat -> System, ms: nat -> Move, n: nat)
    requires holds(ys(0)) && forall k: nat :: k < n ==> StepsAt(ys, ms, k)
    requires forall y, m, y' :: holds(y) && Internal(y, m) && G.MovesTo(y, m, y') ==> holds(y')
    ensures holds(ys(n))
  {
    var zs := seq(n + 1, (i: nat) => ys(i));
    forall k, l | 0 <= k && l == k + 1 && l < |zs| && holds(zs[k]) ensures holds(zs[l]) {
      assert StepsAt(ys, ms, k);
    }
    CarriedAlong(holds, zs, n);
  }

  lemma SoundUntil(ys: nat -> System, ms: nat -> Move, n: nat)
    requires G.Sound(ys(0)) && forall k: nat :: k < n ==> StepsAt(ys, ms, k)
    ensures G.Sound(ys(n))
  {
    forall y, m, y' | G.Sound(y) && Internal(y, m) && G.MovesTo(y, m, y') ensures G.Sound(y') {
      MovesToKeepsSound(y, m, y');
    }
    HoldsUntil((y: System) => G.Sound(y), ys, ms, n);
  }

  lemma WorkGetsLess(ys: nat -> System, ms: nat -> Move, k: nat)
    requires G.Sound(ys(0)) && forall j: nat :: j <= k ==> StepsAt(ys, ms, j)
    ensures Less(WorkLeft(ys(k + 1)), WorkLeft(ys(k)))
  {
    SoundUntil(ys, ms, k);
    assert StepsAt(ys, ms, k);
    OwnStep(ys(k), ms(k), ys(k + 1));
  }

  /** No schedule consists of the server's own steps for ever, failing writes and reads on closed
      connections included. */
  lemma OwnStepsStop(ys: nat -> System, ms: nat -> Move) returns (n: nat)
    requires G.Sound(ys(0))
    ensures !StepsAt(ys, ms, n) && forall k: nat :: k < n ==> StepsAt(ys, ms, k)
  {
    var work := (k: nat) => WorkLeft(ys(k));
    var goesOn := (k: nat) => StepsAt(ys, ms, k);
    forall k: nat, l: nat | l == k + 1 && (forall j: nat :: j <= k ==> goesOn(j)) ensures Less(work(l), work(k)) {
      forall j: nat | j <= k ensures StepsAt(ys, ms, j) {
        assert goesOn(j);
      }
      WorkGetsLess(ys, ms, k);
    }
    n := DoneSomeTime(work, goesOn, 0);
    forall k: nat | k < n ensures StepsAt(ys, ms, k) {
      assert goesOn(k);
    }
  }

  // ---------------------------------------------------------------- where schedules stop

  /** When no step is possible any more, nothing is owed, unless the lobby is blocked. */
  lemma StoppedOwesIffDoomed(y: System)
    requires G.Sound(y) && !CanMove(y)
    ensures Owes(y) <==> Doomed(y)
  {
    if Doomed(y) {
      DoomedIsBusy(y);
    } else if Owes(y) {
      if Stuck(y) {
        NextAhead(y, y.lobby.out[y.done].to);
        assert Excess(y, y.lobby.out[y.done].to, 0);
      }
      OwedStep(y);
    }
  }

  /** Left alone by the network and the clock, the server comes to a stop under every schedule that goes on
      as long as some step is possible, whatever connections have failed or been closed. Then nothing is
      owed, so every line that reached the lobby is parsed, every departure handled, every due timer served
      and every text written or lost with its connection, if and only if the lobby is not blocked. */
  lemma EveryScheduleSettles(ys: nat -> System, ms: nat -> Move) returns (n: nat)
    requires G.Sound(ys(0)) && forall i: nat :: CanMove(ys(i)) ==> StepsAt(ys, ms, i)
    ensures forall k: nat :: k < n ==> StepsAt(ys, ms, k)
    ensures G.Sound(ys(n)) && !CanMove(ys(n)) && (!Owes(ys(n)) <==> !Doomed(ys(n)))
  {
    n := OwnStepsStop(ys, ms);
    SoundUntil(ys, ms, n);
    StoppedOwesIffDoomed(ys(n));
  }

  /** It is not blocked if it never takes up an event with more texts for somebody than can be taken at
      worst. */
  lemma SettlesWithoutRisk(ys: nat -> System, ms: nat -> Move) returns (n: nat)
    requires G.Sound(ys(0)) && !AtRisk(ys(0))
    requires forall i: nat :: CanMove(ys(i)) ==> StepsAt(ys, ms, i)
    requires forall i: nat :: StepsAt(ys, ms, i) && IsTurn(ms(i)) && G.Ready(ys(i), ms(i)) ==> !Risks(ys(i), ms(i))
    ensures forall k: nat :: k < n ==> StepsAt(ys, ms, k)
    ensures !Owes(ys(n))
  {
    n := EveryScheduleSettles(ys, ms);
    SafeUntil(ys, ms, n);
    if Doomed(ys(n)) {
      DoomedIsAtRisk(ys(n));
    }
  }

  lemma SafeUntil(ys: nat -> System, ms: nat -> Move, n: nat)
    requires G.Sound(ys(0)) && !AtRisk(ys(0)) && forall k: nat :: k < n ==> StepsAt(ys, ms, k)
    requires forall i: nat :: StepsAt(ys, ms, i) && IsTurn(ms(i)) && G.Ready(ys(i), ms(i)) ==> !Risks(ys(i), ms(i))
    ensures !AtRisk(ys(n))
  {
    var holds := (y: System) => G.Sound(y) && !AtRisk(y);
    var zs := seq(n + 1, (i: nat) => ys(i));
    forall k, l | 0 <= k && l == k + 1 && l < |zs| && holds(zs[k]) ensures holds(zs[l]) {
      assert StepsAt(ys, ms, k);
      SafeOwnStep(ys(k), ms(k), ys(l));
    }
    CarriedAlong(holds, zs, n);
  }

  lemma SafeOwnStep(y: System, m: Move, y': System)
    requires G.Sound(y) && !AtRisk(y) && Internal(y, m) && G.MovesTo(y, m, y')
    requires IsTurn(m) && G.Ready(y, m) ==> !Risks(y, m)
    ensures G.Sound(y') && !AtRisk(y')
  {
    if IsTurn(m) {
      MovesToKeepsSound(y, m, y');
      RiskAfterTurn(y, m);
    } else {
      SafeStep(y, m, y');
    }
  }

  // ---------------------------------------------------------------- a schedule that stops

  /** Consecutive systems of an execution, by the server's own steps. */
  ghost predicate IsOwnFragment(ys: seq<System>, ms: seq<Move>) {
    IsFragment(ys, ms) && forall k :: 0 <= k < |ms| ==> Internal(ys[k], ms[k])
  }

  lemma PrependOwn(y: System, m: Move, ys: seq<System>, ms: seq<Move>)
    requires IsOwnFragment(ys, ms) && G.MovesTo(y, m, ys[0]) && Internal(y, m)
    ensures IsOwnFragment([y] + ys, [m] + ms)
  {
    Prepend(y, m, ys, ms);
    var zs, ns := [y] + ys, [m] + ms;
    forall k | 0 <= k < |ns| ensures Internal(zs[k], ns[k]) {
      if k > 0 {
        assert Internal(ys[k - 1], ms[k - 1]);
      }
    }
  }

  /** Some step of the server's own is possible and leads to a system of the same kind with less to do. */
  ghost predicate GoesOn(holds: System -> bool, left: System -> Work, y: System) {
    exists m, y' :: Internal(y, m) && G.MovesTo(y, m, y') && holds(y') && Less(left(y'), left(y))
  }

  lemma {:induction false} StopsFrom(holds: System -> bool, left: System -> Work, y: System, work: Work)
    returns (ys: seq<System>, ms: seq<Move>)
    requires holds(y) && work == left(y)
    requires forall x :: holds(x) && CanMove(x) ==> GoesOn(holds, left, x)
    ensures IsOwnFragment(ys, ms) && ys[0] == y
    ensures !CanMove(ys[|ys| - 1]) && holds(ys[|ys| - 1])
    decreases work.open, work.pending, work.timers, work.sends, work.own
  {
    if CanMove(y) {
      var m, y' :| Internal(y, m) && G.MovesTo(y, m, y') && holds(y') && Less(left(y'), left(y));
      var rest, moves := StopsFrom(holds, left, y', left(y'));
      PrependOwn(y, m, rest, moves);
      ys, ms := [y] + rest, [m] + moves;
    } else {
      ys, ms := [y], [];
    }
  }

  lemma SoundGoesOn(y: System, holds: System -> bool, left: System -> Work)
    requires forall x :: left(x) == WorkLeft(x)
    requires forall x, m, x' :: holds(x) && Internal(x, m) && G.MovesTo(x, m, x') ==> holds(x')
    requires G.Sound(y) && holds(y) && CanMove(y)
    ensures GoesOn(holds, left, y)
  {
    var m :| Internal(y, m) && G.Guard(y, m);
    G.OffersAreEnabled(y, m);
    var y' := G.Apply(y, m);
    assert G.MovesTo(y, m, y');
    OwnStep(y, m, y');
    assert left(y') == WorkLeft(y') && left(y) == WorkLeft(y);
  }

  /** From every sound state there is a schedule of the server's own steps that comes to a stop, and what the
      server's own steps keep holds there. */
  lemma ServerStops(y: System, holds: System -> bool) returns (ys: seq<System>, ms: seq<Move>)
    requires holds(y) && forall x :: holds(x) ==> G.Sound(x)
    requires forall x, m, x' :: holds(x) && Internal(x, m) && G.MovesTo(x, m, x') ==> holds(x')
    ensures IsOwnFragment(ys, ms) && ys[0] == y
    ensures var z := ys[|ys| - 1]; holds(z) && !CanMove(z)
  {
    var left := (x: System) => WorkLeft(x);
    forall x | holds(x) && CanMove(x) ensures GoesOn(holds, left, x) {
      SoundGoesOn(x, holds, left);
    }
    ys, ms := StopsFrom(holds, left, y, left(y));
  }

  // ---------------------------------------------------------------- calm systems

  predicate IsQuit(m: Message) {
    Commands.Classify(m.line).Quit?
  }

  predicate TurnedAway(s: State, c: ClientId) {
    c in s.clients && s.clients[c].link == Refused
  }

  /** The connection holds, unless the client was refused, and no `/q` of the client is pending. */
  predicate CalmProc(p: G.Proc, hungUp: bool, refused: bool, admitted: bool, ahead: nat) {
    && !p.writer.Failed? && !(p.writer.Writing? && p.writer.late)
    && (hungUp ==> refused && p.writer.Waiting? && ahead == 0)
    && (admitted ==>
          && (p.reader.Offering? ==> !IsQuit(p.reader.message))
          && (p.forwarder.Forwarding? ==> !IsQuit(p.forwarder.message)))
  }

  predicate CalmClient(y: System, c: ClientId) {
    c in y.procs ==>
      CalmProc(y.procs[c], HungUp(y.lobby, c), TurnedAway(y.lobby, c),
               c in y.lobby.clients && !TurnedAway(y.lobby, c), Ahead(y, c))
  }

  ghost predicate Calm(y: System) {
    forall c :: CalmClient(y, c)
  }

  lemma CalmIsSafe(y: System)
    requires G.ChannelsOk(y) && Calm(y)
    ensures !AtRisk(y)
  {
    if c :| RisksNow(y, c) {
      assert CalmClient(y, c);
      UnaddressedLog(y.lobby.out[y.done..], c);
    }
  }

  /** Refused clients are sent nothing. */
  lemma NothingForRefused(s: State, e: Event, x: ClientId)
    requires Invariant.Inv(s) && Enabled(s, e) && TurnedAway(s, x)
    ensures Texts(s, e, x) == 0
  {
    if e.Expire? {
      TimerOfLiveRoom(s, e);
    }
    TextsSent(s, e, x);
    Invariant.StepAdvances(s, e);
    NoneAfter(s, Step(s, e), x);
  }

  lemma NoneAfter(s: State, s': State, x: ClientId)
    requires Invariant.SendsAdvance(s, s') && TurnedAway(s, x)
    ensures |Log(s'.out, x)| == |Log(s.out, x)|
  {
    SendsAfter(s, s', |s.out|, x);
    UnaddressedLog(s'.out[|s.out|..], x);
  }

  lemma CalmNonTurn(y: System, m: Move, c: ClientId)
    requires G.ChannelsOk(y) && G.Guard(y, m) && G.Ready(y, m) && Internal(y, m) && !IsTurn(m) && Calm(y)
    ensures CalmClient(G.Apply(y, m), c)
  {
    assert CalmClient(y, c);
    var y' := G.Apply(y, m);
    if m.Transmit? {
      NextAhead(y, c);
      SameAhead(y.(done := y.done + 1), y', c);
      assert CalmClient(y, y.lobby.out[y.done].to);
    } else {
      SameAhead(y, y', c);
      if G.Local(m) {
        assert CalmClient(y, m.client);
      }
    }
  }

  /** A turn that is no `/q` hangs nobody up, and admits nobody. */
  lemma TurnHangsNobodyUp(y: System, m: Move, c: ClientId)
    requires G.Guard(y, m) && G.Ready(y, m) && Internal(y, m) && IsTurn(m)
    requires m.Handle? ==> !IsQuit(y.procs[m.client].forwarder.message)
    ensures HungUp(G.Apply(y, m).lobby, c) <==> HungUp(y.lobby, c)
  {
    match m
    case Handle(d, order) =>
      var message := y.procs[d].forwarder.message;
      LineHangsUp(y.lobby, d, message, order, Commands.Classify(message.line), c);
    case Resign(d) => LeaveHangsNobodyUp(y.lobby, d, c);
    case Ring(t) =>
  }

  lemma StepLinks(s: State, e: Event, c: ClientId)
    requires Invariant.Inv(s) && Enabled(s, e) && !e.Arrive?
    ensures c in Step(s, e).clients <==> c in s.clients
    ensures TurnedAway(Step(s, e), c) <==> TurnedAway(s, c)
  {
    Invariant.StepAdvances(s, e);
    if c !in s.clients && c in Step(s, e).clients {
      Invariant.NewClientsArrive(s, e, c);
    }
  }

  lemma CalmTurn(y: System, m: Move, c: ClientId)
    requires G.Sound(y) && G.Guard(y, m) && G.Ready(y, m) && Internal(y, m) && IsTurn(m) && Calm(y)
    ensures CalmClient(G.Apply(y, m), c)
  {
    assert CalmClient(y, c);
    if m.Handle? {
      assert CalmClient(y, m.client);
      HandledIsAttached(y, m.client, m.order);
    }
    TurnHangsNobodyUp(y, m, c);
    TurnFacts(y, m);
    StepLinks(y.lobby, G.Effect(y, m).value, c);
    AheadAfterTurn(y, m, c);
    if HungUp(y.lobby, c) && c in y.procs {
      NothingForRefused(y.lobby, G.Effect(y, m).value, c);
    }
    CalmAfterTurn(y, m, c);
  }

  lemma CalmAfterTurn(y: System, m: Move, c: ClientId)
    requires G.Guard(y, m) && G.Ready(y, m) && Internal(y, m) && IsTurn(m) && CalmClient(y, c)
    requires var s, s' := y.lobby, G.Apply(y, m).lobby;
             && (HungUp(s', c) <==> HungUp(s, c)) && (TurnedAway(s', c) <==> TurnedAway(s, c))
             && (c in s'.clients <==> c in s.clients)
    requires HungUp(y.lobby, c) && c in y.procs ==> Ahead(G.Apply(y, m), c) == 0
    ensures CalmClient(G.Apply(y, m), c)
  {
    if c in y.procs {
      TurnProcs(y, m, c);
    } else {
      TurnFacts(y, m);
    }
  }

  lemma HandledIsAttached(y: System, c: ClientId, order: seq<string>)
    requires G.ProcsOk(y) && G.Guard(y, G.Handle(c, order))
    ensures c in y.lobby.clients && y.lobby.clients[c].link == Attached
  {
    G.ForwardedMessage(y.lobby, y.done, c, y.procs[c]);
  }

  lemma TurnProcs(y: System, m: Move, c: ClientId)
    requires G.Guard(y, m) && G.Ready(y, m) && Internal(y, m) && IsTurn(m) && c in y.procs
    ensures c in G.Apply(y, m).procs
    ensures var p, p' := y.procs[c], G.Apply(y, m).procs[c];
            && p'.reader == p.reader && p'.writer == p.writer
            && (p'.forwarder.Forwarding? ==> p'.forwarder == p.forwarder)
  {
  }

  lemma CalmStep(y: System, m: Move, y': System)
    requires G.Sound(y) && Calm(y) && Internal(y, m) && G.MovesTo(y, m, y')
    ensures G.Sound(y') && Calm(y')
  {
    MovesToKeepsSound(y, m, y');
    forall c ensures CalmClient(y', c) {
      if IsTurn(m) {
        CalmTurn(y, m, c);
      } else {
        CalmNonTurn(y, m, c);
      }
    }
  }

  /** As long as no connection has failed or been closed but those of refused clients, and no `/q` is
      pending, every schedule of the server's own steps that goes on while it can ends with nothing owed. */
  lemma CalmSettles(ys: nat -> System, ms: nat -> Move) returns (n: nat)
    requires G.Sound(ys(0)) && Calm(ys(0)) && forall i: nat :: CanMove(ys(i)) ==> StepsAt(ys, ms, i)
    ensures forall k: nat :: k < n ==> StepsAt(ys, ms, k)
    ensures !Owes(ys(n)) && Calm(ys(n))
  {
    n := EveryScheduleSettles(ys, ms);
    CalmUntil(ys, ms, n);
    CalmIsNotDoomed(ys(n));
  }

  lemma CalmIsNotDoomed(y: System)
    requires G.ChannelsOk(y) && Calm(y)
    ensures !Doomed(y)
  {
    CalmIsSafe(y);
    if Doomed(y) {
      DoomedIsAtRisk(y);
    }
  }

  lemma CalmUntil(ys: nat -> System, ms: nat -> Move, n: nat)
    requires G.Sound(ys(0)) && Calm(ys(0)) && forall k: nat :: k < n ==> StepsAt(ys, ms, k)
    ensures Calm(ys(n))
  {
    forall y, m, y' | G.Sound(y) && Calm(y) && Internal(y, m) && G.MovesTo(y, m, y') ensures G.Sound(y') && Calm(y') {
      CalmStep(y, m, y');
    }
    HoldsUntil((y: System) => G.Sound(y) && Calm(y), ys, ms, n);
  }
}
