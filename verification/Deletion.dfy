/** The life of a room over a whole run, told by what happened in the run: when it was opened or spoken
    in, when its timers fired, and when it was deleted. Only the bound on lateness at the end speaks of
    records kept in the room. */
module Deletion {
  import opened LobbyModel
  import opened Membership
  import opened Expiry
  import opened Invariant
  import opened Runs
  import Commands

  /** The event between the two states opened room `r` or added to its history. */
  ghost predicate Touched(s: State, s': State, r: RoomId) {
    r in s'.rooms && (r !in s.rooms || s.rooms[r].messages != s'.rooms[r].messages)
  }

  /** The event is the handling of a timer of room `r`. */
  predicate Fires(s: State, e: Event, r: RoomId) {
    e.Expire? && e.timer in s.timers && s.timers[e.timer].room == r
  }

  // ---------------------------------------------------------------- expiry and activity

  /** What a handler does to the clocks of a room, if it is not the handler of one of its timers: the
      expiry moves exactly when the history does. */
  ghost predicate Moves(s: State, s': State, r: RoomId) {
    && s'.now == s.now
    && (r in s.rooms ==>
          && r in s'.rooms
          && s.rooms[r].messages <= s'.rooms[r].messages
          && s'.rooms[r].firings == s.rooms[r].firings
          && (Live(s', r) <==> Live(s, r)))
    && (r in s'.rooms && r !in s.rooms ==> s'.rooms[r].firings == [] && s'.rooms[r].created == s.now)
    && ExpiryMoves(s, s', r)
  }

  ghost predicate ExpiryMoves(s: State, s': State, r: RoomId) {
    r in s'.rooms ==>
      if Touched(s, s', r) then s'.rooms[r].expiry == s.now + EXPIRY_TIME
      else s'.rooms[r].expiry == s.rooms[r].expiry
  }

  lemma MovesTrans(s: State, s1: State, s2: State, r: RoomId)
    requires Moves(s, s1, r) && Moves(s1, s2, r)
    requires r in s1.rooms && r in s2.rooms ==> s2.rooms[r].created == s1.rooms[r].created
    ensures Moves(s, s2, r)
  {
  }

  lemma SameRoomMoves(s: State, s': State, r: RoomId)
    requires s'.rooms == s.rooms && s'.names == s.names && s'.now == s.now
    ensures Moves(s, s', r)
  {
  }

  lemma BroadcastMoves(s: State, q: RoomId, text: Text, r: RoomId)
    requires q in s.rooms
    ensures Moves(s, Broadcast(s, q, text), r)
  {
  }

  lemma RoomJoinMoves(s: State, q: RoomId, c: ClientId, r: RoomId)
    requires q in s.rooms && c in s.clients
    ensures Moves(s, RoomJoin(s, q, c), r)
  {
    var s1 := Enter(s, q, c);
    assert Moves(s, s1, r);
    BroadcastMoves(s1, q, Joined(s.clients[c].name), r);
    MovesTrans(s, s1, RoomJoin(s, q, c), r);
  }

  lemma RoomLeaveMoves(s: State, q: RoomId, c: ClientId, r: RoomId)
    requires q in s.rooms && c in s.clients
    ensures Moves(s, RoomLeave(s, q, c), r)
  {
    var s1 := Broadcast(s, q, Left(s.clients[c].name));
    BroadcastMoves(s, q, Left(s.clients[c].name), r);
    assert Moves(s1, Exit(s1, q, c), r);
    MovesTrans(s, s1, RoomLeave(s, q, c), r);
  }

  lemma CreateMoves(s: State, c: ClientId, name: string, r: RoomId)
    requires Resolved(s) && FreshIds(s) && c in s.clients
    ensures Moves(s, CreateChatRoom(s, c, name), r)
  {
  }

  lemma JoinChatRoomMoves(s: State, c: ClientId, name: string, r: RoomId)
    requires Resolved(s) && c in s.clients
    ensures Moves(s, JoinChatRoom(s, c, name), r)
  {
    if name !in s.names {
      SameRoomMoves(s, JoinChatRoom(s, c, name), r);
    } else if s.clients[c].room.Some? {
      var s1 := LeaveChatRoom(s, c);
      RoomLeaveMoves(s, s.clients[c].room.value, c, r);
      RoomJoinMoves(s1, s1.names[name], c, r);
      MovesTrans(s, s1, JoinChatRoom(s, c, name), r);
    } else {
      RoomJoinMoves(s, s.names[name], c, r);
    }
  }

  lemma PerformMoves(s: State, c: ClientId, m: Message, order: seq<string>, command: Commands.Command, r: RoomId)
    requires Resolved(s) && FreshIds(s) && c in s.clients
    ensures Moves(s, Perform(s, c, m, order, command), r)
  {
    match command
    case Create(name) => CreateMoves(s, c, name, r);
    case Join(name) => JoinChatRoomMoves(s, c, name, r);
    case Rename(name) =>
      if s.clients[c].room.Some? {
        BroadcastMoves(s, s.clients[c].room.value, Renamed(s.clients[c].name, name), r);
      }
    case LeaveRoom =>
      if s.clients[c].room.Some? {
        RoomLeaveMoves(s, s.clients[c].room.value, c, r);
      }
    case Say =>
      if s.clients[c].room.Some? {
        BroadcastMoves(s, s.clients[c].room.value, Said(m.time, s.clients[c].name, m.line), r);
      }
    case _ => SameRoomMoves(s, Perform(s, c, m, order, command), r);
  }

  lemma LeaveMoves(s: State, c: ClientId, r: RoomId)
    requires Resolved(s) && c in s.clients
    ensures Moves(s, Leave(s, c), r)
  {
    if s.clients[c].room.Some? {
      RoomLeaveMoves(s, s.clients[c].room.value, c, r);
    }
  }

  lemma FireMoves(s: State, t: TimerId, r: RoomId)
    requires Resolved(s) && t in s.timers && Live(s, s.timers[t].room) && s.timers[t].room != r
    ensures Moves(s, Fire(s, t), r)
  {
  }

  /** The handling of a timer is recorded; whether it deletes the room depends on the expiry alone. */
  lemma FireMovesOwn(s: State, t: TimerId)
    requires Resolved(s) && t in s.timers && Live(s, s.timers[t].room)
    ensures var r, s' := s.timers[t].room, Fire(s, t);
            && s'.rooms[r].firings == s.rooms[r].firings + [s.now]
            && ExpiryMoves(s, s', r)
            && (Touched(s, s', r) <==> s.rooms[r].expiry <= s.now)
            && (!Live(s', r) <==> s.rooms[r].expiry <= s.now)
  {
  }

  lemma ParseMoves(s: State, c: ClientId, m: Message, order: seq<string>, r: RoomId)
    requires Resolved(s) && FreshIds(s) && c in s.clients
    ensures Moves(s, Parse(s, c, m, order), r)
  {
    PerformMoves(s, c, m, order, Commands.Classify(m.line), r);
  }

  lemma ArriveMoves(s: State, c: ClientId, r: RoomId)
    ensures Moves(s, Join(s, c), r)
  {
    SameRoomMoves(s, Join(s, c), r);
  }

  lemma StartMoves(s: State, t: TimerId, r: RoomId)
    requires Resolved(s) && t in s.timers
    ensures Moves(s, StartTimer(s, t), r)
  {
    SameRoomMoves(s, StartTimer(s, t), r);
  }

  lemma StepMoves(s: State, e: Event, r: RoomId)
    requires Resolved(s) && FreshIds(s) && Enabled(s, e) && !Fires(s, e, r) && !e.Tick?
    requires e.Expire? ==> Live(s, s.timers[e.timer].room)
    ensures Moves(s, Step(s, e), r)
  {
    match e
    case Incoming(c, m, order) => ParseMoves(s, c, m, order, r);
    case Depart(c) => LeaveMoves(s, c, r);
    case Expire(t) => FireMoves(s, t, r);
    case Arrive(c) => ArriveMoves(s, c, r);
    case Start(t) => StartMoves(s, t, r);
    case Tick(time) =>
  }

  /** What any event does to the clocks of a room. */
  lemma StepClocks(s: State, e: Event, r: RoomId)
    requires Agreement(s) && TimersSound(s) && Enabled(s, e)
    ensures ExpiryMoves(s, Step(s, e), r)
    ensures Fires(s, e, r) ==> Live(s, r) && (!Live(Step(s, e), r) <==> s.rooms[r].expiry <= s.now)
    ensures !Fires(s, e, r) && r in s.rooms ==> r in Step(s, e).rooms && (Live(Step(s, e), r) <==> Live(s, r))
  {
    if Fires(s, e, r) {
      FireMovesOwn(s, e.timer);
    } else if !e.Tick? {
      StepMoves(s, e, r);
    }
  }

  lemma RunClocks(ss: seq<State>, es: seq<Event>, i: nat, r: RoomId)
    requires IsRun(ss, es) && i < |es|
    ensures ExpiryMoves(ss[i], ss[i + 1], r)
    ensures Fires(ss[i], es[i], r) ==> Live(ss[i], r) && (!Live(ss[i + 1], r) <==> ss[i].rooms[r].expiry <= ss[i].now)
    ensures !Fires(ss[i], es[i], r) && r in ss[i].rooms ==>
              r in ss[i + 1].rooms && (Live(ss[i + 1], r) <==> Live(ss[i], r))
  {
    RunStep(ss, es, i);
    StepClocks(ss[i], es[i], r);
  }

  /** A room's expiry is `EXPIRY_TIME` after the last event that opened it or added to its history. */
  lemma {:induction false} ExpiryIsLastTouch(ss: seq<State>, es: seq<Event>, i: nat, r: RoomId) returns (last: nat)
    requires IsRun(ss, es) && i < |ss| && r in ss[i].rooms
    ensures last < i && Touched(ss[last], ss[last + 1], r)
    ensures ss[i].rooms[r].expiry == ss[last].now + EXPIRY_TIME
    ensures forall k :: last < k < i ==> !Touched(ss[k], ss[k + 1], r)
  {
    RunClocks(ss, es, i - 1, r);
    if Touched(ss[i - 1], ss[i], r) {
      last := i - 1;
    } else {
      last := ExpiryIsLastTouch(ss, es, i - 1, r);
    }
  }

  lemma ClockAdvances(ss: seq<State>, es: seq<Event>, i: nat, j: nat)
    requires IsRun(ss, es) && i <= j < |ss|
    ensures ss[i].now <= ss[j].now
  {
    RunAdvances(ss, es, i, j);
  }

  /** Deletion is sound and complete: the timer handled belongs to the room its name leads to, and the
      room is deleted if and only if every event that opened it or added to its history lies at least
      `EXPIRY_TIME` in the past. Nothing but the handling of one of its timers deletes a room. */
  lemma DeletedExactlyWhenIdle(ss: seq<State>, es: seq<Event>, i: nat, r: RoomId)
    requires IsRun(ss, es) && i < |es| && r in ss[i].rooms
    ensures Fires(ss[i], es[i], r) ==>
              && ss[i].rooms[r].name in ss[i].names && ss[i].names[ss[i].rooms[r].name] == r
              && (!Live(ss[i + 1], r) <==>
                  forall k :: 0 <= k < i && Touched(ss[k], ss[k + 1], r) ==> ss[k].now + EXPIRY_TIME <= ss[i].now)
    ensures !Fires(ss[i], es[i], r) ==> (Live(ss[i + 1], r) <==> Live(ss[i], r))
  {
    RunClocks(ss, es, i, r);
    var last := ExpiryIsLastTouch(ss, es, i, r);
    forall k | 0 <= k < i && Touched(ss[k], ss[k + 1], r) ensures ss[k].now <= ss[last].now {
      ClockAdvances(ss, es, k, last);
    }
  }

  // ---------------------------------------------------------------- how often timers fire

  /** The times at which timers of room `r` were handled before step `i`. */
  function FiringTimes(ss: seq<State>, es: seq<Event>, i: nat, r: RoomId): seq<Time>
    requires i <= |es| < |ss|
  {
    if i == 0 then []
    else FiringTimes(ss, es, i - 1, r) + if Fires(ss[i - 1], es[i - 1], r) then [ss[i - 1].now] else []
  }

  /** The record kept in the room is the list of these times. */
  lemma {:induction false} FiringsRecorded(ss: seq<State>, es: seq<Event>, i: nat, r: RoomId)
    requires IsRun(ss, es) && i < |ss|
    ensures FiringTimes(ss, es, i, r) == if r in ss[i].rooms then ss[i].rooms[r].firings else []
  {
    if i > 0 {
      FiringsRecorded(ss, es, i - 1, r);
      RunFirings(ss, es, i - 1, r);
    }
  }

  ghost predicate FiringsMove(s: State, e: Event, s': State, r: RoomId) {
    && (r in s.rooms ==> r in s'.rooms && s'.rooms[r].created == s.rooms[r].created)
    && (r in s'.rooms && r !in s.rooms ==> s'.rooms[r].created == s.now)
    && (Fires(s, e, r) ==> r in s.rooms)
    && (r in s'.rooms ==>
          s'.rooms[r].firings == (if r in s.rooms then s.rooms[r].firings else [])
                                 + if Fires(s, e, r) then [s.now] else [])
  }

  lemma StepFirings(s: State, e: Event, r: RoomId)
    requires Agreement(s) && TimersSound(s) && Enabled(s, e)
    requires RoomsAdvance(s, Step(s, e))
    ensures FiringsMove(s, e, Step(s, e), r)
  {
    if Fires(s, e, r) {
      FireMovesOwn(s, e.timer);
    } else if !e.Tick? {
      StepMoves(s, e, r);
    }
  }

  lemma RunFirings(ss: seq<State>, es: seq<Event>, i: nat, r: RoomId)
    requires IsRun(ss, es) && i < |es|
    ensures FiringsMove(ss[i], es[i], ss[i + 1], r)
  {
    RunStep(ss, es, i);
    StepKeepsInv(ss[i], es[i]);
    StepFirings(ss[i], es[i], r);
  }

  /** A firing has its place among the times of all later ones. */
  lemma {:induction false} FiringPlace(ss: seq<State>, es: seq<Event>, i: nat, j: nat, r: RoomId)
    requires i < j <= |es| < |ss| && Fires(ss[i], es[i], r)
    ensures |FiringTimes(ss, es, i, r)| < |FiringTimes(ss, es, j, r)|
    ensures FiringTimes(ss, es, j, r)[|FiringTimes(ss, es, i, r)|] == ss[i].now
    decreases j
  {
    if j > i + 1 {
      FiringPlace(ss, es, i, j - 1, r);
    }
  }

  lemma ThreePlaces(ss: seq<State>, es: seq<Event>, i: nat, j: nat, k: nat, r: RoomId)
    requires i < j < k < |es| < |ss|
    requires Fires(ss[i], es[i], r) && Fires(ss[j], es[j], r) && Fires(ss[k], es[k], r)
    ensures |FiringTimes(ss, es, i, r)| + 2 <= |FiringTimes(ss, es, k, r)| < |FiringTimes(ss, es, k + 1, r)|
    ensures FiringTimes(ss, es, k + 1, r)[|FiringTimes(ss, es, i, r)|] == ss[i].now
    ensures FiringTimes(ss, es, k + 1, r)[|FiringTimes(ss, es, k, r)|] == ss[k].now
  {
    FiringPlace(ss, es, i, k + 1, r);
    FiringPlace(ss, es, i, j, r);
    FiringPlace(ss, es, j, k, r);
    FiringPlace(ss, es, k, k + 1, r);
  }

  lemma RecordedInClock(ss: seq<State>, es: seq<Event>, i: nat, r: RoomId)
    requires IsRun(ss, es) && i < |ss| && r in ss[i].rooms
    ensures ss[i].rooms[r].firings == FiringTimes(ss, es, i, r) && RoomClock(ss[i].rooms[r], ss[i].now)
  {
    FiringsRecorded(ss, es, i, r);
    RunKeepsInv(ss, es, i);
  }

  /** However late timers are handled, of any three firings of a room the last comes at least
      `EXPIRY_TIME` after the first. */
  lemma FiringsApart(ss: seq<State>, es: seq<Event>, i: nat, j: nat, k: nat, r: RoomId)
    requires IsRun(ss, es) && i < j < k < |es|
    requires Fires(ss[i], es[i], r) && Fires(ss[j], es[j], r) && Fires(ss[k], es[k], r)
    ensures ss[i].now + EXPIRY_TIME <= ss[k].now
  {
    ThreePlaces(ss, es, i, j, k, r);
    RunFirings(ss, es, k, r);
    RecordedInClock(ss, es, k + 1, r);
    SpreadOut(ss[k + 1].rooms[r], ss[k + 1].now, |FiringTimes(ss, es, i, r)|, |FiringTimes(ss, es, k, r)|);
  }

  lemma SpreadOut(room: Room, now: Time, p: nat, q: nat)
    requires RoomClock(room, now) && p + 2 <= q < |room.firings|
    ensures room.firings[p] + EXPIRY_TIME <= room.firings[q]
  {
    assert Floor(room, p + 2) <= room.firings[p + 2];
  }

  lemma {:induction false} CreatedWhenOpened(ss: seq<State>, es: seq<Event>, k: nat, i: nat, r: RoomId)
    requires IsRun(ss, es) && k < i < |ss| && r !in ss[k].rooms && r in ss[k + 1].rooms
    ensures r in ss[i].rooms && ss[i].rooms[r].created == ss[k].now
  {
    RunFirings(ss, es, i - 1, r);
    if i > k + 1 {
      CreatedWhenOpened(ss, es, k, i - 1, r);
    }
  }

  /** From the event that opened it on, a room causes at most two firings per `EXPIRY_TIME`, and at most
      one per text in its history. */
  lemma FiringsBounded(ss: seq<State>, es: seq<Event>, k: nat, i: nat, r: RoomId)
    requires IsRun(ss, es) && k < i < |ss| && r !in ss[k].rooms && r in ss[k + 1].rooms
    ensures (|FiringTimes(ss, es, i, r)| + 1) / 2 * EXPIRY_TIME <= ss[i].now - ss[k].now
    ensures r in ss[i].rooms && |FiringTimes(ss, es, i, r)| <= |ss[i].rooms[r].messages|
  {
    CreatedWhenOpened(ss, es, k, i, r);
    FiringsRecorded(ss, es, i, r);
    RunKeepsInv(ss, es, i);
    FiringCount(ss[i], r);
  }

  // ---------------------------------------------------------------- what a renewed timer waits for

  /** Whatever timer the room has sleeps, or will sleep, until the room's present expiry. */
  ghost predicate DueAtExpiry(s: State, r: RoomId) {
    && Live(s, r)
    && forall t :: t in s.timers && s.timers[t].room == r ==>
         s.timers[t].phase.Rearmed? || (s.timers[t].phase.Sleeping? && s.timers[t].phase.due == s.rooms[r].expiry)
  }

  lemma RenewedIsDueAtExpiry(s: State, t: TimerId)
    requires Agreement(s) && TimersSound(s) && Enabled(s, Expire(t))
    requires Live(Fire(s, t), s.timers[t].room)
    ensures DueAtExpiry(Fire(s, t), s.timers[t].room)
  {
    FireMovesOwn(s, t);
  }

  ghost predicate TimersStay(s: State, s': State, r: RoomId) {
    forall t :: t in s'.timers && s'.timers[t].room == r ==> t in s.timers && s'.timers[t] == s.timers[t]
  }

  lemma PerformTimers(s: State, c: ClientId, m: Message, order: seq<string>, command: Commands.Command, r: RoomId)
    requires Resolved(s) && FreshIds(s) && c in s.clients && r in s.rooms
    ensures TimersStay(s, Perform(s, c, m, order, command), r)
  {
  }

  lemma OthersTimers(s: State, e: Event, r: RoomId)
    requires Resolved(s) && FreshIds(s) && Enabled(s, e) && r in s.rooms && !Fires(s, e, r) && !e.Start?
    ensures TimersStay(s, Step(s, e), r)
  {
    match e
    case Incoming(c, m, order) => PerformTimers(s, c, m, order, Commands.Classify(m.line), r);
    case _ =>
  }

  lemma StaysDueAtExpiry(s: State, e: Event, r: RoomId)
    requires Agreement(s) && TimersSound(s) && Enabled(s, e) && DueAtExpiry(s, r)
    ensures Fires(s, e, r) ==> !Live(Step(s, e), r) && Touched(s, Step(s, e), r)
    ensures DueAtExpiry(Step(s, e), r) || Touched(s, Step(s, e), r)
  {
    StepClocks(s, e, r);
    if Fires(s, e, r) {
      FireMovesOwn(s, e.timer);
    } else if !e.Start? {
      OthersTimers(s, e, r);
    }
  }

  lemma {:induction false} UntouchedDueAtExpiry(ss: seq<State>, es: seq<Event>, i: nat, j: nat, r: RoomId)
    requires IsRun(ss, es) && i < j < |ss| && Fires(ss[i], es[i], r) && Live(ss[i + 1], r)
    requires forall k :: i < k < j ==> !Touched(ss[k], ss[k + 1], r)
    ensures DueAtExpiry(ss[j], r)
  {
    RunStep(ss, es, j - 1);
    if j == i + 1 {
      RenewedIsDueAtExpiry(ss[i], es[i].timer);
    } else {
      UntouchedDueAtExpiry(ss, es, i, j - 1, r);
      StaysDueAtExpiry(ss[j - 1], es[j - 1], r);
    }
  }

  /** Step number `j` of the run opened the room or added to its history. */
  ghost predicate TouchedAt(ss: seq<State>, j: nat, r: RoomId)
    requires j + 1 < |ss|
  {
    Touched(ss[j], ss[j + 1], r)
  }

  /** Every renewal is caused by activity: if a room outlives two firings of its timers, something was
      said in it between them. Without new activity the next firing deletes the room. */
  lemma RenewalNeedsActivity(ss: seq<State>, es: seq<Event>, i: nat, k: nat, r: RoomId)
    requires IsRun(ss, es) && i < k < |es|
    requires Fires(ss[i], es[i], r) && Live(ss[i + 1], r) && Fires(ss[k], es[k], r) && Live(ss[k + 1], r)
    ensures exists j :: i < j < k && TouchedAt(ss, j, r)
  {
    if forall j :: i < j < k ==> !TouchedAt(ss, j, r) {
      forall j | i < j < k ensures !Touched(ss[j], ss[j + 1], r) {
        assert !TouchedAt(ss, j, r);
      }
      UntouchedDueAtExpiry(ss, es, i, k, r);
      RunStep(ss, es, k);
      StaysDueAtExpiry(ss[k], es[k], r);
    }
  }

  /** In every state of every run a room is live if and only if it has a pending timer, and then it has
      exactly one. */
  lemma OneTimerInRun(ss: seq<State>, es: seq<Event>, i: nat, r: RoomId)
    requires IsRun(ss, es) && i < |ss|
    ensures Live(ss[i], r) <==> exists t :: t in ss[i].timers && ss[i].timers[t].room == r
    ensures var timers := ss[i].timers;
            forall t, u :: t in timers && u in timers && timers[t].room == timers[u].room ==> t == u
  {
    RunKeepsInv(ss, es, i);
    OneTimerPerRoom(ss[i], r);
  }

  /** If every timer has been started and none is due, a live room is past its expiry for less than the
      time by which its first timer was late; in particular, when first timers start at once, no expired
      room is left. */
  lemma ExpiredRoomsAreGone(ss: seq<State>, es: seq<Event>, i: nat, r: RoomId)
    requires IsRun(ss, es) && i < |ss| && Live(ss[i], r)
    requires forall t :: t in ss[i].timers ==> ss[i].timers[t].phase.Sleeping? && ss[i].now < ss[i].timers[t].phase.due
    ensures exists t :: t in ss[i].timers && ss[i].timers[t].room == r
              && 0 <= Lateness(ss[i].rooms[r], ss[i].timers[t])
              && ss[i].now < ss[i].rooms[r].expiry + Lateness(ss[i].rooms[r], ss[i].timers[t])
  {
    RunKeepsInv(ss, es, i);
    NothingOverdue(ss[i]);
    assert HasTimer(ss[i], r);
  }
}
