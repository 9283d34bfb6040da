/** When rooms die: expiry times, the self-renewing timer of each room, and how often it fires. */
module Expiry {
  import opened LobbyModel
  import opened Membership

  // ---------------------------------------------------------------- the invariant

  /** The time of the last history entry, or of the creation of a room without history. */
  function LastActivity(room: Room): Time {
    if room.stamps == [] then room.created else room.stamps[|room.stamps| - 1]
  }

  /** The earliest time at which firing number `k` of a room can be handled. */
  function Floor(room: Room, k: nat): Time
    requires k <= |room.firings| + 1
  {
    EXPIRY_TIME + if k < 2 then room.created else room.firings[k - 2]
  }

  ghost predicate RoomClock(room: Room, now: Time) {
    && |room.stamps| == |room.messages|
    && room.created <= now
    && (forall i :: 0 <= i < |room.stamps| ==> room.created <= room.stamps[i] <= LastActivity(room) <= now)
    && room.expiry == EXPIRY_TIME + LastActivity(room)
    && |room.firings| <= |room.messages|
    && (forall k :: 0 <= k < |room.firings| ==> Floor(room, k) <= room.firings[k] <= now)
    && (forall j, k :: 0 <= j < k < |room.firings| ==> room.firings[j] < room.firings[k])
  }

  ghost predicate TimerClock(room: Room, phase: Phase, now: Time) {
    var n := |room.firings|;
    match phase
    case Fresh => n == 0
    case Rearmed => n > 0 && Floor(room, n) <= room.expiry && room.firings[n - 1] < room.expiry
    case Sleeping(due, armed) =>
      && room.created <= armed <= now
      && Floor(room, n) <= due
      && (n == 0 ==> due == armed + EXPIRY_TIME)
      && (n > 0 ==> due <= room.expiry && room.firings[n - 1] < due && room.firings[n - 1] <= armed)
      && (due < room.expiry ==> room.stamps != [] && armed <= LastActivity(room) && n < |room.messages|)
  }

  ghost predicate HasTimer(s: State, r: RoomId) {
    exists t :: t in s.timers && s.timers[t].room == r
  }

  /** Every timer belongs to a live room, and no two to the same one. */
  ghost predicate TimersSound(s: State) {
    && (forall t :: t in s.timers ==>
          Live(s, s.timers[t].room) && TimerClock(s.rooms[s.timers[t].room], s.timers[t].phase, s.now))
    && (forall t, u :: t in s.timers && u in s.timers && s.timers[t].room == s.timers[u].room ==> t == u)
  }

  ghost predicate Timing(s: State) {
    && (forall r :: r in s.rooms ==> RoomClock(s.rooms[r], s.now))
    && TimersSound(s)
    && (forall r :: Live(s, r) ==> HasTimer(s, r))
  }

  // ---------------------------------------------------------------- single effects

  /** A broadcast moves the expiry forward and keeps every clock in order. */
  lemma BroadcastClock(room: Room, text: Text, now: Time)
    requires RoomClock(room, now)
    ensures var room' := room.(expiry := now + EXPIRY_TIME,
                              messages := room.messages + [text],
                              stamps := room.stamps + [now]);
            && RoomClock(room', now)
            && room.expiry <= room'.expiry
            && forall phase :: TimerClock(room, phase, now) ==> TimerClock(room', phase, now)
  {
    var room' := room.(expiry := now + EXPIRY_TIME, messages := room.messages + [text], stamps := room.stamps + [now]);
    assert LastActivity(room') == now;
    assert LastActivity(room) <= now;
    assert forall k :: 0 <= k <= |room.firings| ==> Floor(room', k) == Floor(room, k);
    forall i | 0 <= i < |room'.stamps| ensures room'.created <= room'.stamps[i] <= now {
      if i < |room.stamps| {
        assert room'.stamps[i] == room.stamps[i];
      }
    }
    forall phase | TimerClock(room, phase, now) ensures TimerClock(room', phase, now) {
      TouchedTimerClock(room, room', phase, now);
    }
  }

  /** Activity in the room leaves its timer's clock in order. */
  lemma TouchedTimerClock(room: Room, room': Room, phase: Phase, now: Time)
    requires RoomClock(room, now) && TimerClock(room, phase, now)
    requires room'.created == room.created && room'.firings == room.firings && room.expiry <= room'.expiry
    requires room'.stamps != [] && LastActivity(room') == now && |room'.messages| == |room.messages| + 1
    ensures TimerClock(room', phase, now)
  {
    assert Floor(room', |room.firings|) == Floor(room, |room.firings|);
  }

  lemma BroadcastTiming(s: State, r: RoomId, text: Text)
    requires Timing(s) && r in s.rooms
    ensures Timing(Broadcast(s, r, text))
  {
    var s' := Broadcast(s, r, text);
    BroadcastClock(s.rooms[r], text, s.now);
    assert forall q :: Live(s', q) <==> Live(s, q);
    TimersKept(s, s');
  }

  /** Effects that touch no room's clock and no timer. */
  lemma QuietTiming(s: State, s': State)
    requires Timing(s)
    requires s'.timers == s.timers && s'.names == s.names && s'.now == s.now
    requires s'.rooms.Keys == s.rooms.Keys
    requires forall r :: r in s.rooms ==> s'.rooms[r] == s.rooms[r].(members := s'.rooms[r].members)
    ensures Timing(s')
  {
    assert forall q :: Live(s', q) <==> Live(s, q);
    forall r | r in s.rooms
      ensures RoomClock(s'.rooms[r], s.now)
      ensures forall phase :: TimerClock(s.rooms[r], phase, s.now) ==> TimerClock(s'.rooms[r], phase, s.now)
    {
      MembersIrrelevant(s.rooms[r], s'.rooms[r].members, s.now);
    }
    TimersKept(s, s');
  }

  lemma MembersIrrelevant(room: Room, members: seq<ClientId>, now: Time)
    requires RoomClock(room, now)
    ensures RoomClock(room.(members := members), now)
    ensures forall phase :: TimerClock(room, phase, now) ==> TimerClock(room.(members := members), phase, now)
  {
    var room' := room.(members := members);
    forall k | 0 <= k < |room.firings| ensures Floor(room', k) <= room'.firings[k] <= now {
      assert Floor(room', k) == Floor(room, k);
    }
    forall phase | TimerClock(room, phase, now) ensures TimerClock(room', phase, now) {
      assert Floor(room', |room.firings|) == Floor(room, |room.firings|);
    }
  }

  lemma TimersKept(s: State, s': State)
    requires s'.timers == s.timers
    requires forall q :: Live(s', q) <==> Live(s, q)
    requires forall r :: Live(s, r) ==> HasTimer(s, r)
    ensures forall r :: Live(s', r) ==> HasTimer(s', r)
  {
    forall r | Live(s', r) ensures HasTimer(s', r) {
      assert HasTimer(s, r);
      var t :| t in s.timers && s.timers[t].room == r;
      assert t in s'.timers && s'.timers[t].room == r;
    }
  }

  /** The timers of all rooms but `r` are as before, and those rooms are untouched. */
  ghost predicate OthersKept(s: State, s': State, r: RoomId) {
    && s'.now == s.now
    && (forall q :: q in s.rooms && q != r ==> q in s'.rooms && s'.rooms[q] == s.rooms[q])
    && (forall q :: q != r ==> (Live(s', q) <==> Live(s, q)))
    && (forall u :: u in s.timers && s.timers[u].room != r ==> u in s'.timers && s'.timers[u] == s.timers[u])
  }

  lemma TimerRenewed(s: State, s': State, r: RoomId, n: TimerId)
    requires TimersSound(s) && OthersKept(s, s', r) && n !in s.timers
    requires forall u :: u in s'.timers ==> u == n || (u in s.timers && s.timers[u].room != r)
    requires n in s'.timers && s'.timers[n].room == r
    requires Live(s', r) && TimerClock(s'.rooms[r], s'.timers[n].phase, s.now)
    ensures TimersSound(s')
  {
  }

  lemma TimerDropped(s: State, s': State, r: RoomId)
    requires TimersSound(s) && OthersKept(s, s', r)
    requires forall u :: u in s'.timers ==> u in s.timers && s.timers[u].room != r
    ensures TimersSound(s')
  {
  }

  lemma OthersHaveTimers(s: State, s': State, r: RoomId)
    requires OthersKept(s, s', r)
    requires forall q :: Live(s, q) ==> HasTimer(s, q)
    ensures forall q :: Live(s', q) && q != r ==> HasTimer(s', q)
  {
    forall q | Live(s', q) && q != r ensures HasTimer(s', q) {
      assert HasTimer(s, q);
      var u :| u in s.timers && s.timers[u].room == q;
      assert u in s'.timers && s'.timers[u].room == q;
    }
  }

  lemma NewRoomClock(name: string, now: Time)
    ensures var room := Room(name, [], [], now + EXPIRY_TIME, now, [], []);
            RoomClock(room, now) && TimerClock(room, Fresh, now)
  {
  }

  lemma OpenRoomTiming(s: State, name: string)
    requires Agreement(s) && Timing(s) && name !in s.names
    ensures Timing(OpenRoom(s, name))
  {
    OpenRoomLive(s, name);
    OpenRoomTimers(s, name);
  }

  lemma OpenRoomTimers(s: State, name: string)
    requires Resolved(s) && FreshIds(s) && Timing(s)
    requires forall q :: Live(OpenRoom(s, name), q) <==> Live(s, q) || q == s.nextRoom
    ensures Timing(OpenRoom(s, name))
  {
    var s' := OpenRoom(s, name);
    var r := s.nextRoom;
    NewRoomClock(name, s.now);
    assert OthersKept(s, s', r);
    TimerRenewed(s, s', r, s.nextTimer);
    OthersHaveTimers(s, s', r);
    assert HasTimer(s', r) by {
      assert s'.timers[s.nextTimer].room == r;
    }
  }

  lemma StartTimerTiming(s: State, t: TimerId)
    requires Resolved(s) && Timing(s) && t in s.timers && !s.timers[t].phase.Sleeping?
    ensures Timing(StartTimer(s, t))
  {
    StartTimerSound(s, t);
    StartTimerKeepsTimers(s, t);
  }

  lemma StartTimerSound(s: State, t: TimerId)
    requires Resolved(s) && TimersSound(s) && t in s.timers && !s.timers[t].phase.Sleeping?
    requires RoomClock(s.rooms[s.timers[t].room], s.now)
    ensures TimersSound(StartTimer(s, t))
  {
    assert forall q :: Live(StartTimer(s, t), q) <==> Live(s, q);
  }

  lemma StartTimerKeepsTimers(s: State, t: TimerId)
    requires Resolved(s) && t in s.timers
    requires forall r :: Live(s, r) ==> HasTimer(s, r)
    ensures forall r :: Live(StartTimer(s, t), r) ==> HasTimer(StartTimer(s, t), r)
  {
    var s' := StartTimer(s, t);
    assert forall q :: Live(s', q) <==> Live(s, q);
    forall r | Live(s', r) ensures HasTimer(s', r) {
      assert HasTimer(s, r);
      var u :| u in s.timers && s.timers[u].room == r;
      assert u in s'.timers && s'.timers[u].room == r;
    }
  }

  lemma TickTiming(s: State, time: Time)
    requires Timing(s) && s.now <= time
    ensures Timing(s.(now := time))
  {
    var s' := s.(now := time);
    assert forall q :: Live(s', q) <==> Live(s, q);
    TimersKept(s, s');
  }

  // ---------------------------------------------------------------- firings

  /** The time of the handling joins the record of a room that was touched at that very time. */
  lemma FiringClock(room: Room, now: Time)
    requires RoomClock(room, now)
    requires |room.firings| < |room.messages| && Floor(room, |room.firings|) <= now
    requires room.firings != [] ==> room.firings[|room.firings| - 1] < now
    ensures RoomClock(room.(firings := room.firings + [now]), now)
  {
    var room' := room.(firings := room.firings + [now]);
    forall k | 0 <= k <= |room.firings| ensures Floor(room', k) == Floor(room, k) {
    }
    forall j, k | 0 <= j < k < |room'.firings| ensures room'.firings[j] < room'.firings[k] {
      var last := |room.firings| - 1;
      if k == |room.firings| && j < last {
        assert room.firings[j] < room.firings[last];
      }
    }
  }

  /** A timer that fires after its room's expiry was pushed back leaves the clocks in order. */
  lemma RearmClock(room: Room, due: Time, armed: Time, now: Time)
    requires RoomClock(room, now) && TimerClock(room, Sleeping(due, armed), now)
    requires due <= now < room.expiry
    ensures RoomClock(room.(firings := room.firings + [now]), now)
    ensures TimerClock(room.(firings := room.firings + [now]), Rearmed, now)
  {
    FiringClock(room, now);
    var room' := room.(firings := room.firings + [now]);
    var n := |room.firings|;
    assert n > 0 ==> Floor(room', n + 1) == EXPIRY_TIME + room.firings[n - 1];
  }

  lemma DissolveClock(room: Room, due: Time, armed: Time, now: Time)
    requires RoomClock(room, now) && TimerClock(room, Sleeping(due, armed), now)
    requires due <= now
    ensures RoomClock(room.(expiry := now + EXPIRY_TIME, messages := room.messages + [Inactive],
                            stamps := room.stamps + [now], firings := room.firings + [now]), now)
  {
    BroadcastClock(room, Inactive, now);
    var room' := room.(expiry := now + EXPIRY_TIME, messages := room.messages + [Inactive],
                      stamps := room.stamps + [now]);
    assert Floor(room', |room.firings|) == Floor(room, |room.firings|);
    FiringClock(room', now);
  }

  lemma FireTiming(s: State, t: TimerId)
    requires Agreement(s) && Timing(s) && Enabled(s, Expire(t))
    ensures Timing(Fire(s, t))
  {
    if s.rooms[s.timers[t].room].expiry > s.now {
      RearmTiming(s, t);
    } else {
      DissolveTiming(s, t);
    }
  }

  lemma RearmTiming(s: State, t: TimerId)
    requires Resolved(s) && NameMap(s) && FreshIds(s) && Timing(s) && Enabled(s, Expire(t))
    requires s.rooms[s.timers[t].room].expiry > s.now
    ensures Timing(Fire(s, t))
  {
    var phase := s.timers[t].phase;
    RearmClock(s.rooms[s.timers[t].room], phase.due, phase.armed, s.now);
    RearmRoom(s, t);
  }

  lemma DissolveTiming(s: State, t: TimerId)
    requires Resolved(s) && NameMap(s) && FreshIds(s) && Timing(s) && Enabled(s, Expire(t))
    requires s.rooms[s.timers[t].room].expiry <= s.now
    ensures Timing(Fire(s, t))
  {
    var phase := s.timers[t].phase;
    DissolveClock(s.rooms[s.timers[t].room], phase.due, phase.armed, s.now);
    DissolveRoom(s, t);
  }

  /** What a firing leaves alone, and whether its room survives. */
  lemma FireKeepsOthers(s: State, t: TimerId)
    requires Resolved(s) && NameMap(s) && FreshIds(s) && t in s.timers && Live(s, s.timers[t].room)
    requires forall u :: u in s.timers && s.timers[u].room == s.timers[t].room ==> u == t
    ensures OthersKept(s, Fire(s, t), s.timers[t].room)
    ensures Fire(s, t).rooms.Keys == s.rooms.Keys
    ensures Live(Fire(s, t), s.timers[t].room) <==> s.rooms[s.timers[t].room].expiry > s.now
  {
    var r := s.timers[t].room;
    var s' := Fire(s, t);
    forall q | q in s.rooms && q != r ensures s'.rooms[q] == s.rooms[q] {
    }
    forall q | q != r ensures Live(s', q) <==> Live(s, q) {
    }
  }

  lemma RearmRoom(s: State, t: TimerId)
    requires Resolved(s) && NameMap(s) && FreshIds(s) && Timing(s) && t in s.timers
    requires var r := s.timers[t].room;
             && s.rooms[r].expiry > s.now
             && var room' := s.rooms[r].(firings := s.rooms[r].firings + [s.now]);
             RoomClock(room', s.now) && TimerClock(room', Rearmed, s.now)
    ensures Timing(Fire(s, t))
  {
    var r := s.timers[t].room;
    var s' := Fire(s, t);
    assert s' == Rearm(s.(timers := s.timers - {t}), r);
    FireKeepsOthers(s, t);
    assert s'.timers == (s.timers - {t})[s.nextTimer := Timer(r, Rearmed)];
    assert s'.rooms[r] == s.rooms[r].(firings := s.rooms[r].firings + [s.now]);
    RoomRenewed(s, s', r, s.nextTimer);
  }

  lemma RoomRenewed(s: State, s': State, r: RoomId, n: TimerId)
    requires Timing(s) && OthersKept(s, s', r) && s'.rooms.Keys == s.rooms.Keys && n !in s.timers
    requires forall u :: u in s'.timers ==> u == n || (u in s.timers && s.timers[u].room != r)
    requires n in s'.timers && s'.timers[n].room == r && Live(s', r)
    requires RoomClock(s'.rooms[r], s'.now) && TimerClock(s'.rooms[r], s'.timers[n].phase, s.now)
    ensures Timing(s')
  {
    TimerRenewed(s, s', r, n);
    OthersHaveTimers(s, s', r);
    assert HasTimer(s', r);
  }

  lemma DissolveRoom(s: State, t: TimerId)
    requires Resolved(s) && NameMap(s) && FreshIds(s) && Timing(s) && t in s.timers
    requires var r := s.timers[t].room;
             s.rooms[r].expiry <= s.now && RoomClock(Fire(s, t).rooms[r], s.now)
    ensures Timing(Fire(s, t))
  {
    var r := s.timers[t].room;
    var s' := Fire(s, t);
    FireKeepsOthers(s, t);
    assert s'.timers == s.timers - {t};
    RoomGone(s, s', r);
  }

  lemma RoomGone(s: State, s': State, r: RoomId)
    requires Timing(s) && OthersKept(s, s', r) && s'.rooms.Keys == s.rooms.Keys
    requires forall u :: u in s'.timers ==> u in s.timers && s.timers[u].room != r
    requires r in s'.rooms && RoomClock(s'.rooms[r], s'.now) && !Live(s', r)
    ensures Timing(s')
  {
    TimerDropped(s, s', r);
    OthersHaveTimers(s, s', r);
  }

  // ---------------------------------------------------------------- consequences

  /** A live room has exactly one timer, a dead room none. */
  lemma OneTimerPerRoom(s: State, r: RoomId)
    requires Timing(s)
    ensures Live(s, r) <==> exists t :: t in s.timers && s.timers[t].room == r
    ensures Live(s, r) ==>
              exists t :: t in s.timers && s.timers[t].room == r &&
                forall u :: u in s.timers && s.timers[u].room == r ==> u == t
  {
    if Live(s, r) {
      assert HasTimer(s, r);
    }
  }

  /** A firing removes at most the one name that leads to its room, and touches no other room, whatever
      names have been used again. */
  lemma FiringRemovesOnlyItsRoom(s: State, t: TimerId, q: RoomId)
    requires Agreement(s) && Timing(s) && Enabled(s, Expire(t))
    requires q in s.rooms && q != s.timers[t].room
    ensures q in Fire(s, t).rooms && Fire(s, t).rooms[q] == s.rooms[q]
    ensures Live(Fire(s, t), q) <==> Live(s, q)
    ensures Fire(s, t).names ==
            if Live(Fire(s, t), s.timers[t].room) then s.names else s.names - {s.rooms[s.timers[t].room].name}
  {
    FireKeepsOthers(s, t);
  }

  /** How long after the room's creation its first timer began to sleep; later timers are never late. */
  function Lateness(room: Room, timer: Timer): Time
    requires timer.phase.Sleeping?
  {
    if room.firings == [] then timer.phase.armed - room.created else 0
  }

  /** If every timer has been started and none is due, no expired room is left, but for one whose first
      timer was started late, and that for no longer than it was late. */
  lemma NothingOverdue(s: State)
    requires Timing(s)
    requires forall t :: t in s.timers ==> s.timers[t].phase.Sleeping? && s.now < s.timers[t].phase.due
    ensures forall t :: t in s.timers ==>
              var room := s.rooms[s.timers[t].room];
              0 <= Lateness(room, s.timers[t]) && s.now < room.expiry + Lateness(room, s.timers[t])
    ensures (forall t :: t in s.timers ==> Lateness(s.rooms[s.timers[t].room], s.timers[t]) == 0)
            ==> forall r :: Live(s, r) ==> s.now < s.rooms[r].expiry
  {
    forall t | t in s.timers
      ensures var room := s.rooms[s.timers[t].room];
              0 <= Lateness(room, s.timers[t]) && s.now < room.expiry + Lateness(room, s.timers[t])
    {
      assert RoomClock(s.rooms[s.timers[t].room], s.now);
    }
    if forall t :: t in s.timers ==> Lateness(s.rooms[s.timers[t].room], s.timers[t]) == 0 {
      forall r | Live(s, r) ensures s.now < s.rooms[r].expiry {
        assert HasTimer(s, r);
      }
    }
  }

  predicate Expired(room: Room, time: Time) {
    room.expiry <= time
  }

  /** A sleeping timer is due no later than its room expires, so that the room cannot outstay its expiry
      before the timer goes off, exactly unless this is the room's first timer and it was started after
      the last activity. */
  lemma PromptIff(s: State, t: TimerId)
    requires Timing(s) && t in s.timers && s.timers[t].phase.Sleeping? && s.now < s.timers[t].phase.due
    ensures var room := s.rooms[s.timers[t].room];
            (forall time :: s.now <= time < s.timers[t].phase.due ==> !Expired(room, time))
            <==> room.firings != [] || s.timers[t].phase.armed <= LastActivity(room)
  {
    var room, due := s.rooms[s.timers[t].room], s.timers[t].phase.due;
    assert RoomClock(room, s.now) && TimerClock(room, s.timers[t].phase, s.now);
    assert due <= room.expiry <==> room.firings != [] || s.timers[t].phase.armed <= LastActivity(room);
    if room.expiry < due {
      var time := if s.now < room.expiry then room.expiry else s.now;
      assert s.now <= time < due && Expired(room, time);
    }
  }

  function Periods(m: nat): Time {
    if m == 0 then 0 else Periods(m - 1) + EXPIRY_TIME
  }

  lemma {:induction false} PeriodsProduct(m: nat)
    ensures Periods(m) == m * EXPIRY_TIME
  {
    if m > 0 {
      PeriodsProduct(m - 1);
    }
  }

  lemma {:induction false} FiringFloor(room: Room, now: Time, m: nat, k: nat)
    requires RoomClock(room, now) && 2 * m <= k <= 2 * m + 1 && k < |room.firings|
    ensures room.created + Periods(m + 1) <= room.firings[k]
    decreases m
  {
    assert Floor(room, k) <= room.firings[k];
    if m > 0 {
      FiringFloor(room, now, m - 1, k - 2);
    }
  }

  /** A room's timer fires at most twice per `EXPIRY_TIME` of the room's age, and never more often than
      texts were broadcast in it (its deletion notice included). */
  lemma FiringCount(s: State, r: RoomId)
    requires Timing(s) && r in s.rooms
    ensures (|s.rooms[r].firings| + 1) / 2 * EXPIRY_TIME <= s.now - s.rooms[r].created
    ensures |s.rooms[r].firings| <= |s.rooms[r].messages|
  {
    assert RoomClock(s.rooms[r], s.now);
    var n := |s.rooms[r].firings|;
    PeriodsProduct((n + 1) / 2);
    if n > 0 {
      FiringFloor(s.rooms[r], s.now, (n - 1) / 2, n - 1);
    }
  }
}
