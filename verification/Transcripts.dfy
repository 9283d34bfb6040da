/** What each client has been sent: during a visit, exactly the history of the room visited. */
module Transcripts {
  import opened GoStrings
  import opened LobbyModel
  import opened Membership

  // ---------------------------------------------------------------- logs and transcripts of parts

  lemma {:induction false} LogConcat(a: seq<Sent>, b: seq<Sent>, c: ClientId)
    ensures Log(a + b, c) == Log(a, c) + Log(b, c)
  {
    if b == [] {
      assert a + b == a;
    } else {
      var n := |b| - 1;
      assert (a + b)[..|a + b| - 1] == a + b[..n];
      LogConcat(a, b[..n], c);
    }
  }

  lemma {:induction false} TranscriptConcat(a: seq<Delivery>, b: seq<Delivery>, visit: nat)
    ensures Transcript(a + b, visit) == Transcript(a, visit) + Transcript(b, visit)
  {
    if b == [] {
      assert a + b == a;
    } else {
      var n := |b| - 1;
      assert (a + b)[..|a + b| - 1] == a + b[..n];
      TranscriptConcat(a, b[..n], visit);
    }
  }

  lemma {:induction false} StreamLog(c: ClientId, ds: seq<Delivery>, x: ClientId)
    ensures Log(Stream(c, ds), x) == if x == c then ds else []
  {
    if ds != [] {
      StreamLog(c, ds[..|ds| - 1], x);
    }
  }

  /** A broadcast reaches a client exactly once if it is a member, and not at all otherwise. */
  lemma {:induction false} FanoutLog(clients: map<ClientId, Client>, r: RoomId, members: seq<ClientId>,
                                    text: Text, x: ClientId)
    requires Distinct(members)
    ensures Log(Fanout(clients, r, members, text), x)
            == if x in members then [FromRoom(r, VisitNumber(clients, x), text)] else []
  {
    if members != [] {
      var n := |members| - 1;
      var front, last := members[..n], members[n];
      FanoutLog(clients, r, front, text, x);
      assert last !in front;
      assert x in members <==> x in front || x == last;
      var sends := Fanout(clients, r, members, text);
      assert sends[..|sends| - 1] == Fanout(clients, r, front, text);
    }
  }

  lemma {:induction false} PrivateTranscript(texts: seq<Text>, visit: nat)
    ensures Transcript(Privately(texts), visit) == []
    ensures forall d :: d in Privately(texts) ==> d.Private?
  {
    if texts != [] {
      PrivateTranscript(texts[..|texts| - 1], visit);
    }
  }

  lemma {:induction false} TaggedTranscript(r: RoomId, u: nat, texts: seq<Text>, visit: nat)
    ensures Transcript(Tagged(r, u, texts), visit) == if u == visit then texts else []
    ensures forall d :: d in Tagged(r, u, texts) ==> d.FromRoom? && d.room == r && d.visit == u
  {
    if texts != [] {
      TaggedTranscript(r, u, texts[..|texts| - 1], visit);
    }
  }

  /** A visit none of whose texts has been sent has an empty transcript. */
  lemma {:induction false} NoTagNoTranscript(log: seq<Delivery>, visit: nat)
    requires forall d :: d in log && d.FromRoom? ==> d.visit != visit
    ensures Transcript(log, visit) == []
  {
    if log != [] {
      assert log[|log| - 1] in log;
      NoTagNoTranscript(log[..|log| - 1], visit);
    }
  }

  lemma {:induction false} UnaddressedLog(out: seq<Sent>, c: ClientId)
    requires forall i :: 0 <= i < |out| ==> out[i].to != c
    ensures Log(out, c) == []
  {
    if out != [] {
      UnaddressedLog(out[..|out| - 1], c);
    }
  }

  // ---------------------------------------------------------------- the invariant

  /** What client `c` has seen of the room during its visit number `v`. */
  ghost function Seen(s: State, c: ClientId, v: nat): seq<Text> {
    Transcript(Log(s.out, c), v)
  }

  /** Every room text carries the number of a visit made, and the room of that visit. */
  ghost predicate TagsMatch(visits: seq<RoomId>, log: seq<Delivery>) {
    forall d :: d in log && d.FromRoom? ==> 1 <= d.visit <= |visits| && visits[d.visit - 1] == d.room
  }

  /** Visit number `v` saw a prefix of the history of the room visited. */
  ghost predicate SawPrefix(s: State, c: ClientId, v: nat)
    requires c in s.clients && 1 <= v <= |s.clients[c].visits|
  {
    var r := s.clients[c].visits[v - 1];
    r in s.rooms && Seen(s, c, v) <= s.rooms[r].messages
  }

  /** The visit going on, if any, has seen the whole history. */
  ghost predicate SeesAll(s: State, c: ClientId)
    requires c in s.clients
  {
    var client := s.clients[c];
    client.room.Some? ==>
      && |client.visits| > 0
      && client.visits[|client.visits| - 1] == client.room.value
      && client.room.value in s.rooms
      && Seen(s, c, |client.visits|) == s.rooms[client.room.value].messages
  }

  /** If both visits were to the same room, the earlier one saw a prefix of what the later one saw. */
  ghost predicate Grew(s: State, c: ClientId, u: nat, v: nat)
    requires c in s.clients && 1 <= u < v <= |s.clients[c].visits|
  {
    s.clients[c].visits[u - 1] == s.clients[c].visits[v - 1] ==> Seen(s, c, u) <= Seen(s, c, v)
  }

  ghost predicate Faithful(s: State, c: ClientId)
    requires c in s.clients
  {
    && TagsMatch(s.clients[c].visits, Log(s.out, c))
    && SeesAll(s, c)
    && (forall v :: 1 <= v <= |s.clients[c].visits| ==> SawPrefix(s, c, v))
    && (forall u, v :: 1 <= u < v <= |s.clients[c].visits| ==> Grew(s, c, u, v))
  }

  ghost predicate Deliveries(s: State) {
    && (forall i :: 0 <= i < |s.out| ==> s.out[i].to in s.clients)
    && (forall c :: c in s.clients ==> Faithful(s, c))
  }

  // ---------------------------------------------------------------- effects on the logs

  lemma {:induction false} StreamTargets(c: ClientId, ds: seq<Delivery>)
    ensures forall i :: 0 <= i < |Stream(c, ds)| ==> Stream(c, ds)[i].to == c
  {
    if ds != [] {
      StreamTargets(c, ds[..|ds| - 1]);
    }
  }

  lemma {:induction false} FanoutTargets(clients: map<ClientId, Client>, r: RoomId, members: seq<ClientId>, text: Text)
    ensures |Fanout(clients, r, members, text)| == |members|
    ensures forall i :: 0 <= i < |members| ==> Fanout(clients, r, members, text)[i].to == members[i]
  {
    if members != [] {
      FanoutTargets(clients, r, members[..|members| - 1], text);
    }
  }

  lemma TellLog(s: State, c: ClientId, texts: seq<Text>, x: ClientId)
    ensures Log(Tell(s, c, texts).out, x) == Log(s.out, x) + if x == c then Privately(texts) else []
  {
    LogConcat(s.out, Stream(c, Privately(texts)), x);
    StreamLog(c, Privately(texts), x);
  }

  lemma BroadcastLog(s: State, r: RoomId, text: Text, x: ClientId)
    requires r in s.rooms && Distinct(s.rooms[r].members)
    ensures Log(Broadcast(s, r, text).out, x) == Log(s.out, x)
            + if x in s.rooms[r].members then [FromRoom(r, VisitNumber(s.clients, x), text)] else []
  {
    LogConcat(s.out, Fanout(s.clients, r, s.rooms[r].members, text), x);
    FanoutLog(s.clients, r, s.rooms[r].members, text, x);
  }

  lemma EnterLog(s: State, r: RoomId, c: ClientId, x: ClientId)
    requires r in s.rooms && c in s.clients
    ensures Log(Enter(s, r, c).out, x) == Log(s.out, x)
            + if x == c then Tagged(r, |s.clients[c].visits| + 1, s.rooms[r].messages) else []
  {
    var ds := Tagged(r, |s.clients[c].visits| + 1, s.rooms[r].messages);
    LogConcat(s.out, Stream(c, ds), x);
    StreamLog(c, ds, x);
  }

  // ---------------------------------------------------------------- single effects

  ghost predicate HistoriesExtend(s: State, s': State) {
    forall r :: r in s.rooms ==> r in s'.rooms && s.rooms[r].messages <= s'.rooms[r].messages
  }

  /** A client that saw nothing new stays faithful, unless its own room's history moved on. */
  lemma NothingNew(s: State, s': State, c: ClientId)
    requires c in s.clients && c in s'.clients && Faithful(s, c) && HistoriesExtend(s, s')
    requires s'.clients[c].visits == s.clients[c].visits
    requires TagsMatch(s'.clients[c].visits, Log(s'.out, c))
    requires forall v: nat :: Seen(s', c, v) == Seen(s, c, v)
    requires s'.clients[c].room.Some? ==>
               && s'.clients[c].room == s.clients[c].room
               && s.clients[c].room.value in s.rooms
               && s'.rooms[s.clients[c].room.value].messages == s.rooms[s.clients[c].room.value].messages
    ensures Faithful(s', c)
  {
    var n := |s.clients[c].visits|;
    forall v | 1 <= v <= n ensures SawPrefix(s', c, v) {
      assert SawPrefix(s, c, v);
    }
    forall u, v | 1 <= u < v <= n ensures Grew(s', c, u, v) {
      assert Grew(s, c, u, v);
    }
  }

  lemma TellDeliveries(s: State, c: ClientId, texts: seq<Text>)
    requires Deliveries(s) && c in s.clients
    ensures Deliveries(Tell(s, c, texts))
  {
    var s' := Tell(s, c, texts);
    StreamTargets(c, Privately(texts));
    forall x | x in s'.clients ensures Faithful(s', x) {
      TellLog(s, c, texts, x);
      PrivateTranscript(texts, 0);
      forall v: nat ensures Seen(s', x, v) == Seen(s, x, v) {
        TranscriptConcat(Log(s.out, x), if x == c then Privately(texts) else [], v);
        PrivateTranscript(texts, v);
      }
      NothingNew(s, s', x);
    }
  }

  lemma BroadcastDeliveries(s: State, r: RoomId, text: Text)
    requires Agreement(s) && Deliveries(s) && Live(s, r)
    ensures Deliveries(Broadcast(s, r, text))
  {
    var s' := Broadcast(s, r, text);
    FanoutTargets(s.clients, r, s.rooms[r].members, text);
    forall x | x in s'.clients ensures Faithful(s', x) {
      BroadcastLog(s, r, text, x);
      if x in s.rooms[r].members {
        MemberHears(s, r, text, x);
      } else {
        assert Log(s'.out, x) == Log(s.out, x);
        NothingNew(s, s', x);
      }
    }
  }

  lemma MemberHears(s: State, r: RoomId, text: Text, x: ClientId)
    requires Agreement(s) && Live(s, r) && x in s.rooms[r].members && Faithful(s, x)
    ensures Faithful(Broadcast(s, r, text), x)
  {
    BroadcastLog(s, r, text, x);
    HearText(s, Broadcast(s, r, text), r, text, x);
  }

  lemma TranscriptAppend(log: seq<Delivery>, r: RoomId, n: nat, text: Text, v: nat)
    ensures Transcript(log + [FromRoom(r, n, text)], v) == Transcript(log, v) + if v == n then [text] else []
  {
    var d := FromRoom(r, n, text);
    TranscriptConcat(log, [d], v);
    assert [d][..0] == [];
  }

  /** A member whose log and room both grow by the same text stays faithful. */
  lemma HearText(s: State, s': State, r: RoomId, text: Text, x: ClientId)
    requires x in s.clients && s'.clients == s.clients && s.clients[x].room == Some(r) && Faithful(s, x)
    requires r in s.rooms && r in s'.rooms && s'.rooms[r].messages == s.rooms[r].messages + [text]
    requires forall q :: q in s.rooms && q != r ==> q in s'.rooms && s'.rooms[q].messages == s.rooms[q].messages
    requires Log(s'.out, x) == Log(s.out, x) + [FromRoom(r, |s.clients[x].visits|, text)]
    ensures Faithful(s', x)
  {
    var n := |s.clients[x].visits|;
    forall v: nat ensures Seen(s', x, v) == Seen(s, x, v) + if v == n then [text] else [] {
      TranscriptAppend(Log(s.out, x), r, n, text, v);
    }
    assert TagsMatch(s'.clients[x].visits, Log(s'.out, x));
    assert SeesAll(s', x);
    forall v | 1 <= v <= n ensures SawPrefix(s', x, v) {
      assert SawPrefix(s, x, v);
    }
    forall u, v | 1 <= u < v <= n ensures Grew(s', x, u, v) {
      HearGrew(s, s', text, x, u, v);
    }
  }

  lemma HearGrew(s: State, s': State, text: Text, x: ClientId, u: nat, v: nat)
    requires x in s.clients && s'.clients == s.clients && 1 <= u < v <= |s.clients[x].visits| && Grew(s, x, u, v)
    requires Seen(s', x, u) == Seen(s, x, u) && Seen(s, x, v) <= Seen(s', x, v)
    ensures Grew(s', x, u, v)
  {
  }

  lemma EnterDeliveries(s: State, r: RoomId, c: ClientId)
    requires Deliveries(s) && r in s.rooms && c in s.clients
    ensures Deliveries(Enter(s, r, c))
  {
    var s' := Enter(s, r, c);
    StreamTargets(c, Tagged(r, |s.clients[c].visits| + 1, s.rooms[r].messages));
    forall x | x in s'.clients ensures Faithful(s', x) {
      EnterLog(s, r, c, x);
      if x == c {
        EntrantSeesAll(s, r, c);
      } else {
        assert Log(s'.out, x) == Log(s.out, x);
        NothingNew(s, s', x);
      }
    }
  }

  lemma EntrantSeesAll(s: State, r: RoomId, c: ClientId)
    requires r in s.rooms && c in s.clients && Faithful(s, c)
    ensures Faithful(Enter(s, r, c), c)
  {
    var s' := Enter(s, r, c);
    EnterLog(s, r, c, c);
    var visits := s.clients[c].visits;
    var n := |visits| + 1;
    var messages := s.rooms[r].messages;
    NoTagNoTranscript(Log(s.out, c), n);
    forall v: nat ensures Seen(s', c, v) == Seen(s, c, v) + if v == n then messages else [] {
      TranscriptConcat(Log(s.out, c), Tagged(r, n, messages), v);
      TaggedTranscript(r, n, messages, v);
    }
    TaggedTranscript(r, n, messages, n);
    assert TagsMatch(visits + [r], Log(s'.out, c));
    forall v | 1 <= v <= n ensures SawPrefix(s', c, v) {
      if v < n { assert SawPrefix(s, c, v); }
    }
    forall u, v | 1 <= u < v <= n ensures Grew(s', c, u, v) {
      assert SawPrefix(s, c, u);
      if v < n { assert Grew(s, c, u, v); }
    }
  }

  /** Effects that leave the logs and histories alone and at most clear back-pointers. */
  lemma QuietDeliveries(s: State, s': State)
    requires Deliveries(s)
    requires s'.out == s.out && s'.clients.Keys == s.clients.Keys && s.rooms.Keys <= s'.rooms.Keys
    requires forall r :: r in s.rooms ==> s'.rooms[r].messages == s.rooms[r].messages
    requires forall c :: c in s.clients ==>
               && s'.clients[c].visits == s.clients[c].visits
               && (s'.clients[c].room == s.clients[c].room || s'.clients[c].room == None)
    ensures Deliveries(s')
  {
    forall c | c in s'.clients ensures Faithful(s', c) {
      NothingNew(s, s', c);
    }
  }

  lemma NewClientDeliveries(s: State, c: ClientId, client: Client)
    requires Deliveries(s) && c !in s.clients
    requires client.visits == [] && client.room.None?
    ensures Deliveries(s.(clients := s.clients[c := client]))
  {
    var s' := s.(clients := s.clients[c := client]);
    UnaddressedLog(s.out, c);
    forall x | x in s'.clients && x != c ensures Faithful(s', x) {
      NothingNew(s, s', x);
    }
  }

  lemma DissolveDeliveries(s: State, r: RoomId)
    requires Agreement(s) && Deliveries(s) && Live(s, r)
    ensures Deliveries(Dissolve(s, r))
  {
    BroadcastDeliveries(s, r, Inactive);
    QuietDeliveries(Broadcast(s, r, Inactive), Dissolve(s, r));
  }

  // ---------------------------------------------------------------- consequences

  /** In every reachable state each member of a live room has seen, during its current visit, exactly
      the room's history; so all members have seen the same, whenever they joined. */
  lemma TranscriptIsHistory(s: State, r: RoomId, c: ClientId, d: ClientId)
    requires Agreement(s) && Deliveries(s) && Live(s, r)
    requires c in s.rooms[r].members && d in s.rooms[r].members
    ensures Seen(s, c, |s.clients[c].visits|) == s.rooms[r].messages
    ensures Seen(s, c, |s.clients[c].visits|) == Seen(s, d, |s.clients[d].visits|)
  {
    assert Faithful(s, c) && Faithful(s, d);
  }
}
