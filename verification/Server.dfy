/** The objects of the server: clients, chat rooms and the lobby, linked by pointers and updated in
    place. Every method is proved to do to the objects what the lobby model does to its state. */
module Server {
  import opened GoStrings
  import opened Slices
  import Commands
  import M = LobbyModel
  import opened Membership
  import opened Invariant
  import Runs

  /** What the Go runtime and the network provide: the clock, the channels' traffic in the order in
      which the lobby goroutine produces it, the sleeping goroutines, and fresh identities. */
  class Runtime {
    var now: M.Time
    var out: seq<M.Sent>
    var timers: map<M.TimerId, M.Timer>
    var nextTimer: M.TimerId
    var nextRoom: M.RoomId

    constructor (now: M.Time)
      ensures this.now == now && out == [] && timers == map[] && nextTimer == 0 && nextRoom == 0
    {
      this.now := now;
      out, timers, nextTimer, nextRoom := [], map[], 0, 0;
    }
  }

  class Client {
    const id: M.ClientId
    var name: string
    var chatRoom: ChatRoom?
    var hungUp: bool
    var visits: seq<M.RoomId>
    ghost var link: M.Link

    ghost function Abs(): M.Client
      reads this
    {
      M.Client(name, if chatRoom == null then None else Some(chatRoom.id), visits, link, hungUp)
    }

    constructor (id: M.ClientId)
      ensures this.id == id && name == M.CLIENT_NAME && chatRoom == null && visits == [] && !hungUp
    {
      this.id := id;
      name, chatRoom, hungUp := M.CLIENT_NAME, null, false;
      visits, link := [], M.Refused;
    }

    /** A send on the outgoing channel, which must not be closed. */
    method Send(rt: Runtime, what: M.Delivery)
      requires link != M.Detached
      modifies rt`out
      ensures rt.out == old(rt.out) + [M.Sent(id, what)]
    {
      rt.out := rt.out + [M.Sent(id, what)];
    }

    /** Several private texts in a row. */
    method Tell(rt: Runtime, texts: seq<M.Text>)
      requires link != M.Detached
      modifies rt`out
      ensures rt.out == old(rt.out) + M.Stream(id, M.Privately(texts))
    {
      for i := 0 to |texts|
        invariant rt.out == old(rt.out) + M.Stream(id, M.Privately(texts[..i]))
      {
        StreamOneMore(id, texts, i);
        Send(rt, M.Private(texts[i]));
      }
      assert texts[..|texts|] == texts;
    }

    method Quit()
      modifies this`hungUp
      ensures hungUp
    {
      hungUp := true;
    }
  }

  function Ids(clients: seq<Client>): seq<M.ClientId> {
    seq(|clients|, i requires 0 <= i < |clients| => clients[i].id)
  }

  class ChatRoom {
    const id: M.RoomId
    const name: string
    var clients: Slice<Client>
    ghost var list: seq<Client> // the elements of `clients`
    var messages: seq<M.Text>
    var expiry: M.Time
    ghost const created: M.Time
    ghost var stamps: seq<M.Time>
    ghost var firings: seq<M.Time>

    ghost function Abs(): M.Room
      reads this
    {
      M.Room(name, Ids(list), messages, expiry, created, stamps, firings)
    }

    constructor (id: M.RoomId, name: string, now: M.Time)
      ensures this.id == id
      ensures Abs() == M.Room(name, [], [], now + M.EXPIRY_TIME, now, [], []) && list == []
      ensures Holds(clients, list) && fresh(clients.arr)
    {
      this.id, this.name := id, name;
      var arr := new Client[0];
      clients := Slice(arr, 0);
      list := [];
      messages := [];
      expiry := now + M.EXPIRY_TIME;
      created, stamps, firings := now, [], [];
    }

    /** The room is one of the lobby's, and its members' channels are open. */
    ghost predicate In(lobby: Lobby)
      reads lobby, this, list
    {
      id in lobby.places && lobby.places[id] == this && forall c :: c in list ==> c.link != M.Detached
    }

    /** The loop of `Broadcast`. */
    method Notify(rt: Runtime, text: M.Text)
      requires Holds(clients, list)
      requires forall c :: c in list ==> c.link != M.Detached
      modifies rt`out
      ensures rt.out == old(rt.out) + Notices(list, id, text)
    {
      for i := 0 to clients.len
        invariant rt.out == old(rt.out) + Notices(list[..i], id, text)
      {
        var client := clients.arr[i];
        assert list[..i + 1][..i] == list[..i];
        assert list[i] == client && client in list;
        client.Send(rt, M.FromRoom(id, |client.visits|, text));
      }
      assert list[..|list|] == list;
    }

    method Broadcast(rt: Runtime, text: M.Text, ghost lobby: Lobby)
      requires rt == lobby.rt && lobby.Registered() && lobby.Backed() && In(lobby)
      modifies this`expiry, this`messages, this`stamps, rt`out
      ensures lobby.SameObjects()
      ensures lobby.Registered() && lobby.Backed()
      ensures lobby.Abs() == M.Broadcast(old(lobby.Abs()), id, text)
    {
      Record(rt, text, lobby);
      Proclaim(rt, text, lobby);
    }

    /** The text becomes part of the history, and the expiry moves. */
    method Record(rt: Runtime, text: M.Text, ghost lobby: Lobby)
      requires rt == lobby.rt && lobby.Registered() && lobby.Backed() && lobby.Has(this)
      modifies this`expiry, this`messages, this`stamps
      ensures lobby.Registered() && lobby.Backed()
      ensures var s := old(lobby.Abs());
              var room := s.rooms[id];
              lobby.Abs() == s.(rooms := s.rooms[id := room.(expiry := s.now + M.EXPIRY_TIME,
                                                             messages := room.messages + [text],
                                                             stamps := room.stamps + [s.now])])
    {
      expiry := rt.now + M.EXPIRY_TIME;
      messages := messages + [text];
      stamps := stamps + [rt.now];
      lobby.SameMembers(this);
      lobby.RoomUpdated(this);
      lobby.StillBacked();
    }

    /** The text is sent to every member. */
    method Proclaim(rt: Runtime, text: M.Text, ghost lobby: Lobby)
      requires rt == lobby.rt && lobby.Registered() && lobby.Backed() && In(lobby)
      modifies rt`out
      ensures lobby.Registered() && lobby.Backed()
      ensures var s := old(lobby.Abs());
              lobby.Abs() == s.(out := s.out + M.Fanout(s.clients, id, s.rooms[id].members, text))
    {
      OwnSlice(lobby);
      NoticesAreFanout(lobby, list, id, text);
      Notify(rt, text);
      lobby.SentOnly();
      lobby.StillBacked();
    }

    /** The client is pointed to the room and sent its history. */
    method Greet(client: Client, rt: Runtime, ghost lobby: Lobby)
      requires rt == lobby.rt && lobby.Registered() && lobby.Has(this)
      requires lobby.Knows(client) && client.link != M.Detached
      modifies client`chatRoom, client`visits, rt`out
      ensures lobby.Registered()
      ensures var s := old(lobby.Abs());
              var visitor := s.clients[client.id].(room := Some(id), visits := s.clients[client.id].visits + [id]);
              lobby.Abs() == s.(clients := s.clients[client.id := visitor],
                                out := s.out + M.Stream(client.id, M.Tagged(id, |visitor.visits|, messages)))
    {
      client.chatRoom := this;
      client.visits := client.visits + [id];
      Replay(client, rt);
      lobby.ClientUpdated(client.id);
    }

    /** The replay loop of `Join`. */
    method Replay(client: Client, rt: Runtime)
      requires client.link != M.Detached
      modifies rt`out
      ensures rt.out == old(rt.out) + M.Stream(client.id, M.Tagged(id, |client.visits|, messages))
    {
      for i := 0 to |messages|
        invariant rt.out == old(rt.out) + M.Stream(client.id, M.Tagged(id, |client.visits|, messages[..i]))
      {
        assert messages[..i + 1][..i] == messages[..i];
        client.Send(rt, M.FromRoom(id, |client.visits|, messages[i]));
      }
      assert messages[..|messages|] == messages;
    }

    method Join(client: Client, rt: Runtime, ghost lobby: Lobby)
      requires rt == lobby.rt && lobby.Registered() && lobby.Backed() && In(lobby)
      requires lobby.Knows(client) && client.link != M.Detached
      modifies this`clients, this`list, lobby.arrays, lobby`arrays, this`expiry, this`messages, this`stamps
      modifies rt`out, client`chatRoom, client`visits
      ensures lobby.Grown() && lobby.SameObjects()
      ensures lobby.Registered() && lobby.Backed()
      ensures lobby.Abs() == M.RoomJoin(old(lobby.Abs()), id, client.id)
    {
      OwnSlice(lobby);
      TakeIn(client, rt, lobby);
      Broadcast(rt, M.Joined(client.name), lobby);
    }

    /** The first half of `Join`. */
    method TakeIn(client: Client, rt: Runtime, ghost lobby: Lobby)
      requires rt == lobby.rt && lobby.Registered() && lobby.Backed() && In(lobby)
      requires lobby.Knows(client) && client.link != M.Detached
      modifies this`clients, this`list, clients.arr, lobby`arrays, rt`out, client`chatRoom, client`visits
      ensures lobby.Grown() && lobby.SameObjects() && In(lobby)
      ensures lobby.Registered() && lobby.Backed()
      ensures lobby.Abs() == M.Enter(old(lobby.Abs()), id, client.id)
    {
      Greet(client, rt, lobby);
      Enlist(client, lobby);
      forall c | c in list ensures c.link != M.Detached {
        assert c in old(list) || c == client;
      }
    }

    lemma OwnSlice(lobby: Lobby)
      requires lobby.Backed() && id in lobby.places && lobby.places[id] == this
      ensures Holds(clients, list) && clients.arr in lobby.arrays
    {
      assert lobby.Kept(OfRoom(id));
    }

    /** The member is appended to the room's slice. */
    method Enrol(client: Client, ghost lobby: Lobby)
      requires lobby.Backed() && lobby.Has(this) && forall r :: r in lobby.places ==> lobby.places[r].id == r
      modifies this`clients, this`list, clients.arr, lobby`arrays
      ensures lobby.Backed() && list == old(list) + [client]
      ensures lobby.Grown() && lobby.SameObjects()
    {
      OwnSlice(lobby);
      assert clients.arr[..clients.len] == list;
      clients := Append(clients, client);
      list := list + [client];
      lobby.arrays := lobby.arrays + {clients.arr};
      forall k | lobby.Kept(k) && k != OfRoom(id)
        ensures lobby.SliceOf(k) == old(lobby.SliceOf(k)) && lobby.ListOf(k) == old(lobby.ListOf(k))
      {
        assert k.OfRoom? ==> lobby.places[k.room].id == k.room;
      }
      lobby.Reseated(OfRoom(id));
    }

    method Enlist(client: Client, ghost lobby: Lobby)
      requires lobby.Registered() && lobby.Backed() && lobby.Has(this) && lobby.Knows(client)
      modifies this`clients, this`list, clients.arr, lobby`arrays
      ensures lobby.Grown() && lobby.SameObjects()
      ensures lobby.Registered() && lobby.Backed()
      ensures var s := old(lobby.Abs());
              lobby.Abs() == s.(rooms := s.rooms[id := s.rooms[id].(members := s.rooms[id].members + [client.id])])
      ensures list == old(list) + [client]
    {
      Enrol(client, lobby);
      assert Ids(list) == old(Ids(list)) + [client.id];
      lobby.Relisted(this);
      lobby.RoomUpdated(this);
    }

    /** The member is taken off the room's slice, within its array. */
    method Strike(client: Client, ghost lobby: Lobby)
      requires lobby.Backed() && lobby.Has(this) && forall r :: r in lobby.places ==> lobby.places[r].id == r
      modifies this`clients, this`list, clients.arr
      ensures lobby.Backed() && CutOut(old(list), client, list)
    {
      OwnSlice(lobby);
      assert clients.arr[..clients.len] == list;
      clients := TakeOff(clients, client);
      list := clients.arr[..clients.len];
      forall k | lobby.Kept(k) && k != OfRoom(id)
        ensures lobby.SliceOf(k) == old(lobby.SliceOf(k)) && lobby.ListOf(k) == old(lobby.ListOf(k))
      {
        assert k.OfRoom? ==> lobby.places[k.room].id == k.room;
      }
      lobby.Reseated(OfRoom(id));
    }

    method Leave(client: Client, rt: Runtime, ghost lobby: Lobby)
      requires rt == lobby.rt && lobby.Registered() && lobby.Backed() && In(lobby)
      requires lobby.Knows(client)
      modifies this`clients, this`list, lobby.arrays, this`expiry, this`messages, this`stamps
      modifies rt`out, client`chatRoom
      ensures lobby.SameObjects()
      ensures lobby.Registered() && lobby.Backed()
      ensures lobby.Abs() == M.RoomLeave(old(lobby.Abs()), id, client.id)
    {
      Broadcast(rt, M.Left(client.name), lobby);
      OwnSlice(lobby);
      RemoveMember(client, lobby);
    }

    /** The second half of `Leave`. */
    method RemoveMember(client: Client, ghost lobby: Lobby)
      requires lobby.Registered() && lobby.Backed() && In(lobby) && lobby.Knows(client)
      modifies this`clients, this`list, clients.arr, client`chatRoom
      ensures lobby.Registered() && lobby.Backed()
      ensures lobby.Abs() == M.Exit(old(lobby.Abs()), id, client.id)
    {
      Delist(client, lobby);
      Release(client, lobby);
    }

    /** The back-pointer is cleared. */
    method Release(client: Client, ghost lobby: Lobby)
      requires lobby.Registered() && lobby.Knows(client)
      modifies client`chatRoom
      ensures lobby.Registered()
      ensures var s := old(lobby.Abs());
              lobby.Abs() == s.(clients := s.clients[client.id := s.clients[client.id].(room := None)])
    {
      client.chatRoom := null;
      lobby.ClientUpdated(client.id);
    }

    method Delist(client: Client, ghost lobby: Lobby)
      requires lobby.Registered() && lobby.Backed() && lobby.Has(this) && lobby.Knows(client)
      modifies this`clients, this`list, clients.arr
      ensures lobby.Registered() && lobby.Backed()
      ensures var s := old(lobby.Abs());
              var rest := M.RemoveFirst(s.rooms[id].members, client.id);
              lobby.Abs() == s.(rooms := s.rooms[id := s.rooms[id].(members := rest)])
    {
      ghost var before := list;
      Strike(client, lobby);
      WithoutIds(lobby, before, client, list);
      lobby.Relisted(this);
      lobby.RoomUpdated(this);
    }

    method Delete(rt: Runtime, ghost lobby: Lobby)
      requires rt == lobby.rt && lobby.Registered() && lobby.Backed() && In(lobby)
      modifies this`expiry, this`messages, this`stamps, rt`out, list`chatRoom
      ensures lobby.SameObjects()
      ensures lobby.Registered() && lobby.Backed()
      ensures var told := M.Broadcast(old(lobby.Abs()), id, M.Inactive);
              lobby.Abs() == told.(clients := M.Evicted(told.clients, old(Ids(list))))
    {
      Broadcast(rt, M.Inactive, lobby);
      Evict(lobby);
    }

    /** The loop of `Delete`. */
    method Evict(ghost lobby: Lobby)
      requires lobby.Registered() && lobby.Backed() && lobby.Has(this)
      modifies list`chatRoom
      ensures lobby.Registered() && lobby.Backed()
      ensures lobby.Abs() == old(lobby.Abs()).(clients := M.Evicted(old(lobby.Abs()).clients, Ids(list)))
    {
      OwnSlice(lobby);
      assert forall other :: other in list ==> lobby.Knows(other);
      for i := 0 to clients.len
        invariant forall c :: c in lobby.people ==>
                    lobby.people[c].chatRoom ==
                    if lobby.people[c] in list[..i] then null else old(lobby.people[c].chatRoom)
      {
        assert list[..i + 1] == list[..i] + [list[i]];
        clients.arr[i].chatRoom := null;
      }
      assert list[..|list|] == list;
      lobby.Evicted(this);
    }
  }

  /** What `Notify` sends. */
  ghost function Notices(clients: seq<Client>, r: M.RoomId, text: M.Text): seq<M.Sent>
    reads clients
  {
    if clients == [] then []
    else
      var c := clients[|clients| - 1];
      Notices(clients[..|clients| - 1], r, text) + [M.Sent(c.id, M.FromRoom(r, |c.visits|, text))]
  }

  lemma {:induction false} NoticesAreFanout(lobby: Lobby, clients: seq<Client>, r: M.RoomId, text: M.Text)
    requires forall c :: c in clients ==> lobby.Knows(c)
    ensures Notices(clients, r, text) == M.Fanout(lobby.ClientStates(), r, Ids(clients), text)
  {
    if clients != [] {
      var n := |clients| - 1;
      NoticesAreFanout(lobby, clients[..n], r, text);
      assert Ids(clients)[..n] == Ids(clients[..n]);
      assert clients[n] in clients;
      assert lobby.ClientStates()[clients[n].id] == clients[n].Abs();
    }
  }

  lemma WithoutIds(lobby: Lobby, before: seq<Client>, client: Client, rest: seq<Client>)
    requires lobby.Knows(client) && forall other :: other in before ==> lobby.Knows(other)
    requires CutOut(before, client, rest)
    ensures Ids(rest) == M.RemoveFirst(Ids(before), client.id)
    ensures forall other :: other in rest ==> other in before
  {
    if client in before {
      var i :| 0 <= i < |before| && before[i] == client && client !in before[..i] &&
               rest == before[..i] + before[i + 1..];
      RemovedAt(lobby, before, client, i);
    } else {
      RemovedNot(lobby, before, client);
    }
  }

  /** Different objects have different identities, so removing the first equal pointer removes the first
      equal identity. */
  lemma RemovedAt(lobby: Lobby, before: seq<Client>, client: Client, i: nat)
    requires forall other :: other in before ==> lobby.Knows(other)
    requires i < |before| && before[i] == client && client !in before[..i]
    ensures Ids(before[..i] + before[i + 1..]) == M.RemoveFirst(Ids(before), client.id)
  {
    var ids := Ids(before);
    forall k | 0 <= k < i ensures ids[k] != client.id {
      assert before[k] in before && before[i] in before;
      assert before[..i][k] == before[k];
    }
    RemoveFirstAt(ids, i);
    assert Ids(before[..i] + before[i + 1..]) == ids[..i] + ids[i + 1..];
  }

  lemma RemovedNot(lobby: Lobby, before: seq<Client>, client: Client)
    requires lobby.Knows(client) && forall other :: other in before ==> lobby.Knows(other)
    requires client !in before
    ensures Ids(before) == M.RemoveFirst(Ids(before), client.id)
  {
    forall k | 0 <= k < |before| ensures Ids(before)[k] != client.id {
      assert before[k] in before;
    }
    RemoveAbsent(Ids(before), client.id);
  }

  lemma VacatedAgreement(s: M.State, c: M.ClientId)
    requires M.Resolved(s) && Runs.Reached(s) && c in s.clients && s.clients[c].link == M.Attached
    ensures Agreement(if s.clients[c].room.Some? then M.LeaveChatRoom(s, c) else s)
  {
    Runs.ReachedInv(s);
    LeaveRoomActs(s, c);
  }

  /** Whose list of clients it is. */
  datatype Keeper = OfLobby | OfRoom(room: M.RoomId)

  class Lobby {
    const rt: Runtime
    var clients: Slice<Client>
    ghost var list: seq<Client> // the elements of `clients`
    var chatRooms: map<string, ChatRoom>
    ghost var people: map<M.ClientId, Client>
    ghost var places: map<M.RoomId, ChatRoom>
    ghost var arrays: set<array<Client>> // behind the slices

    constructor (rt: Runtime)
      requires rt.out == [] && rt.timers == map[] && rt.nextTimer == 0 && rt.nextRoom == 0
      ensures this.rt == rt && Valid() && Abs() == M.Init(rt.now) && fresh(arrays)
    {
      this.rt := rt;
      var arr := new Client[0];
      clients, chatRooms := Slice(arr, 0), map[];
      list := [];
      people, places, arrays := map[], map[], {arr};
      new;
      assert Abs() == M.Init(rt.now);
      Runs.InitReached(rt.now);
    }

    /** Objects and identities correspond, and every pointer leads to a known object. */
    ghost predicate Registered()
      reads this, people.Values, places.Values
    {
      && (forall c :: c in people ==> people[c].id == c)
      && (forall r :: r in places ==> places[r].id == r)
      && (forall c :: c in list ==> Knows(c))
      && (forall n :: n in chatRooms ==> Has(chatRooms[n]))
      && (forall c :: c in people && people[c].chatRoom != null ==> Has(people[c].chatRoom))
      && (forall r :: r in places ==> KnowsMembers(places[r]))
    }

    /** The lists the lobby keeps: its own, and one for each room. */
    ghost predicate Kept(k: Keeper)
      reads this`places
    {
      k.OfRoom? ==> k.room in places
    }

    ghost function SliceOf(k: Keeper): Slice<Client>
      requires Kept(k)
      reads this`places, this`clients, places.Values`clients
    {
      if k.OfLobby? then clients else places[k.room].clients
    }

    ghost function ListOf(k: Keeper): seq<Client>
      requires Kept(k)
      reads this`places, this`list, places.Values`list
    {
      if k.OfLobby? then list else places[k.room].list
    }

    /** Every list is what its slice holds, and no two slices share an array. */
    ghost predicate Backed()
      reads this`clients, this`list, this`places, this`arrays, places.Values`clients, places.Values`list, arrays
    {
      && (forall k {:trigger Kept(k)} :: Kept(k) ==> SliceOf(k).arr in arrays && Holds(SliceOf(k), ListOf(k)))
      && (forall j, k {:trigger Kept(j), Kept(k)} :: Kept(j) && Kept(k) && SliceOf(j).arr == SliceOf(k).arr ==> j == k)
    }

    /** Arrays that were not there before are new. */
    twostate predicate Grown()
      reads this`arrays
    {
      forall a :: a in arrays ==> a in old(arrays) || fresh(a)
    }

    /** No list has changed. */
    twostate lemma StillBacked()
      requires old(Backed()) && places == old(places) && arrays == old(arrays)
      requires clients == old(clients) && list == old(list)
      requires forall r :: r in places ==>
                 places[r].clients == old(places[r].clients) && places[r].list == old(places[r].list)
      requires forall a :: a in arrays ==> unchanged(a)
      ensures Backed()
    {
      forall k | Kept(k) ensures SliceOf(k).arr in arrays && Holds(SliceOf(k), ListOf(k)) {
        assert old(Kept(k));
      }
      forall j, k | Kept(j) && Kept(k) && SliceOf(j).arr == SliceOf(k).arr ensures j == k {
        assert old(Kept(j)) && old(Kept(k));
      }
    }

    /** One list has changed, within its array or by moving to a new one; the others have not. */
    twostate lemma Reseated(new c: Keeper)
      requires old(Backed()) && places == old(places) && Kept(c)
      requires Holds(SliceOf(c), ListOf(c)) && arrays == old(arrays) + {SliceOf(c).arr}
      requires SliceOf(c).arr == old(SliceOf(c)).arr || SliceOf(c).arr !in old(arrays)
      requires forall k {:trigger Kept(k)} :: Kept(k) && k != c ==>
                 SliceOf(k) == old(SliceOf(k)) && ListOf(k) == old(ListOf(k))
      requires forall a :: a in old(arrays) && a != old(SliceOf(c)).arr ==> unchanged(a)
      ensures Backed()
    {
      assert old(Kept(c));
      forall k | Kept(k) ensures SliceOf(k).arr in arrays && Holds(SliceOf(k), ListOf(k)) {
        assert old(Kept(k));
      }
      forall j, k | Kept(j) && Kept(k) && SliceOf(j).arr == SliceOf(k).arr ensures j == k {
        assert old(Kept(j)) && old(Kept(k));
      }
    }

    /** A room with a new array has been added. */
    twostate lemma RoomAdded(new r: M.RoomId)
      requires old(Backed()) && clients == old(clients) && list == old(list)
      requires r in places && r !in old(places) && places == old(places)[r := places[r]]
      requires Holds(places[r].clients, places[r].list) && places[r].clients.arr !in old(arrays)
      requires arrays == old(arrays) + {places[r].clients.arr} && forall a :: a in old(arrays) ==> unchanged(a)
      requires forall q :: q in old(places) ==>
                 places[q] == old(places[q]) && places[q].clients == old(places[q].clients) &&
                 places[q].list == old(places[q].list)
      ensures Backed()
    {
      forall k | Kept(k) ensures SliceOf(k).arr in arrays && Holds(SliceOf(k), ListOf(k)) {
        assert k == OfRoom(r) || old(Kept(k));
      }
      forall j, k | Kept(j) && Kept(k) && SliceOf(j).arr == SliceOf(k).arr ensures j == k {
        assert j == OfRoom(r) || old(Kept(j));
        assert k == OfRoom(r) || old(Kept(k));
      }
    }

    ghost predicate Knows(client: Client)
      reads this
    {
      client.id in people && people[client.id] == client
    }

    ghost predicate KnowsMembers(room: ChatRoom)
      reads this, room
    {
      forall c :: c in room.list ==> Knows(c)
    }

    ghost predicate Has(room: ChatRoom)
      reads this
    {
      room.id in places && places[room.id] == room
    }

    ghost function ClientStates(): map<M.ClientId, M.Client>
      reads this, people.Values
    {
      map c | c in people :: people[c].Abs()
    }

    ghost function RoomStates(): map<M.RoomId, M.Room>
      reads this, places.Values
    {
      map r | r in places :: places[r].Abs()
    }

    ghost function NameStates(): map<string, M.RoomId>
      reads this
    {
      map n | n in chatRooms :: chatRooms[n].id
    }

    twostate lemma NoClientChanged()
      requires people == old(people)
      requires forall c :: c in people ==> people[c].Abs() == old(people[c].Abs())
      ensures ClientStates() == old(ClientStates())
    {
      forall c | c in people ensures ClientStates()[c] == old(ClientStates())[c] {
      }
      assert ClientStates().Keys == old(ClientStates()).Keys;
    }

    twostate lemma OnlyClientChanged(client: Client)
      requires people == old(people) && Knows(client) && (forall c :: c in people ==> people[c].id == c)
      requires forall c :: c in people && people[c] != client ==> people[c].Abs() == old(people[c].Abs())
      ensures ClientStates() == old(ClientStates())[client.id := client.Abs()]
    {
      var now := old(ClientStates())[client.id := client.Abs()];
      forall c | c in people ensures ClientStates()[c] == now[c] {
      }
      assert ClientStates().Keys == now.Keys;
    }

    twostate lemma NoRoomChanged()
      requires places == old(places)
      requires forall r :: r in places ==> places[r].Abs() == old(places[r].Abs())
      ensures RoomStates() == old(RoomStates())
    {
      forall r | r in places ensures RoomStates()[r] == old(RoomStates())[r] {
      }
      assert RoomStates().Keys == old(RoomStates()).Keys;
    }

    twostate lemma OnlyRoomChanged(room: ChatRoom)
      requires places == old(places) && Has(room) && (forall r :: r in places ==> places[r].id == r)
      requires forall r :: r in places && places[r] != room ==> places[r].Abs() == old(places[r].Abs())
      ensures RoomStates() == old(RoomStates())[room.id := room.Abs()]
    {
      var now := old(RoomStates())[room.id := room.Abs()];
      forall r | r in places ensures RoomStates()[r] == now[r] {
      }
      assert RoomStates().Keys == now.Keys;
    }

    /** The state of the model these objects represent. */
    ghost function Abs(): M.State
      reads this, rt, people.Values, places.Values
    {
      M.State(
        ClientStates(),
        Ids(list),
        RoomStates(),
        NameStates(),
        rt.timers, rt.nextRoom, rt.nextTimer, rt.out, rt.now)
    }

    /** Nothing changed but, perhaps, what was sent, room `room`, and the given clients. */
    twostate predicate Frame(room: ChatRoom, new moved: set<Client>)
      reads this, rt, people.Values, places.Values
    {
      && unchanged(this`clients, this`list, this`chatRooms, this`people, this`places)
      && rt.timers == old(rt.timers) && rt.nextRoom == old(rt.nextRoom)
      && rt.nextTimer == old(rt.nextTimer) && rt.now == old(rt.now)
      && (forall c :: c in people && people[c] !in moved ==> unchanged(people[c]))
      && (forall r :: r in places && places[r] != room ==> unchanged(places[r]))
    }

    /** A change to one room that keeps its list keeps the objects registered. */
    twostate lemma SameMembers(room: ChatRoom)
      requires old(Registered()) && old(Has(room)) && Frame(room, {}) && room.list == old(room.list)
      ensures Registered()
    {
      forall r | r in places ensures KnowsMembers(places[r]) {
        assert old(KnowsMembers(places[r])) && places[r].list == old(places[r].list);
      }
    }

    twostate lemma RoomUpdated(room: ChatRoom)
      requires old(Registered()) && old(Has(room)) && Frame(room, {})
      ensures Abs() == old(Abs()).(rooms := old(Abs()).rooms[room.id := room.Abs()], out := rt.out)
    {
      NoClientChanged();
      OnlyRoomChanged(room);
    }

    /** A change to one client, and perhaps to what was sent. */
    twostate lemma ClientUpdated(new c: M.ClientId)
      requires old(Registered()) && c in people && unchanged(this)
      requires rt.timers == old(rt.timers) && rt.nextRoom == old(rt.nextRoom)
      requires rt.nextTimer == old(rt.nextTimer) && rt.now == old(rt.now)
      requires forall d :: d in people && d != c ==> unchanged(people[d])
      requires forall r :: r in places ==> unchanged(places[r])
      requires people[c].chatRoom != null ==> Has(people[c].chatRoom)
      ensures Registered()
      ensures Abs() == old(Abs()).(clients := old(Abs()).clients[c := people[c].Abs()], out := rt.out)
    {
      OnlyClientChanged(people[c]);
      NoRoomChanged();
    }

    /** A change to one room whose members are known keeps the objects registered. */
    twostate lemma Relisted(room: ChatRoom)
      requires old(Registered()) && old(Has(room)) && Frame(room, {}) && KnowsMembers(room)
      ensures Registered()
    {
      forall r | r in places ensures KnowsMembers(places[r]) {
        if places[r] != room {
          assert old(KnowsMembers(places[r])) && places[r].list == old(places[r].list);
        }
      }
    }

    twostate lemma Evicted(room: ChatRoom)
      requires old(Registered()) && old(Has(room)) && unchanged(this) && unchanged(rt)
      requires forall r :: r in places ==> unchanged(places[r])
      requires forall c :: c in people ==> Cleared(room, c)
      ensures Registered()
      ensures Abs() == old(Abs()).(clients := M.Evicted(old(Abs()).clients, Ids(room.list)))
    {
      NoRoomChanged();
      forall c | c in people
        ensures people[c].Abs() == M.Evicted(old(Abs()).clients, Ids(room.list))[c]
      {
        EvictedOne(room, c);
      }
    }

    /** A client has lost its back-pointer if it is one of the room's members, and nothing otherwise. */
    twostate predicate Cleared(room: ChatRoom, new c: M.ClientId)
      requires people == old(people) && c in people
      reads this, people.Values, room
    {
      var client := people[c];
      && client.chatRoom == (if client in room.list then null else old(client.chatRoom))
      && client.name == old(client.name) && client.visits == old(client.visits)
      && client.link == old(client.link) && client.hungUp == old(client.hungUp)
    }

    twostate lemma EvictedOne(room: ChatRoom, new c: M.ClientId)
      requires old(Registered()) && old(Has(room)) && unchanged(this) && unchanged(room)
      requires c in people && Cleared(room, c)
      ensures people[c].Abs() == M.Evicted(old(Abs()).clients, Ids(room.list))[c]
    {
      var client := people[c];
      if client in room.list {
        var k :| 0 <= k < |room.list| && room.list[k] == client;
        assert Ids(room.list)[k] == c;
      } else {
        forall k | 0 <= k < |room.list| ensures Ids(room.list)[k] != c {
          assert room.list[k] in room.list && Knows(room.list[k]);
        }
      }
    }

    ghost predicate Valid()
      reads this, rt, people.Values, places.Values, arrays
    {
      Registered() && Backed() && M.Resolved(Abs()) && Runs.Reached(Abs())
    }

    /** The client is in the lobby. */
    ghost predicate Seated(client: Client)
      reads this, client
    {
      Knows(client) && client.link == M.Attached
    }

    twostate predicate SameObjects()
      reads this`people, this`places
    {
      people == old(people) && places == old(places)
    }

    /** Known objects keep their identities; objects known for the first time are new. */
    twostate predicate Keeps()
      reads this
    {
      && (forall c :: c in old(people) ==> c in people && people[c] == old(people[c]))
      && (forall r :: r in old(places) ==> r in places && places[r] == old(places[r]))
    }

    /** The members of a live room can be sent to. */
    lemma LiveRoomsAreOpen(room: ChatRoom)
      requires Registered() && Agreement(Abs()) && Has(room) && M.Live(Abs(), room.id)
      ensures room.In(this)
    {
      var s := Abs();
      forall c | c in room.list ensures c.link != M.Detached {
        assert Knows(c);
        var k :| 0 <= k < |room.list| && room.list[k] == c;
        assert Ids(room.list)[k] == c.id;
        assert c.id in s.rooms[room.id].members;
        assert s.clients[c.id].room == Some(room.id);
      }
    }

    /** The room a client points to is one of the lobby's, and its members can be sent to. */
    lemma OwnRoomIsOpen(client: Client)
      requires Valid() && Knows(client) && client.chatRoom != null
      ensures client.chatRoom.In(this)
    {
      Runs.ReachedInv(Abs());
      assert Abs().clients[client.id].room == Some(client.chatRoom.id);
      LiveRoomsAreOpen(client.chatRoom);
    }

    lemma NamedRoomsAreOpen()
      requires Registered() && Agreement(Abs())
      ensures forall n :: n in chatRooms ==> chatRooms[n].In(this)
    {
      forall n | n in chatRooms ensures chatRooms[n].In(this) {
        assert Abs().names[n] == chatRooms[n].id;
        LiveRoomsAreOpen(chatRooms[n]);
      }
    }

    twostate lemma SentOnly()
      requires old(Registered()) && unchanged(this)
      requires rt.timers == old(rt.timers) && rt.nextRoom == old(rt.nextRoom)
      requires rt.nextTimer == old(rt.nextTimer) && rt.now == old(rt.now)
      requires forall d :: d in people ==> unchanged(people[d])
      requires forall r :: r in places ==> unchanged(places[r])
      ensures Registered() && Abs() == old(Abs()).(out := rt.out)
    {
      NoClientChanged();
      NoRoomChanged();
    }

    /** Private texts from the lobby to one client. */
    method Reply(client: Client, texts: seq<M.Text>)
      requires Registered() && Backed() && Seated(client)
      modifies rt`out
      ensures SameObjects() && Backed()
      ensures Registered() && Abs() == M.Tell(old(Abs()), client.id, texts)
    {
      client.Tell(rt, texts);
      SentOnly();
      StillBacked();
    }

    method SendMessage(client: Client, message: M.Message)
      requires Valid() && Seated(client)
      modifies rt`out, places.Values
      ensures SameObjects()
      ensures Registered() && Backed() && Abs() == M.SendMessage(old(Abs()), client.id, message)
    {
      if client.chatRoom == null {
        Reply(client, [M.ErrorSend]);
      } else {
        OwnRoomIsOpen(client);
        client.chatRoom.Broadcast(rt, M.Said(message.time, client.name, message.line), this);
      }
    }

    twostate lemma Renamed(new c: M.ClientId)
      requires old(Registered()) && unchanged(this) && unchanged(rt) && c in people
      requires forall d :: d in people && d != c ==> unchanged(people[d])
      requires forall r :: r in places ==> unchanged(places[r])
      requires people[c].chatRoom == old(people[c].chatRoom)
      requires people[c].Abs() == old(people[c].Abs()).(name := people[c].name)
      ensures Registered() && Abs() == M.SetName(old(Abs()), c, people[c].name)
    {
      OnlyClientChanged(people[c]);
      NoRoomChanged();
    }

    method ChangeName(client: Client, name: string)
      requires Valid() && Seated(client)
      modifies rt`out, places.Values, client`name
      ensures SameObjects()
      ensures Registered() && Backed() && Abs() == M.ChangeName(old(Abs()), client.id, name)
    {
      Announce(client, M.Renamed(client.name, name));
      SetName(client, name);
    }

    method SetName(client: Client, name: string)
      requires Registered() && Backed() && Knows(client)
      modifies client`name
      ensures SameObjects() && Backed()
      ensures Registered() && Abs() == M.SetName(old(Abs()), client.id, name)
    {
      client.name := name;
      Renamed(client.id);
      StillBacked();
    }

    /** The branches of `ChangeName`: the text goes to the client's room, or to the client alone. */
    method Announce(client: Client, text: M.Text)
      requires Valid() && Seated(client)
      modifies rt`out, places.Values
      ensures SameObjects()
      ensures Registered() && Backed()
      ensures var s := old(Abs());
              Abs() == if s.clients[client.id].room.None? then M.Tell(s, client.id, [text])
                       else M.Broadcast(s, s.clients[client.id].room.value, text)
    {
      if client.chatRoom == null {
        Reply(client, [text]);
      } else {
        OwnRoomIsOpen(client);
        client.chatRoom.Broadcast(rt, text, this);
      }
    }

    method LeaveChatRoom(client: Client)
      requires Valid() && Seated(client)
      modifies rt`out, places.Values, arrays, client`chatRoom
      ensures SameObjects()
      ensures Registered() && Backed() && Abs() == M.LeaveChatRoom(old(Abs()), client.id)
    {
      if client.chatRoom == null {
        Reply(client, [M.ErrorLeave]);
      } else {
        OwnRoomIsOpen(client);
        client.chatRoom.Leave(client, rt, this);
      }
    }

    method JoinChatRoom(client: Client, name: string)
      requires Valid() && Seated(client)
      modifies rt`out, places.Values, arrays, this`arrays, client`chatRoom, client`visits
      ensures SameObjects()
      ensures Grown()
      ensures Registered() && Backed() && Abs() == M.JoinChatRoom(old(Abs()), client.id, name)
    {
      if name !in chatRooms {
        Reply(client, [M.ErrorJoin]);
      } else {
        Switch(client, name);
      }
    }

    /** The branch of `JoinChatRoom` for an existing room. */
    method Switch(client: Client, name: string)
      requires Valid() && Seated(client) && name in chatRooms
      modifies rt`out, places.Values, arrays, this`arrays, client`chatRoom, client`visits
      ensures SameObjects()
      ensures Grown()
      ensures Registered() && Backed() && Abs() == M.JoinChatRoom(old(Abs()), client.id, name)
    {
      Vacate(client);
      chatRooms[name].Join(client, rt, this);
    }

    /** A client that changes rooms leaves its own first. */
    method Vacate(client: Client)
      requires Valid() && Seated(client)
      modifies rt`out, places.Values, arrays, client`chatRoom
      ensures SameObjects() && arrays == old(arrays)
      ensures Registered() && Backed() && forall n :: n in chatRooms ==> chatRooms[n].In(this)
      ensures var s := old(Abs());
              Abs() == if s.clients[client.id].room.Some? then M.LeaveChatRoom(s, client.id) else s
    {
      VacatedAgreement(Abs(), client.id);
      if client.chatRoom != null {
        LeaveChatRoom(client);
      }
      NamedRoomsAreOpen();
    }

    method Help(client: Client)
      requires Registered() && Backed() && Seated(client)
      modifies rt`out
      ensures SameObjects() && Backed()
      ensures Registered() && Abs() == M.Help(old(Abs()), client.id)
    {
      Reply(client, M.HelpTexts());
    }

    /** The loop of `ListChatRooms`, through the name map in an order of its own choosing. */
    method SendNames(client: Client) returns (order: seq<string>)
      requires client.link != M.Detached
      modifies rt`out
      ensures M.Distinct(order) && forall n :: n in order <==> n in chatRooms
      ensures rt.out == old(rt.out) + M.Stream(client.id, M.Privately(M.RoomLines(order)))
    {
      order := [];
      var rest := chatRooms.Keys;
      while rest != {}
        invariant Walked(order, rest, chatRooms.Keys)
        invariant rt.out == old(rt.out) + M.Stream(client.id, M.Privately(M.RoomLines(order)))
        decreases rest
      {
        var n :| n in rest;
        client.Send(rt, M.Private(M.RoomLine(n)));
        RoomLinesOneMore(client.id, order, n);
        WalkOn(order, rest, chatRooms.Keys, n);
        order := order + [n];
        rest := rest - {n};
      }
    }

    method ListChatRooms(client: Client) returns (order: seq<string>)
      requires Registered() && Backed() && Seated(client)
      modifies rt`out
      ensures SameObjects() && Backed()
      ensures M.Enumerates(order, old(Abs()).names)
      ensures Registered() && Abs() == M.ListChatRooms(old(Abs()), client.id, order)
    {
      order := SendListing(client, [M.Blank, M.RoomsHeading], [M.Blank]);
      SentOnly();
      StillBacked();
    }

    /** The names between two groups of other lines. */
    method SendListing(client: Client, heading: seq<M.Text>, end: seq<M.Text>) returns (order: seq<string>)
      requires client.link != M.Detached
      modifies rt`out
      ensures M.Distinct(order) && forall n :: n in order <==> n in chatRooms
      ensures rt.out == old(rt.out) + M.Stream(client.id, M.Privately(heading + M.RoomLines(order) + end))
    {
      client.Tell(rt, heading);
      ghost var begun := rt.out;
      order := SendNames(client);
      ghost var named := rt.out;
      client.Tell(rt, end);
      assert rt.out == named + M.Stream(client.id, M.Privately(end));
      assert named == begun + M.Stream(client.id, M.Privately(M.RoomLines(order)));
      StreamParts(client.id, heading, M.RoomLines(order), end);
    }

    method CreateChatRoom(client: Client, name: string)
      requires Valid() && Seated(client)
      modifies this`chatRooms, this`places, this`arrays, rt`out, rt`timers, rt`nextRoom, rt`nextTimer
      ensures Grown() && Keeps() && people == old(people)
      ensures Registered() && Backed() && Abs() == M.CreateChatRoom(old(Abs()), client.id, name)
    {
      if name in chatRooms {
        Reply(client, [M.ErrorCreate]);
      } else {
        NextRoomIsNew();
        OpenRoom(name);
        Reply(client, [M.Created(name)]);
      }
    }

    /** The new room, its entry in the map, and its timer goroutine. */
    method OpenRoom(name: string)
      requires Registered() && Backed() && name !in chatRooms && rt.nextRoom !in places
      modifies this`chatRooms, this`places, this`arrays, rt`timers, rt`nextRoom, rt`nextTimer
      ensures Grown() && Keeps() && people == old(people)
      ensures Registered() && Backed() && Abs() == M.OpenRoom(old(Abs()), name)
    {
      var chatRoom := new ChatRoom(rt.nextRoom, name, rt.now);
      Install(chatRoom, name);
    }

    /** The new room gets its key, and its timer goroutine is spawned. */
    method Install(chatRoom: ChatRoom, name: string)
      requires Registered() && Backed() && name !in chatRooms && rt.nextRoom !in places
      requires chatRoom !in places.Values && chatRoom.id == rt.nextRoom && chatRoom.list == []
      requires chatRoom.Abs() == M.Room(name, [], [], rt.now + M.EXPIRY_TIME, rt.now, [], [])
      requires Holds(chatRoom.clients, chatRoom.list) && chatRoom.clients.arr !in arrays
      modifies this`chatRooms, this`places, this`arrays, rt`timers, rt`nextRoom, rt`nextTimer
      ensures arrays == old(arrays) + {chatRoom.clients.arr} && people == old(people)
      ensures places == old(places)[chatRoom.id := chatRoom]
      ensures Registered() && Backed() && Abs() == M.OpenRoom(old(Abs()), name)
    {
      chatRooms := chatRooms[name := chatRoom];
      places := places[rt.nextRoom := chatRoom];
      arrays := arrays + {chatRoom.clients.arr};
      rt.timers := rt.timers[rt.nextTimer := M.Timer(rt.nextRoom, M.Fresh)];
      rt.nextRoom, rt.nextTimer := rt.nextRoom + 1, rt.nextTimer + 1;
      Opened(chatRoom.id, name);
      RoomAdded(chatRoom.id);
    }

    twostate predicate OnlyOpened(new r: M.RoomId, new name: string)
      reads this, rt, people.Values, places.Values
    {
      && list == old(list) && people == old(people)
      && r == old(rt.nextRoom) && r !in old(places)
      && r in places && places == old(places)[r := places[r]]
      && (forall q :: q in old(places) ==> places[q] == old(places[q]) && unchanged(old(places[q])))
      && (forall d :: d in people ==> unchanged(people[d]))
      && chatRooms == old(chatRooms)[name := places[r]] && places[r].id == r
      && places[r].Abs() == M.Room(name, [], [], rt.now + M.EXPIRY_TIME, rt.now, [], []) && places[r].list == []
    }

    twostate lemma OpenedRegistered(new r: M.RoomId, new name: string)
      requires old(Registered()) && OnlyOpened(r, name)
      ensures Registered()
    {
      forall q | q in places ensures KnowsMembers(places[q]) {
        if q != r {
          assert q in old(places) && old(KnowsMembers(places[q]));
        }
      }
    }

    twostate lemma OpenedRooms(new r: M.RoomId, new name: string)
      requires old(Registered()) && OnlyOpened(r, name)
      ensures RoomStates() == old(RoomStates())[r := places[r].Abs()]
    {
      var now := old(RoomStates())[r := places[r].Abs()];
      forall q | q in places ensures RoomStates()[q] == now[q] {
        if q != r {
          assert q in old(places);
        }
      }
      assert RoomStates().Keys == now.Keys;
    }

    twostate lemma OpenedNames(new r: M.RoomId, new name: string)
      requires OnlyOpened(r, name)
      ensures NameStates() == old(NameStates())[name := r]
    {
    }

    twostate lemma Opened(new r: M.RoomId, new name: string)
      requires old(Registered()) && OnlyOpened(r, name)
      requires rt.timers == old(rt.timers)[old(rt.nextTimer) := M.Timer(r, M.Fresh)]
      requires rt.nextRoom == r + 1 && rt.nextTimer == old(rt.nextTimer) + 1
      requires rt.now == old(rt.now) && rt.out == old(rt.out)
      ensures Registered() && Abs() == M.OpenRoom(old(Abs()), name)
    {
      OpenedRegistered(r, name);
      NoClientChanged();
      OpenedRooms(r, name);
      OpenedNames(r, name);
    }

    method DeleteChatRoom(chatRoom: ChatRoom)
      requires Registered() && Backed() && Has(chatRoom) && chatRoom.In(this)
      modifies this`chatRooms, rt`out, rt`timers, rt`nextTimer, chatRoom, people.Values
      ensures Registered() && Backed() && Abs() == M.DeleteChatRoom(old(Abs()), chatRoom.id)
    {
      if chatRoom.expiry > rt.now {
        Renew(chatRoom);
        Mark(chatRoom);
      } else {
        RemoveChatRoom(chatRoom);
      }
    }

    /** A new timer goroutine is spawned for the room. */
    method Renew(chatRoom: ChatRoom)
      requires Registered() && Backed() && Has(chatRoom)
      modifies rt`timers, rt`nextTimer
      ensures SameObjects() && Registered() && Backed()
      ensures var s := old(Abs());
              Abs() == s.(timers := s.timers[s.nextTimer := M.Timer(chatRoom.id, M.Rearmed)],
                          nextTimer := s.nextTimer + 1)
    {
      rt.timers := rt.timers[rt.nextTimer := M.Timer(chatRoom.id, M.Rearmed)];
      rt.nextTimer := rt.nextTimer + 1;
      TimersOnly();
      StillBacked();
    }

    /** The branch of `DeleteChatRoom` for an expired room. */
    method RemoveChatRoom(chatRoom: ChatRoom)
      requires Registered() && Backed() && Has(chatRoom) && chatRoom.In(this)
      modifies this`chatRooms, rt`out, chatRoom, people.Values
      ensures Registered() && Backed() && Abs() == M.Dissolve(old(Abs()), chatRoom.id)
    {
      assert KnowsMembers(chatRoom);
      forall c | c in chatRoom.list ensures c in people.Values {
        assert people[c.id] == c;
      }
      chatRoom.Delete(rt, this);
      Forget(chatRoom);
      Mark(chatRoom);
    }

    /** The name is given free. */
    method Forget(chatRoom: ChatRoom)
      requires Registered() && Backed() && Has(chatRoom)
      modifies this`chatRooms
      ensures SameObjects()
      ensures Registered() && Backed()
      ensures Abs() == old(Abs()).(names := old(Abs()).names - {chatRoom.name})
    {
      chatRooms := chatRooms - {chatRoom.name};
      NameGone(chatRoom.name);
      StillBacked();
    }

    /** The handling of a timer is recorded. */
    ghost method Mark(chatRoom: ChatRoom)
      requires Registered() && Backed() && Has(chatRoom)
      modifies chatRoom`firings
      ensures Registered() && Backed()
      ensures var s := old(Abs());
              var room := s.rooms[chatRoom.id];
              Abs() == s.(rooms := s.rooms[chatRoom.id := room.(firings := room.firings + [s.now])])
    {
      chatRoom.firings := chatRoom.firings + [rt.now];
      SameMembers(chatRoom);
      RoomUpdated(chatRoom);
      StillBacked();
    }

    twostate lemma NameGone(new name: string)
      requires old(Registered()) && unchanged(rt)
      requires list == old(list) && people == old(people) && places == old(places)
      requires chatRooms == old(chatRooms) - {name}
      requires forall d :: d in people ==> unchanged(people[d])
      requires forall q :: q in places ==> unchanged(places[q])
      ensures Registered() && Abs() == old(Abs()).(names := old(Abs()).names - {name})
    {
      NoClientChanged();
      NoRoomChanged();
      assert NameStates() == old(NameStates()) - {name};
    }

    method Join(client: Client)
      requires Registered() && Backed() && client.id !in people
      requires client.name == M.CLIENT_NAME && client.chatRoom == null && client.visits == [] && !client.hungUp
      modifies this`clients, this`list, arrays, this`arrays, this`people, rt`out, client`link, client`hungUp
      ensures Grown()
      ensures people == old(people)[client.id := client]
      ensures Registered() && Backed() && Abs() == M.Join(old(Abs()), client.id)
    {
      assert Kept(OfLobby);
      if clients.len >= M.MAX_CLIENTS {
        Refuse(client);
      } else {
        Admit(client);
        Reply(client, [M.Welcome]);
      }
    }

    method Refuse(client: Client)
      requires Registered() && Backed() && client.id !in people
      requires client.name == M.CLIENT_NAME && client.chatRoom == null && client.visits == []
      modifies this`people, client`link, client`hungUp
      ensures people == old(people)[client.id := client]
      ensures Registered() && Backed() && Abs() == M.Refuse(old(Abs()), client.id)
    {
      people := people[client.id := client];
      client.Quit();
      client.link := M.Refused;
      Introduced(client.id);
    }

    method Admit(client: Client)
      requires Registered() && Backed() && client.id !in people
      requires client.name == M.CLIENT_NAME && client.chatRoom == null && client.visits == [] && !client.hungUp
      modifies this`clients, this`list, arrays, this`arrays, this`people, client`link
      ensures Grown()
      ensures people == old(people)[client.id := client] && client.link == M.Attached
      ensures Registered() && Backed() && Abs() == M.Admit(old(Abs()), client.id)
    {
      people := people[client.id := client];
      Seat(client);
      client.link := M.Attached;
      assert Ids(list) == old(Ids(list)) + [client.id];
      Introduced(client.id);
    }

    /** The client is appended to the lobby's slice. */
    method Seat(client: Client)
      requires Backed()
      modifies this`clients, this`list, arrays, this`arrays
      ensures Backed() && list == old(list) + [client]
      ensures Grown()
    {
      assert Kept(OfLobby);
      assert clients.arr[..clients.len] == list;
      clients := Append(clients, client);
      list := list + [client];
      arrays := arrays + {clients.arr};
      Reseated(OfLobby);
    }

    /** The client is taken off the lobby's slice, within its array. */
    method Unseat(client: Client)
      requires Backed()
      modifies this`clients, this`list, arrays
      ensures Backed() && CutOut(old(list), client, list)
    {
      assert Kept(OfLobby);
      assert clients.arr[..clients.len] == list;
      clients := TakeOff(clients, client);
      list := clients.arr[..clients.len];
      Reseated(OfLobby);
    }

    twostate lemma Introduced(new c: M.ClientId)
      requires old(Registered()) && c !in old(people)
      requires c in people && people == old(people)[c := people[c]] && people[c].id == c && people[c].chatRoom == null
      requires places == old(places) && chatRooms == old(chatRooms) && unchanged(rt)
      requires list == old(list) || list == old(list) + [people[c]]
      requires forall d :: d in old(people) ==> unchanged(old(people[d]))
      requires forall r :: r in places ==> unchanged(places[r])
      ensures Registered()
      ensures Abs() == old(Abs()).(clients := old(Abs()).clients[c := people[c].Abs()], members := Ids(list))
    {
      NoRoomChanged();
      OneMoreClient(c);
      forall r | r in places ensures KnowsMembers(places[r]) {
        assert old(KnowsMembers(places[r]));
      }
    }

    twostate lemma OneMoreClient(new c: M.ClientId)
      requires c in people && c !in old(people) && people == old(people)[c := people[c]]
      requires forall d :: d in old(people) ==> unchanged(old(people[d]))
      ensures ClientStates() == old(ClientStates())[c := people[c].Abs()]
    {
      var now := old(ClientStates())[c := people[c].Abs()];
      forall d | d in people ensures ClientStates()[d] == now[d] {
        if d != c {
          assert d in old(people) && people[d] == old(people[d]);
        }
      }
      assert ClientStates().Keys == now.Keys;
    }

    method Leave(client: Client)
      requires Valid() && Seated(client)
      modifies this`clients, this`list, rt`out, places.Values, arrays, client`chatRoom, client`link
      ensures Registered() && Backed() && Abs() == M.Leave(old(Abs()), client.id)
    {
      if client.chatRoom != null {
        OwnRoomIsOpen(client);
        client.chatRoom.Leave(client, rt, this);
      }
      Dismiss(client);
    }

    /** The second half of `Leave`: the client is taken off the list and its channel closed. */
    method Dismiss(client: Client)
      requires Registered() && Backed() && Seated(client)
      modifies this`clients, this`list, arrays, client`link
      ensures Registered() && Backed() && Abs() == M.Detach(old(Abs()), client.id)
    {
      Unseat(client);
      client.link := M.Detached;
      Dismissed(client.id);
    }

    twostate lemma Dismissed(new c: M.ClientId)
      requires old(Registered()) && c in people && unchanged(rt)
      requires people == old(people) && places == old(places) && chatRooms == old(chatRooms)
      requires CutOut(old(list), people[c], list)
      requires forall d :: d in people && d != c ==> unchanged(people[d])
      requires forall r :: r in places ==> unchanged(places[r])
      requires people[c].chatRoom == old(people[c].chatRoom)
      requires people[c].Abs() == old(people[c].Abs()).(link := M.Detached)
      ensures Registered() && Abs() == M.Detach(old(Abs()), c)
    {
      WithoutIds(this, old(list), people[c], list);
      OnlyClientChanged(people[c]);
      NoRoomChanged();
      forall r | r in places ensures KnowsMembers(places[r]) {
        assert old(KnowsMembers(places[r]));
      }
    }

    /** Dispatches a line to its handler. */
    method Parse(client: Client, message: M.Message) returns (ghost order: seq<string>)
      requires Valid() && Seated(client)
      modifies this`chatRooms, this`places, this`arrays, rt`out, rt`timers, rt`nextRoom, rt`nextTimer
      modifies places.Values, arrays, client`name, client`chatRoom, client`visits, client`hungUp
      ensures Grown() && Keeps() && people == old(people)
      ensures M.Enumerates(order, old(Abs()).names)
      ensures Registered() && Backed() && Abs() == M.Parse(old(Abs()), client.id, message, order)
    {
      order := Run(client, message, Commands.Classify(message.line));
    }

    /** The branches of the switch in `Parse`. */
    method Run(client: Client, message: M.Message, command: Commands.Command) returns (ghost order: seq<string>)
      requires Valid() && Seated(client)
      modifies this`chatRooms, this`places, this`arrays, rt`out, rt`timers, rt`nextRoom, rt`nextTimer
      modifies places.Values, arrays, client`name, client`chatRoom, client`visits, client`hungUp
      ensures Grown() && Keeps() && people == old(people)
      ensures M.Enumerates(order, old(Abs()).names)
      ensures Registered() && Backed() && Abs() == M.Perform(old(Abs()), client.id, message, order, command)
    {
      match command {
        case Create(name) =>
          order := ListNames(Abs().names);
          CreateChatRoom(client, name);
        case Join(name) =>
          order := ListNames(Abs().names);
          JoinChatRoom(client, name);
        case List => order := RunAlone(client, message, command);
        case Help => order := RunAlone(client, message, command);
        case Quit => order := RunAlone(client, message, command);
        case _ => order := RunInRoom(client, message, command);
      }
    }

    /** Those that concern the client's own room. */
    method RunInRoom(client: Client, message: M.Message, command: Commands.Command) returns (ghost order: seq<string>)
      requires Valid() && Seated(client)
      requires command.LeaveRoom? || command.Rename? || command.Say?
      modifies rt`out, places.Values, arrays, client`name, client`chatRoom
      ensures SameObjects()
      ensures M.Enumerates(order, old(Abs()).names)
      ensures Registered() && Backed() && Abs() == M.Perform(old(Abs()), client.id, message, order, command)
    {
      order := ListNames(Abs().names);
      match command {
        case LeaveRoom => LeaveChatRoom(client);
        case Rename(name) => ChangeName(client, name);
        case Say => SendMessage(client, message);
      }
    }

    /** Those that concern no room. */
    method RunAlone(client: Client, message: M.Message, command: Commands.Command) returns (ghost order: seq<string>)
      requires Registered() && Backed() && M.Resolved(Abs()) && Seated(client)
      requires command.List? || command.Help? || command.Quit?
      modifies rt`out, client`hungUp
      ensures SameObjects()
      ensures M.Enumerates(order, old(Abs()).names)
      ensures Registered() && Backed() && Abs() == M.Perform(old(Abs()), client.id, message, order, command)
    {
      order := ListNames(Abs().names);
      match command {
        case List => order := ListChatRooms(client);
        case Help => Help(client);
        case Quit => Quit(client);
      }
    }

    method Quit(client: Client)
      requires Registered() && Knows(client)
      modifies client`hungUp
      ensures Registered() && Abs() == M.HangUp(old(Abs()), client.id)
    {
      client.Quit();
      HungUp(client.id);
    }

    twostate lemma HungUp(new c: M.ClientId)
      requires old(Registered()) && unchanged(this) && unchanged(rt) && c in people
      requires forall d :: d in people && d != c ==> unchanged(people[d])
      requires forall r :: r in places ==> unchanged(places[r])
      requires people[c].chatRoom == old(people[c].chatRoom)
      requires people[c].Abs() == old(people[c].Abs()).(hungUp := true)
      ensures Registered() && Abs() == M.HangUp(old(Abs()), c)
    {
      OnlyClientChanged(people[c]);
      NoRoomChanged();
    }

    /** Whatever one event does to a valid lobby leaves it valid. */
    twostate lemma Turned(new event: M.Event)
      requires old(Valid()) && Registered() && Backed()
      requires M.Enabled(old(Abs()), event) && Abs() == M.Step(old(Abs()), event)
      ensures Valid()
    {
      Runs.ReachedNext(old(Abs()), event);
    }

    /** A turn of the loop in `Listen` for a message: one event of the model, which leaves all valid. */
    method OnMessage(client: Client, message: M.Message) returns (ghost event: M.Event)
      requires Valid() && Seated(client) && '\n' !in message.line
      modifies this`chatRooms, this`places, this`arrays, rt`out, rt`timers, rt`nextRoom, rt`nextTimer
      modifies places.Values, arrays, client`name, client`chatRoom, client`visits, client`hungUp
      ensures Grown() && Keeps() && Valid()
      ensures event.Incoming? && event.client == client.id && event.message == message
      ensures M.Enabled(old(Abs()), event) && Abs() == M.Step(old(Abs()), event)
    {
      ghost var order := Parse(client, message);
      event := M.Incoming(client.id, message, order);
      Turned(event);
    }

    /** A turn of the loop for a client that connects. */
    method OnJoin(client: Client)
      requires Valid() && client.id !in people
      requires client.name == M.CLIENT_NAME && client.chatRoom == null && client.visits == [] && !client.hungUp
      modifies this`clients, this`list, arrays, this`arrays, this`people, rt`out, client`link, client`hungUp
      ensures Grown()
      ensures Keeps() && Knows(client) && Valid()
      ensures M.Enabled(old(Abs()), M.Arrive(client.id)) && Abs() == M.Step(old(Abs()), M.Arrive(client.id))
    {
      Join(client);
      Turned(M.Arrive(client.id));
    }

    /** A turn of the loop for a client that leaves. */
    method OnLeave(client: Client)
      requires Valid() && Seated(client)
      modifies this`clients, this`list, rt`out, places.Values, arrays, client`chatRoom, client`link
      ensures Keeps() && Valid()
      ensures M.Enabled(old(Abs()), M.Depart(client.id)) && Abs() == M.Step(old(Abs()), M.Depart(client.id))
    {
      Leave(client);
      Turned(M.Depart(client.id));
    }

    /** A turn of the loop for a timer that is due. */
    method OnDelete(chatRoom: ChatRoom, timer: M.TimerId)
      requires Valid() && Has(chatRoom) && timer in rt.timers && rt.timers[timer].room == chatRoom.id
      requires rt.timers[timer].phase.Sleeping? && rt.timers[timer].phase.due <= rt.now
      modifies this`chatRooms, rt`out, rt`timers, rt`nextTimer, chatRoom, people.Values
      ensures Keeps() && Valid()
      ensures M.Enabled(old(Abs()), M.Expire(timer)) && Abs() == M.Step(old(Abs()), M.Expire(timer))
    {
      Fire(chatRoom, timer);
      Turned(M.Expire(timer));
    }

    /** A timer goroutine gets to run and goes to sleep. */
    method OnStart(timer: M.TimerId, chatRoom: ChatRoom)
      requires Valid() && Has(chatRoom) && timer in rt.timers && rt.timers[timer].room == chatRoom.id
      requires !rt.timers[timer].phase.Sleeping?
      modifies rt`timers
      ensures Keeps() && Valid()
      ensures M.Enabled(old(Abs()), M.Start(timer)) && Abs() == M.Step(old(Abs()), M.Start(timer))
    {
      StartTimer(timer, chatRoom);
      Turned(M.Start(timer));
    }

    /** Time passes between two turns. */
    method OnTick(time: M.Time)
      requires Valid() && rt.now <= time
      modifies rt`now
      ensures Keeps() && Valid()
      ensures M.Enabled(old(Abs()), M.Tick(time)) && Abs() == M.Step(old(Abs()), M.Tick(time))
    {
      rt.now := time;
      ClockOnly();
      Turned(M.Tick(time));
    }

    twostate lemma ClockOnly()
      requires old(Registered()) && unchanged(this) && unchanged(rt`out, rt`timers, rt`nextRoom, rt`nextTimer)
      requires forall d :: d in people ==> unchanged(people[d])
      requires forall r :: r in places ==> unchanged(places[r])
      ensures Registered() && Abs() == old(Abs()).(now := rt.now)
    {
      NoClientChanged();
      NoRoomChanged();
    }

    /** The timer goroutine ends by handing over its room. */
    method Fire(chatRoom: ChatRoom, timer: M.TimerId)
      requires Valid() && Has(chatRoom) && timer in rt.timers && rt.timers[timer].room == chatRoom.id
      modifies this`chatRooms, rt`out, rt`timers, rt`nextTimer, chatRoom, people.Values
      ensures Registered() && Backed() && Abs() == M.Fire(old(Abs()), timer)
    {
      TimersRoomIsOpen(chatRoom, timer);
      rt.timers := rt.timers - {timer};
      TimersOnly();
      DeleteChatRoom(chatRoom);
    }

    lemma TimersRoomIsOpen(chatRoom: ChatRoom, timer: M.TimerId)
      requires Valid() && Has(chatRoom) && timer in rt.timers && rt.timers[timer].room == chatRoom.id
      ensures chatRoom.In(this)
    {
      Runs.ReachedInv(Abs());
      assert M.Live(Abs(), Abs().timers[timer].room);
      LiveRoomsAreOpen(chatRoom);
    }

    twostate lemma TimersOnly()
      requires old(Registered()) && unchanged(this)
      requires rt.out == old(rt.out) && rt.nextRoom == old(rt.nextRoom) && rt.now == old(rt.now)
      requires forall d :: d in people ==> unchanged(people[d])
      requires forall r :: r in places ==> unchanged(places[r])
      ensures Registered() && Abs() == old(Abs()).(timers := rt.timers, nextTimer := rt.nextTimer)
    {
      NoClientChanged();
      NoRoomChanged();
    }

    lemma NextRoomIsNew()
      requires Valid()
      ensures rt.nextRoom !in places
    {
      Runs.ReachedInv(Abs());
      assert rt.nextRoom !in Abs().rooms;
    }

    /** A timer goroutine is scheduled for the first time and goes to sleep. */
    method StartTimer(timer: M.TimerId, chatRoom: ChatRoom)
      requires Registered() && M.Resolved(Abs())
      requires Has(chatRoom) && timer in rt.timers && rt.timers[timer].room == chatRoom.id
      modifies rt`timers
      ensures Registered() && Abs() == M.StartTimer(old(Abs()), timer)
    {
      var due := if rt.timers[timer].phase.Fresh? then rt.now + M.EXPIRY_TIME else chatRoom.expiry;
      rt.timers := rt.timers[timer := M.Timer(chatRoom.id, M.Sleeping(due, rt.now))];
      TimersOnly();
    }
  }

  lemma {:induction false} PrivatelyConcat(a: seq<M.Text>, b: seq<M.Text>)
    ensures M.Privately(a + b) == M.Privately(a) + M.Privately(b)
  {
    if b == [] {
      assert a + b == a;
    } else {
      var n := |b| - 1;
      assert (a + b)[..|a + b| - 1] == a + b[..n];
      PrivatelyConcat(a, b[..n]);
    }
  }

  lemma {:induction false} StreamConcat(c: M.ClientId, a: seq<M.Delivery>, b: seq<M.Delivery>)
    ensures M.Stream(c, a + b) == M.Stream(c, a) + M.Stream(c, b)
  {
    if b == [] {
      assert a + b == a;
    } else {
      var n := |b| - 1;
      assert (a + b)[..|a + b| - 1] == a + b[..n];
      StreamConcat(c, a, b[..n]);
    }
  }

  /** Texts told one after the other are the same sends as all of them told at once. */
  lemma StreamParts(c: M.ClientId, x: seq<M.Text>, y: seq<M.Text>, z: seq<M.Text>)
    ensures M.Stream(c, M.Privately(x + y + z))
            == M.Stream(c, M.Privately(x)) + M.Stream(c, M.Privately(y)) + M.Stream(c, M.Privately(z))
  {
    PrivatelyConcat(x + y, z);
    PrivatelyConcat(x, y);
    StreamConcat(c, M.Privately(x) + M.Privately(y), M.Privately(z));
    StreamConcat(c, M.Privately(x), M.Privately(y));
  }

  /** `order` lists the names in `all` outside `rest`, once each. */
  ghost predicate Walked(order: seq<string>, rest: set<string>, all: set<string>) {
    rest <= all && M.Distinct(order) && forall n :: n in order <==> n in all && n !in rest
  }

  lemma WalkOn(order: seq<string>, rest: set<string>, all: set<string>, n: string)
    requires Walked(order, rest, all) && n in rest
    ensures Walked(order + [n], rest - {n}, all)
  {
  }

  lemma StreamOneMore(c: M.ClientId, texts: seq<M.Text>, i: nat)
    requires i < |texts|
    ensures M.Stream(c, M.Privately(texts[..i + 1]))
            == M.Stream(c, M.Privately(texts[..i])) + [M.Sent(c, M.Private(texts[i]))]
  {
    assert texts[..i + 1][..i] == texts[..i];
    var ds := M.Privately(texts[..i]);
    assert (ds + [M.Private(texts[i])])[..|ds|] == ds;
  }

  lemma RoomLinesOneMore(c: M.ClientId, names: seq<string>, name: string)
    ensures M.Stream(c, M.Privately(M.RoomLines(names + [name])))
            == M.Stream(c, M.Privately(M.RoomLines(names))) + [M.Sent(c, M.Private(M.RoomLine(name)))]
  {
    var lines := M.RoomLines(names);
    assert (names + [name])[..|names|] == names;
    assert (lines + [M.RoomLine(name)])[..|lines|] == lines;
    var ds := M.Privately(lines);
    assert (ds + [M.Private(M.RoomLine(name))])[..|ds|] == ds;
  }
}
