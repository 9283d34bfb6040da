/** The lobby's state and its event handlers, as functions on values. Clients, rooms and timer
    goroutines have identities of their own; a room's name is only a key that can be used again. */
module LobbyModel {
  import opened GoStrings
  import Commands

  type ClientId = int
  type RoomId = int
  type TimerId = int
  type Time = int // nanoseconds

  const MAX_CLIENTS: nat := 10
  const CLIENT_NAME := "new_user"
  const EXPIRY_TIME: Time := 7 * 24 * 3600 * 1_000_000_000

  /** The texts the server sends. Formatting is left open: a text is its template and arguments. */
  datatype Text =
    | Welcome
    | ErrorSend | ErrorCreate | ErrorJoin | ErrorLeave
    | Joined(name: string)
    | Left(name: string)
    | Renamed(old_: string, new_: string)
    | Inactive
    | Created(name: string)
    | Blank
    | RoomsHeading
    | RoomLine(name: string)
    | HelpHeading
    | HelpLine(command: string)
    | Said(time: Time, name: string, line: string)

  /** One value on a client's outgoing channel. Texts broadcast or replayed by a room are tagged with
      the room and the number of the client's visit; visits are numbered from one. */
  datatype Delivery =
    | Private(text: Text)
    | FromRoom(room: RoomId, visit: nat, text: Text)

  /** One send performed by the lobby goroutine. */
  datatype Sent = Sent(to: ClientId, what: Delivery)

  /** `Refused` clients met a full server; `Detached` ones have left and their channel is closed. */
  datatype Link = Refused | Attached | Detached

  /** `visits` lists the rooms entered so far; it exists for the tags only. */
  datatype Client = Client(
    name: string,
    room: Option<RoomId>,
    visits: seq<RoomId>,
    link: Link,
    hungUp: bool)

  /** `created`, `stamps` (the time of each history entry) and `firings` (the times at which a
      deletion request of this room was handled) record the past; no handler reads them. */
  datatype Room = Room(
    name: string,
    members: seq<ClientId>,
    messages: seq<Text>,
    expiry: Time,
    created: Time,
    stamps: seq<Time>,
    firings: seq<Time>)

  /** A timer goroutine is spawned, reads the clock (or the expiry) when it is first scheduled, sleeps
      until `due`, and then offers its room to the lobby. */
  datatype Phase =
    | Fresh
    | Rearmed
    | Sleeping(due: Time, armed: Time)

  datatype Timer = Timer(room: RoomId, phase: Phase)

  datatype Message = Message(time: Time, line: string)

  datatype State = State(
    clients: map<ClientId, Client>,
    members: seq<ClientId>,
    rooms: map<RoomId, Room>,
    names: map<string, RoomId>,
    timers: map<TimerId, Timer>,
    nextRoom: RoomId,
    nextTimer: TimerId,
    out: seq<Sent>,
    now: Time)

  function Init(now: Time): State {
    State(map[], [], map[], map[], map[], 0, 0, [], now)
  }

  /** Every reference leads to an object. */
  ghost predicate Resolved(s: State) {
    && (forall c :: c in s.clients && s.clients[c].room.Some? ==> s.clients[c].room.value in s.rooms)
    && (forall c :: c in s.members ==> c in s.clients)
    && (forall r, c :: r in s.rooms && c in s.rooms[r].members ==> c in s.clients)
    && (forall n :: n in s.names ==> s.names[n] in s.rooms)
    && (forall t :: t in s.timers ==> s.timers[t].room in s.rooms)
  }

  /** No client and no room is forgotten. */
  ghost predicate Remembers(s: State, s': State) {
    s.clients.Keys <= s'.clients.Keys && s.rooms.Keys <= s'.rooms.Keys
  }

  // ---------------------------------------------------------------- sequences

  function RemoveFirst(xs: seq<ClientId>, x: ClientId): seq<ClientId> {
    if xs == [] then []
    else if xs[0] == x then xs[1..]
    else [xs[0]] + RemoveFirst(xs[1..], x)
  }

  function Privately(texts: seq<Text>): seq<Delivery> {
    if texts == [] then []
    else Privately(texts[..|texts| - 1]) + [Private(texts[|texts| - 1])]
  }

  /** The texts of a room as one client sees them during one visit. */
  function Tagged(r: RoomId, visit: nat, texts: seq<Text>): seq<Delivery> {
    if texts == [] then []
    else Tagged(r, visit, texts[..|texts| - 1]) + [FromRoom(r, visit, texts[|texts| - 1])]
  }

  /** Sends to one client, in order. */
  function Stream(c: ClientId, ds: seq<Delivery>): seq<Sent> {
    if ds == [] then []
    else Stream(c, ds[..|ds| - 1]) + [Sent(c, ds[|ds| - 1])]
  }

  function VisitNumber(clients: map<ClientId, Client>, c: ClientId): nat {
    if c in clients then |clients[c].visits| else 0
  }

  /** One text sent to each member, in list order. */
  function Fanout(clients: map<ClientId, Client>, r: RoomId, members: seq<ClientId>, text: Text): seq<Sent> {
    if members == [] then []
    else
      var c := members[|members| - 1];
      Fanout(clients, r, members[..|members| - 1], text) + [Sent(c, FromRoom(r, VisitNumber(clients, c), text))]
  }

  /** The ten sends of `Lobby.Help`: a heading and a line for each command between two blank lines. */
  function HelpTexts(): seq<Text> {
    seq(10, i => HelpText(i))
  }

  function HelpText(i: int): Text {
    match i
    case 1 => HelpHeading
    case 2 => HelpLine(Commands.CMD_HELP)
    case 3 => HelpLine(Commands.CMD_LIST)
    case 4 => HelpLine(Commands.CMD_CREATE)
    case 5 => HelpLine(Commands.CMD_JOIN)
    case 6 => HelpLine(Commands.CMD_LEAVE)
    case 7 => HelpLine(Commands.CMD_NAME)
    case 8 => HelpLine(Commands.CMD_QUIT)
    case _ => Blank
  }

  /** The help, text by text. */
  lemma HelpReads()
    ensures HelpTexts() == [Blank, HelpHeading, HelpLine("/h"), HelpLine("/l"), HelpLine("/c"), HelpLine("/j"),
                            HelpLine("/leave"), HelpLine("/n"), HelpLine("/q"), Blank]
  {
  }

  /** The place of a command's line in the help. */
  function HelpPlace(k: Commands.Case): nat {
    match k
    case HelpCase => 2
    case ListCase => 3
    case CreateCase => 4
    case JoinCase => 5
    case LeaveCase => 6
    case NameCase => 7
    case QuitCase => 8
  }

  /** The help has a line for every case of the switch in `Lobby.Parse`, and for nothing else. */
  lemma HelpNamesEveryCase()
    ensures forall k: Commands.Case :: HelpLine(Commands.Prefix(k)) in HelpTexts()
    ensures forall t :: t in HelpTexts() && t.HelpLine? ==> exists k: Commands.Case :: t == HelpLine(Commands.Prefix(k))
  {
    var texts := HelpTexts();
    forall k: Commands.Case ensures HelpLine(Commands.Prefix(k)) in texts {
      assert texts[HelpPlace(k)] == HelpLine(Commands.Prefix(k));
    }
    forall t | t in texts && t.HelpLine? ensures exists k: Commands.Case :: t == HelpLine(Commands.Prefix(k)) {
      var i :| 0 <= i < 10 && texts[i] == t;
      HelpLineCase(i);
    }
  }

  lemma HelpLineCase(i: nat)
    requires HelpText(i).HelpLine?
    ensures exists k: Commands.Case :: HelpPlace(k) == i && HelpText(i) == HelpLine(Commands.Prefix(k))
  {
    var k := match i
      case 2 => Commands.HelpCase
      case 3 => Commands.ListCase
      case 4 => Commands.CreateCase
      case 5 => Commands.JoinCase
      case 6 => Commands.LeaveCase
      case 7 => Commands.NameCase
      case _ => Commands.QuitCase;
    assert HelpPlace(k) == i;
  }

  function RoomLines(names: seq<string>): seq<Text> {
    if names == [] then [] else RoomLines(names[..|names| - 1]) + [RoomLine(names[|names| - 1])]
  }

  // ---------------------------------------------------------------- single effects

  function Tell(s: State, c: ClientId, texts: seq<Text>): State {
    s.(out := s.out + Stream(c, Privately(texts)))
  }

  /** `ChatRoom.Broadcast`. */
  function Broadcast(s: State, r: RoomId, text: Text): (s': State)
    requires r in s.rooms
    ensures Resolved(s) ==> Resolved(s')
  {
    var room := s.rooms[r];
    s.(rooms := s.rooms[r := room.(expiry := s.now + EXPIRY_TIME,
                                   messages := room.messages + [text],
                                   stamps := room.stamps + [s.now])],
       out := s.out + Fanout(s.clients, r, room.members, text))
  }

  /** First half of `ChatRoom.Join`: the back-pointer is set, the history replayed, the member appended. */
  function Enter(s: State, r: RoomId, c: ClientId): (s': State)
    requires r in s.rooms && c in s.clients
    ensures Resolved(s) ==> Resolved(s')
  {
    var client := s.clients[c].(room := Some(r), visits := s.clients[c].visits + [r]);
    var room := s.rooms[r];
    s.(clients := s.clients[c := client],
       rooms := s.rooms[r := room.(members := room.members + [c])],
       out := s.out + Stream(c, Tagged(r, |client.visits|, room.messages)))
  }

  /** Second half of `ChatRoom.Leave`: the member is removed and the back-pointer cleared. */
  function Exit(s: State, r: RoomId, c: ClientId): (s': State)
    requires r in s.rooms && c in s.clients
    ensures Resolved(s) ==> Resolved(s')
  {
    RemoveFirstSubset(s.rooms[r].members, c);
    s.(clients := s.clients[c := s.clients[c].(room := None)],
       rooms := s.rooms[r := s.rooms[r].(members := RemoveFirst(s.rooms[r].members, c))])
  }

  lemma {:induction false} RemoveFirstSubset(xs: seq<ClientId>, x: ClientId)
    ensures forall y :: y in RemoveFirst(xs, x) ==> y in xs
  {
    if xs != [] && xs[0] != x {
      RemoveFirstSubset(xs[1..], x);
    }
  }

  /** A client takes a place in the lobby. */
  function Admit(s: State, c: ClientId): State {
    s.(clients := s.clients[c := Client(CLIENT_NAME, None, [], Attached, false)],
       members := s.members + [c])
  }

  function Refuse(s: State, c: ClientId): State {
    s.(clients := s.clients[c := Client(CLIENT_NAME, None, [], Refused, true)])
  }

  /** A client's place in the lobby is given up and its channel closed. */
  function Detach(s: State, c: ClientId): State
    requires c in s.clients
  {
    s.(members := RemoveFirst(s.members, c),
       clients := s.clients[c := s.clients[c].(link := Detached)])
  }

  function SetName(s: State, c: ClientId, name: string): State
    requires c in s.clients
  {
    s.(clients := s.clients[c := s.clients[c].(name := name)])
  }

  /** `NewChatRoom`, the entry in the name map, and the room's first timer goroutine. */
  function OpenRoom(s: State, name: string): State {
    s.(rooms := s.rooms[s.nextRoom := Room(name, [], [], s.now + EXPIRY_TIME, s.now, [], [])],
       names := s.names[name := s.nextRoom],
       timers := s.timers[s.nextTimer := Timer(s.nextRoom, Fresh)],
       nextRoom := s.nextRoom + 1,
       nextTimer := s.nextTimer + 1)
  }

  // ---------------------------------------------------------------- rooms

  /** `ChatRoom.Join`. */
  function RoomJoin(s: State, r: RoomId, c: ClientId): (s': State)
    requires r in s.rooms && c in s.clients
    ensures Resolved(s) ==> Resolved(s')
  {
    Broadcast(Enter(s, r, c), r, Joined(s.clients[c].name))
  }

  /** `ChatRoom.Leave`. */
  function RoomLeave(s: State, r: RoomId, c: ClientId): (s': State)
    requires r in s.rooms && c in s.clients
    ensures Resolved(s) ==> Resolved(s')
  {
    Exit(Broadcast(s, r, Left(s.clients[c].name)), r, c)
  }

  function Evicted(clients: map<ClientId, Client>, members: seq<ClientId>): map<ClientId, Client> {
    map c | c in clients :: if c in members then clients[c].(room := None) else clients[c]
  }

  /** `ChatRoom.Delete` followed by the removal of the name. The dead room keeps its member list. */
  function Dissolve(s: State, r: RoomId): (s': State)
    requires r in s.rooms
    ensures Resolved(s) ==> Resolved(s')
  {
    var s1 := Broadcast(s, r, Inactive);
    var room := s1.rooms[r];
    s1.(clients := Evicted(s1.clients, room.members),
        names := s1.names - {room.name},
        rooms := s1.rooms[r := room.(firings := room.firings + [s.now])])
  }

  /** A new timer goroutine for a room that turned out not to be expired. */
  function Rearm(s: State, r: RoomId): (s': State)
    requires r in s.rooms
    ensures Resolved(s) ==> Resolved(s')
  {
    s.(timers := s.timers[s.nextTimer := Timer(r, Rearmed)],
       nextTimer := s.nextTimer + 1,
       rooms := s.rooms[r := s.rooms[r].(firings := s.rooms[r].firings + [s.now])])
  }

  // ---------------------------------------------------------------- handlers of the lobby

  /** `Lobby.Join`. */
  function Join(s: State, c: ClientId): (s': State)
    ensures Remembers(s, s')
  {
    if |s.members| >= MAX_CLIENTS then Refuse(s, c) else Tell(Admit(s, c), c, [Welcome])
  }

  /** `Lobby.Leave`. */
  function Leave(s: State, c: ClientId): (s': State)
    requires Resolved(s) && c in s.clients
    ensures Remembers(s, s')
  {
    var s1 := if s.clients[c].room.Some? then RoomLeave(s, s.clients[c].room.value, c) else s;
    Detach(s1, c)
  }

  /** `Lobby.DeleteChatRoom`. */
  function DeleteChatRoom(s: State, r: RoomId): (s': State)
    requires r in s.rooms
    ensures Remembers(s, s')
  {
    if s.rooms[r].expiry > s.now then Rearm(s, r) else Dissolve(s, r)
  }

  /** `Lobby.CreateChatRoom`. */
  function CreateChatRoom(s: State, c: ClientId, name: string): State {
    if name in s.names then Tell(s, c, [ErrorCreate])
    else Tell(OpenRoom(s, name), c, [Created(name)])
  }

  /** `Lobby.LeaveChatRoom`. */
  function LeaveChatRoom(s: State, c: ClientId): (s': State)
    requires Resolved(s) && c in s.clients
    ensures Resolved(s') && c in s'.clients && s'.names == s.names
  {
    if s.clients[c].room.None? then Tell(s, c, [ErrorLeave])
    else RoomLeave(s, s.clients[c].room.value, c)
  }

  /** `Lobby.JoinChatRoom`. */
  function JoinChatRoom(s: State, c: ClientId, name: string): State
    requires Resolved(s) && c in s.clients
  {
    if name !in s.names then Tell(s, c, [ErrorJoin])
    else
      var s1 := if s.clients[c].room.Some? then LeaveChatRoom(s, c) else s;
      RoomJoin(s1, s1.names[name], c)
  }

  /** `Lobby.SendMessage`. */
  function SendMessage(s: State, c: ClientId, m: Message): State
    requires Resolved(s) && c in s.clients
  {
    if s.clients[c].room.None? then Tell(s, c, [ErrorSend])
    else Broadcast(s, s.clients[c].room.value, Said(m.time, s.clients[c].name, m.line))
  }

  /** `Lobby.ChangeName`. */
  function ChangeName(s: State, c: ClientId, name: string): State
    requires Resolved(s) && c in s.clients
  {
    var text := Renamed(s.clients[c].name, name);
    var s1 := if s.clients[c].room.None? then Tell(s, c, [text]) else Broadcast(s, s.clients[c].room.value, text);
    SetName(s1, c, name)
  }

  /** `Lobby.ListChatRooms`; Go visits the map in an order of its own choosing. */
  function ListChatRooms(s: State, c: ClientId, order: seq<string>): State {
    Tell(s, c, [Blank, RoomsHeading] + RoomLines(order) + [Blank])
  }

  /** `Lobby.Help`. */
  function Help(s: State, c: ClientId): State {
    Tell(s, c, HelpTexts())
  }

  /** `Client.Quit`. */
  function HangUp(s: State, c: ClientId): State
    requires c in s.clients
  {
    s.(clients := s.clients[c := s.clients[c].(hungUp := true)])
  }

  /** The branches of the switch in `Lobby.Parse`. */
  function Perform(s: State, c: ClientId, m: Message, order: seq<string>, command: Commands.Command): (s': State)
    requires Resolved(s) && c in s.clients
    ensures Remembers(s, s')
  {
    match command
    case Create(name) => CreateChatRoom(s, c, name)
    case LeaveRoom => LeaveChatRoom(s, c)
    case List => ListChatRooms(s, c, order)
    case Join(name) => JoinChatRoom(s, c, name)
    case Rename(name) => ChangeName(s, c, name)
    case Help => Help(s, c)
    case Quit => HangUp(s, c)
    case Say => SendMessage(s, c, m)
  }

  /** `Lobby.Parse`. */
  function Parse(s: State, c: ClientId, m: Message, order: seq<string>): (s': State)
    requires Resolved(s) && c in s.clients
    ensures Remembers(s, s')
  {
    Perform(s, c, m, order, Commands.Classify(m.line))
  }

  /** A timer goroutine is scheduled for the first time: the first one of a room sleeps for
      `EXPIRY_TIME` from that moment, a later one until the expiry it reads then. */
  function StartTimer(s: State, t: TimerId): State
    requires Resolved(s) && t in s.timers
  {
    var timer := s.timers[t];
    var due := if timer.phase.Fresh? then s.now + EXPIRY_TIME else s.rooms[timer.room].expiry;
    s.(timers := s.timers[t := timer.(phase := Sleeping(due, s.now))])
  }

  /** A timer goroutine hands its room to the lobby and ends. */
  function Fire(s: State, t: TimerId): (s': State)
    requires Resolved(s) && t in s.timers
    ensures Remembers(s, s')
  {
    DeleteChatRoom(s.(timers := s.timers - {t}), s.timers[t].room)
  }

  // ---------------------------------------------------------------- events

  datatype Event =
    | Arrive(client: ClientId)
    | Incoming(client: ClientId, message: Message, order: seq<string>)
    | Depart(client: ClientId)
    | Start(timer: TimerId)
    | Expire(timer: TimerId)
    | Tick(time: Time)

  predicate Distinct<T(==)>(xs: seq<T>) {
    forall i, j :: 0 <= i < j < |xs| ==> xs[i] != xs[j]
  }

  /** `order` is one way to walk through the keys of the room map. */
  ghost predicate Enumerates(order: seq<string>, names: map<string, RoomId>) {
    Distinct(order) && forall n :: n in order <==> n in names
  }

  ghost predicate Enabled(s: State, e: Event) {
    match e
    case Arrive(c) => c !in s.clients
    case Incoming(c, m, order) =>
      c in s.clients && s.clients[c].link == Attached && '\n' !in m.line && Enumerates(order, s.names)
    case Depart(c) => c in s.clients && s.clients[c].link == Attached
    case Start(t) => t in s.timers && !s.timers[t].phase.Sleeping?
    case Expire(t) => t in s.timers && s.timers[t].phase.Sleeping? && s.timers[t].phase.due <= s.now
    case Tick(time) => s.now <= time
  }

  /** One turn of `Lobby.Listen`, or a step of the runtime between two turns. */
  function Step(s: State, e: Event): (s': State)
    requires Resolved(s)
    requires Enabled(s, e)
    ensures Remembers(s, s')
  {
    match e
    case Arrive(c) => Join(s, c)
    case Incoming(c, m, order) => Parse(s, c, m, order)
    case Depart(c) => Leave(s, c)
    case Start(t) => StartTimer(s, t)
    case Expire(t) => Fire(s, t)
    case Tick(time) => s.(now := time)
  }

  // ---------------------------------------------------------------- observations

  /** The server has closed the client's connection. */
  predicate HungUp(s: State, c: ClientId) {
    c in s.clients && s.clients[c].hungUp
  }

  /** The client has left, and its channel is closed or about to be. */
  predicate HasLeft(s: State, c: ClientId) {
    c in s.clients && s.clients[c].link == Detached
  }

  /** The room is the one its name leads to. */
  predicate Live(s: State, r: RoomId) {
    r in s.rooms && s.rooms[r].name in s.names && s.names[s.rooms[r].name] == r
  }

  /** What has been sent to one client, in order. */
  function Log(out: seq<Sent>, c: ClientId): seq<Delivery> {
    if out == [] then []
    else
      var last := out[|out| - 1];
      Log(out[..|out| - 1], c) + (if last.to == c then [last.what] else [])
  }

  /** The room texts of one visit. */
  function Transcript(log: seq<Delivery>, visit: nat): seq<Text> {
    if log == [] then []
    else
      var last := log[|log| - 1];
      Transcript(log[..|log| - 1], visit)
      + (if last.FromRoom? && last.visit == visit then [last.text] else [])
  }
}
