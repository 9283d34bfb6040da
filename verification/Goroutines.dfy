/** The goroutines around the lobby and the unbuffered channels between them, step by step: one reader,
    one forwarder and one writer per client, the timers, and the lobby loop, which carries out the sends
    of one handler one after the other before it turns to the next event. */
module Goroutines {
  import opened GoStrings
  import opened LobbyModel
  import opened Transcripts
  import opened Invariant
  import Commands

  /** `Client.Read`: waits for the network, offers a message on `incoming`, or has closed it. */
  datatype Reader = Reading | Offering(message: Message) | Ended

  /** The goroutine started by `Lobby.Join`. */
  datatype Forwarder = Unstarted | Receiving | Forwarding(message: Message) | Leaving | Gone

  /** `Client.Write`: waits on `outgoing`, writes to the network, or has returned. A text is `late` when
      the server had closed the connection before it was handed over; writing it is bound to fail. */
  datatype Writer = Waiting | Writing(what: Delivery, late: bool) | Failed | Finished

  /** `stream` is everything the client will ever send and `rest` what has not been read of it;
      `produced`, `parsed` and `written` record the past. */
  datatype Proc = Proc(
    stream: string,
    rest: string,
    reader: Reader,
    forwarder: Forwarder,
    writer: Writer,
    produced: seq<Message>,
    parsed: seq<Message>,
    written: seq<Delivery>)

  /** `done` counts the lobby's completed sends; `closing` is the channel the current handler closes at
      its end; `closed` are the channels closed so far. */
  datatype System = System(
    lobby: State,
    procs: map<ClientId, Proc>,
    done: nat,
    closing: Option<ClientId>,
    closed: set<ClientId>)

  function Boot(now: Time): System {
    System(Init(now), map[], 0, None, {})
  }

  /** The lobby loop is at its `select`. */
  predicate Idle(y: System) {
    y.done == |y.lobby.out| && y.closing.None?
  }

  datatype Move =
    | Connect(client: ClientId, stream: string) // NewClient
    | Admit(client: ClientId)                   // Lobby.Join
    | Read(client: ClientId)                    // a line arrives
    | StopReading(client: ClientId)             // the stream ends or fails
    | HandOver(client: ClientId)                // reader to forwarder
    | SeeEnd(client: ClientId)                  // the forwarder finds `incoming` closed
    | Handle(client: ClientId, order: seq<string>) // forwarder to lobby
    | Resign(client: ClientId)                  // forwarder to lobby, on `leave`
    | Wake(timer: TimerId)                      // a timer goroutine is scheduled
    | Ring(timer: TimerId)                      // timer to lobby
    | Transmit                                  // lobby to writer: the next send
    | CloseOut                                  // the lobby closes `outgoing`
    | Flush(client: ClientId)                   // the writer's write succeeds
    | WriteError(client: ClientId)              // or fails, as it may at any time
    | StopWriting(client: ClientId)             // the writer finds `outgoing` closed
    | Pass(time: Time)

  ghost predicate Guard(y: System, m: Move) {
    match m
    case Connect(c, stream) => c !in y.procs
    case Admit(c) => Idle(y) && c in y.procs && c !in y.lobby.clients
    case Read(c) => c in y.procs && y.procs[c].reader.Reading? && ReadString(y.procs[c].rest).Some?
    case StopReading(c) => c in y.procs && y.procs[c].reader.Reading?
    case HandOver(c) => c in y.procs && y.procs[c].reader.Offering? && y.procs[c].forwarder.Receiving?
    case SeeEnd(c) => c in y.procs && y.procs[c].reader.Ended? && y.procs[c].forwarder.Receiving?
    case Handle(c, order) =>
      Idle(y) && c in y.procs && y.procs[c].forwarder.Forwarding? && Enumerates(order, y.lobby.names)
    case Resign(c) => Idle(y) && c in y.procs && y.procs[c].forwarder.Leaving?
    case Wake(t) => Enabled(y.lobby, Start(t))
    case Ring(t) => Idle(y) && Enabled(y.lobby, Expire(t))
    case Transmit =>
      && y.done < |y.lobby.out|
      && y.lobby.out[y.done].to in y.procs
      && y.procs[y.lobby.out[y.done].to].writer.Waiting?
    case CloseOut => y.done == |y.lobby.out| && y.closing.Some?
    case Flush(c) => c in y.procs && y.procs[c].writer.Writing? && !y.procs[c].writer.late
    case WriteError(c) => c in y.procs && y.procs[c].writer.Writing?
    case StopWriting(c) => c in y.procs && y.procs[c].writer.Waiting? && c in y.closed
    case Pass(time) => y.lobby.now <= time
  }

  /** The event the move is for the lobby, if any. */
  function Effect(y: System, m: Move): Option<Event> {
    match m
    case Admit(c) => Some(Arrive(c))
    case Handle(c, order) =>
      if c in y.procs && y.procs[c].forwarder.Forwarding?
      then Some(Incoming(c, y.procs[c].forwarder.message, order)) else None
    case Resign(c) => Some(Depart(c))
    case Wake(t) => Some(Start(t))
    case Ring(t) => Some(Expire(t))
    case Pass(time) => Some(Tick(time))
    case _ => None
  }

  /** The lobby's part of a move is defined. */
  ghost predicate Ready(y: System, m: Move) {
    Effect(y, m).Some? ==> Resolved(y.lobby) && Enabled(y.lobby, Effect(y, m).value)
  }

  /** The state of the goroutines after a move; the lobby's own state is `Step`'s. */
  function Apply(y: System, m: Move): System
    requires Guard(y, m) && Ready(y, m)
  {
    var lobby := if Effect(y, m).Some? then Step(y.lobby, Effect(y, m).value) else y.lobby;
    match m
    case Connect(c, stream) =>
      y.(procs := y.procs[c := Proc(stream, stream, Reading, Unstarted, Waiting, [], [], [])])
    case Admit(c) =>
      var started := lobby.clients[c].link == Attached;
      y.(lobby := lobby, procs := y.procs[c := y.procs[c].(forwarder := if started then Receiving else Unstarted)])
    case Read(c) =>
      var p := y.procs[c];
      var (str, rest) := ReadString(p.rest).value;
      var message := Message(y.lobby.now, TrimNewline(str));
      y.(procs := y.procs[c := p.(rest := rest, reader := Offering(message), produced := p.produced + [message])])
    case StopReading(c) => y.(procs := y.procs[c := y.procs[c].(reader := Ended)])
    case HandOver(c) =>
      var p := y.procs[c];
      y.(procs := y.procs[c := p.(reader := Reading, forwarder := Forwarding(p.reader.message))])
    case SeeEnd(c) => y.(procs := y.procs[c := y.procs[c].(forwarder := Leaving)])
    case Handle(c, order) =>
      var p := y.procs[c];
      y.(lobby := lobby, procs := y.procs[c := p.(forwarder := Receiving, parsed := p.parsed + [p.forwarder.message])])
    case Resign(c) =>
      y.(lobby := lobby, procs := y.procs[c := y.procs[c].(forwarder := Gone)], closing := Some(c))
    case Wake(t) => y.(lobby := lobby)
    case Ring(t) => y.(lobby := lobby)
    case Transmit =>
      var send := y.lobby.out[y.done];
      var writer := Writing(send.what, HungUp(y.lobby, send.to));
      y.(done := y.done + 1, procs := y.procs[send.to := y.procs[send.to].(writer := writer)])
    case CloseOut => y.(closing := None, closed := y.closed + {y.closing.value})
    case Flush(c) =>
      var p := y.procs[c];
      y.(procs := y.procs[c := p.(writer := Waiting, written := p.written + [p.writer.what])])
    case WriteError(c) => y.(procs := y.procs[c := y.procs[c].(writer := Failed)])
    case StopWriting(c) => y.(procs := y.procs[c := y.procs[c].(writer := Finished)])
    case Pass(time) => y.(lobby := lobby)
  }

  /** The lobby goroutine is about to send on a closed channel, or to close one twice. */
  predicate Panics(y: System) {
    || (y.done < |y.lobby.out| && y.lobby.out[y.done].to in y.closed)
    || (y.done == |y.lobby.out| && y.closing.Some? && y.closing.value in y.closed)
  }

  // ---------------------------------------------------------------- the invariant

  /** The forwarder of a client runs exactly while the client is attached. */
  predicate LinkMatches(clients: map<ClientId, Client>, c: ClientId, forwarder: Forwarder) {
    match forwarder
    case Unstarted => c !in clients || clients[c].link == Refused
    case Gone => c in clients && clients[c].link == Detached
    case _ => c in clients && clients[c].link == Attached
  }

  function AtReader(p: Proc): seq<Message> {
    if p.reader.Offering? then [p.reader.message] else []
  }

  function AtForwarder(p: Proc): seq<Message> {
    if p.forwarder.Forwarding? then [p.forwarder.message] else []
  }

  /** What the reader produced is what was parsed and what is on its way, in this order. */
  predicate InOrder(p: Proc) {
    && p.produced == p.parsed + AtForwarder(p) + AtReader(p)
    && (p.forwarder.Leaving? || p.forwarder.Gone? ==> p.reader.Ended?)
    && (p.forwarder.Unstarted? ==> p.parsed == [])
  }

  function LinesOf(messages: seq<Message>): seq<string> {
    if messages == [] then [] else LinesOf(messages[..|messages| - 1]) + [messages[|messages| - 1].line]
  }

  /** What the reader produced are the first lines of the stream; none contains a newline. */
  ghost predicate FromStream(p: Proc) {
    && LinesOf(p.produced) + Lines(p.rest) == Lines(p.stream)
    && (forall m :: m in p.produced ==> '\n' !in m.line)
  }

  /** A writer was handed what the lobby sent to its client, in order; unless a write failed, it wrote
      all of it but the text it is writing. */
  predicate Delivered(sent: seq<Delivery>, p: Proc) {
    match p.writer
    case Writing(what, late) => p.written + [what] == sent
    case Failed => p.written <= sent
    case _ => p.written == sent
  }

  ghost predicate ProcOk(s: State, done: nat, c: ClientId, p: Proc) {
    && done <= |s.out|
    && LinkMatches(s.clients, c, p.forwarder)
    && InOrder(p)
    && FromStream(p)
    && Delivered(Log(s.out[..done], c), p)
  }

  ghost predicate ProcsOk(y: System) {
    forall c :: c in y.procs ==> ProcOk(y.lobby, y.done, c, y.procs[c])
  }

  /** A channel is closed, or about to be, exactly when its client has left; what the lobby has yet to
      send goes to open channels only. */
  ghost predicate ChannelsOk(y: System) {
    && y.done <= |y.lobby.out|
    && (forall c :: c in y.closed ==>
          c in y.lobby.clients && y.lobby.clients[c].link == Detached && y.closing != Some(c))
    && (forall c :: c in y.lobby.clients && y.lobby.clients[c].link == Detached ==>
          c in y.closed || y.closing == Some(c))
    && (y.closing.Some? ==> y.closing.value in y.lobby.clients && y.lobby.clients[y.closing.value].link == Detached)
    && (forall i :: y.done <= i < |y.lobby.out| ==> y.lobby.out[i].to !in y.closed)
    && (forall c :: c in y.procs && y.procs[c].writer.Finished? ==> c in y.closed)
  }

  /** The goroutines and channels fit the lobby's state. */
  ghost predicate Wired(y: System) {
    && ChannelsOk(y)
    && (forall c :: c in y.lobby.clients ==> c in y.procs)
    && (forall i :: 0 <= i < |y.lobby.out| ==> y.lobby.out[i].to in y.procs)
    && ProcsOk(y)
  }

  ghost predicate Sound(y: System) {
    Inv(y.lobby) && Wired(y)
  }

  // ---------------------------------------------------------------- moves keep it

  lemma ForwardedMessage(s: State, done: nat, c: ClientId, p: Proc)
    requires ProcOk(s, done, c, p) && p.forwarder.Forwarding?
    ensures c in s.clients && s.clients[c].link == Attached && '\n' !in p.forwarder.message.line
  {
    assert p.produced[|p.parsed|] == p.forwarder.message;
    assert p.forwarder.message in p.produced;
  }

  lemma OffersFit(y: System, m: Move)
    requires Resolved(y.lobby) && ProcsOk(y) && Guard(y, m)
    ensures Ready(y, m)
  {
    match m
    case Handle(c, order) => ForwardedMessage(y.lobby, y.done, c, y.procs[c]);
    case Resign(c) => assert ProcOk(y.lobby, y.done, c, y.procs[c]);
    case _ =>
  }

  /** The lobby's event is possible whenever the channels offer it. */
  lemma OffersAreEnabled(y: System, m: Move)
    requires Sound(y) && Guard(y, m)
    ensures Ready(y, m)
  {
    OffersFit(y, m);
  }

  /** Moves that involve only the goroutines of one client. */
  lemma LocalMove(y: System, c: ClientId, p: Proc)
    requires Wired(y) && c in y.procs
    requires p.writer.Finished? ==> c in y.closed
    requires ProcOk(y.lobby, y.done, c, p)
    ensures Wired(y.(procs := y.procs[c := p]))
  {
    LocalChannels(y, c, p);
    LocalProcs(y, c, p);
  }

  lemma LocalChannels(y: System, c: ClientId, p: Proc)
    requires ChannelsOk(y) && (p.writer.Finished? ==> c in y.closed)
    ensures ChannelsOk(y.(procs := y.procs[c := p]))
  {
  }

  lemma LocalProcs(y: System, c: ClientId, p: Proc)
    requires ProcsOk(y) && ProcOk(y.lobby, y.done, c, p)
    ensures ProcsOk(y.(procs := y.procs[c := p]))
  {
    forall d | d in y.procs && d != c ensures ProcOk(y.lobby, y.done, d, y.procs[d]) {
    }
  }

  lemma ReadProc(s: State, done: nat, c: ClientId, p: Proc, now: Time)
    requires ProcOk(s, done, c, p) && p.reader.Reading? && ReadString(p.rest).Some?
    ensures var (str, rest) := ReadString(p.rest).value;
            var message := Message(now, TrimNewline(str));
            ProcOk(s, done, c, p.(rest := rest, reader := Offering(message), produced := p.produced + [message]))
  {
    ReadYieldsNextLine(p.rest);
    var (str, rest) := ReadString(p.rest).value;
    ReadFromStream(p, rest, Message(now, TrimNewline(str)));
  }

  lemma ReadFromStream(p: Proc, rest: string, message: Message)
    requires FromStream(p) && '\n' !in message.line
    requires Lines(p.rest) == [message.line] + Lines(rest)
    ensures FromStream(p.(rest := rest, reader := Offering(message), produced := p.produced + [message]))
  {
    var produced := p.produced + [message];
    assert produced[..|produced| - 1] == p.produced;
    assert LinesOf(produced) + Lines(rest) == LinesOf(p.produced) + ([message.line] + Lines(rest));
  }

  /** The moves of one client's goroutines. */
  predicate Local(m: Move) {
    m.Read? || m.StopReading? || m.HandOver? || m.SeeEnd? || m.Flush? || m.WriteError? || m.StopWriting?
  }

  lemma LocalProc(y: System, m: Move)
    requires Guard(y, m) && Local(m)
    requires ProcOk(y.lobby, y.done, m.client, y.procs[m.client])
    requires y.procs[m.client].writer.Finished? ==> m.client in y.closed
    ensures Ready(y, m) && m.client in Apply(y, m).procs
    ensures var p := Apply(y, m).procs[m.client];
            ProcOk(y.lobby, y.done, m.client, p) && (p.writer.Finished? ==> m.client in y.closed)
  {
    if m.Read? {
      ReadProc(y.lobby, y.done, m.client, y.procs[m.client], y.lobby.now);
    }
  }

  lemma LocalFrame(y: System, m: Move)
    requires Guard(y, m) && Local(m)
    ensures Ready(y, m) && m.client in Apply(y, m).procs
    ensures Apply(y, m) == y.(procs := y.procs[m.client := Apply(y, m).procs[m.client]])
  {
  }

  lemma LocalKeeps(y: System, m: Move)
    requires Wired(y) && Guard(y, m) && Local(m)
    ensures Ready(y, m) && Apply(y, m).lobby == y.lobby && Wired(Apply(y, m))
  {
    assert ProcOk(y.lobby, y.done, m.client, y.procs[m.client]);
    LocalProc(y, m);
    LocalFrame(y, m);
    LocalMove(y, m.client, Apply(y, m).procs[m.client]);
  }

  lemma ConnectKeeps(y: System, c: ClientId, stream: string)
    requires Wired(y) && Guard(y, Connect(c, stream))
    ensures Wired(Apply(y, Connect(c, stream)))
  {
    var sent := y.lobby.out[..y.done];
    forall i | 0 <= i < |sent| ensures sent[i].to != c {
      assert y.lobby.out[i].to in y.procs;
    }
    UnaddressedLog(sent, c);
  }

  lemma TransmitProc(s: State, done: nat, c: ClientId, p: Proc)
    requires ProcOk(s, done, c, p) && done < |s.out|
    requires s.out[done].to == c ==> p.writer.Waiting?
    ensures var writer := if s.out[done].to == c then Writing(s.out[done].what, HungUp(s, c)) else p.writer;
            ProcOk(s, done + 1, c, p.(writer := writer))
  {
    assert s.out[..done + 1][..done] == s.out[..done];
  }

  lemma TransmitKeeps(y: System)
    requires Wired(y) && Guard(y, Transmit)
    ensures Wired(Apply(y, Transmit))
  {
    TransmitProcs(y);
    TransmitChannels(y);
  }

  lemma TransmitProcs(y: System)
    requires ProcsOk(y) && Guard(y, Transmit)
    ensures ProcsOk(Apply(y, Transmit))
  {
    TransmitIs(y);
    HandedOverProcs(y, Apply(y, Transmit));
  }

  lemma TransmitIs(y: System)
    requires Guard(y, Transmit)
    ensures HandsOver(y, Apply(y, Transmit))
  {
  }

  /** The next send has been handed to its writer. */
  ghost predicate HandsOver(y: System, y': System) {
    && y.done < |y.lobby.out| && y.lobby.out[y.done].to in y.procs
    && var send := y.lobby.out[y.done];
    && y.procs[send.to].writer.Waiting?
    && y'.lobby == y.lobby && y'.done == y.done + 1
    && y'.procs
       == y.procs[send.to := y.procs[send.to].(writer := Writing(send.what, HungUp(y.lobby, send.to)))]
  }

  lemma HandedOverProcs(y: System, y': System)
    requires ProcsOk(y) && HandsOver(y, y')
    ensures ProcsOk(y')
  {
    forall d | d in y'.procs ensures ProcOk(y'.lobby, y'.done, d, y'.procs[d]) {
      var p := y.procs[d];
      assert ProcOk(y.lobby, y.done, d, p);
      TransmitProc(y.lobby, y.done, d, p);
      assert y'.procs[d] == if y.lobby.out[y.done].to == d then p.(writer := y'.procs[d].writer) else p;
    }
  }

  lemma TransmitChannels(y: System)
    requires ChannelsOk(y) && Guard(y, Transmit)
    ensures ChannelsOk(Apply(y, Transmit))
  {
  }

  lemma CloseOutKeeps(y: System)
    requires Wired(y) && Guard(y, CloseOut)
    ensures Wired(Apply(y, CloseOut))
  {
  }

  /** The lobby has handled an event that concerned at most client `c`: its sends are still to be
      carried out, by a lobby that had completed all earlier ones. */
  ghost predicate Handled(s: State, s': State, c: ClientId) {
    && s.clients.Keys <= s'.clients.Keys
    && SendsAdvance(s, s')
    && (forall d :: d in s'.clients && d != c ==> d in s.clients && s'.clients[d].link == s.clients[d].link)
  }

  lemma HandledChannels(y: System, s': State, c: ClientId, p: Proc, closing: Option<ClientId>)
    requires ChannelsOk(y) && Idle(y) && c in y.procs && Handled(y.lobby, s', c)
    requires HasLeft(y.lobby, c) ==> HasLeft(s', c)
    requires closing == if HasLeft(s', c) && !HasLeft(y.lobby, c) then Some(c) else None
    requires p.writer == y.procs[c].writer
    ensures ChannelsOk(y.(lobby := s', procs := y.procs[c := p], closing := closing))
  {
    forall i | y.done <= i < |s'.out| ensures s'.out[i].to !in y.closed {
      assert |y.lobby.out| <= i;
    }
  }

  lemma HandledProc(s: State, s': State, done: nat, d: ClientId, p: Proc, p': Proc)
    requires ProcOk(s, done, d, p) && s.out <= s'.out
    requires p' == p.(forwarder := p'.forwarder, parsed := p'.parsed)
    requires InOrder(p') && LinkMatches(s'.clients, d, p'.forwarder)
    ensures ProcOk(s', done, d, p')
  {
    assert s'.out[..done] == s.out[..done];
  }

  lemma HandledProcs(y: System, s': State, c: ClientId, p: Proc, closing: Option<ClientId>)
    requires ProcsOk(y) && c in y.procs && Handled(y.lobby, s', c)
    requires InOrder(p) && p == y.procs[c].(forwarder := p.forwarder, parsed := p.parsed)
    requires LinkMatches(s'.clients, c, p.forwarder)
    ensures ProcsOk(y.(lobby := s', procs := y.procs[c := p], closing := closing))
  {
    var procs := y.procs[c := p];
    forall d | d in procs ensures ProcOk(s', y.done, d, procs[d]) {
      assert ProcOk(y.lobby, y.done, d, y.procs[d]);
      HandledProc(y.lobby, s', y.done, d, y.procs[d], procs[d]);
    }
  }

  lemma TargetsKnown(y: System, s': State)
    requires SendsAdvance(y.lobby, s')
    requires forall c :: c in s'.clients ==> c in y.procs
    requires forall i :: 0 <= i < |y.lobby.out| ==> y.lobby.out[i].to in y.procs
    ensures forall i :: 0 <= i < |s'.out| ==> s'.out[i].to in y.procs
  {
    forall i | 0 <= i < |s'.out| ensures s'.out[i].to in y.procs {
      if i < |y.lobby.out| {
        assert s'.out[i] == y.lobby.out[i];
      }
    }
  }

  lemma HandledKeeps(y: System, s': State, c: ClientId, p: Proc, closing: Option<ClientId>)
    requires Wired(y) && Idle(y) && c in y.procs && Handled(y.lobby, s', c)
    requires HasLeft(y.lobby, c) ==> HasLeft(s', c)
    requires closing == if HasLeft(s', c) && !HasLeft(y.lobby, c) then Some(c) else None
    requires InOrder(p) && p == y.procs[c].(forwarder := p.forwarder, parsed := p.parsed)
    requires LinkMatches(s'.clients, c, p.forwarder)
    ensures Wired(y.(lobby := s', procs := y.procs[c := p], closing := closing))
  {
    HandledChannels(y, s', c, p, closing);
    HandledProcs(y, s', c, p, closing);
    TargetsKnown(y, s');
  }

  lemma JoinHandled(s: State, c: ClientId)
    requires Inv(s) && c !in s.clients
    ensures Handled(s, Join(s, c), c)
    ensures Join(s, c).clients[c].link == Attached || Join(s, c).clients[c].link == Refused
  {
    JoinActs(s, c);
  }

  lemma AdmitKeeps(y: System, c: ClientId)
    requires Sound(y) && Guard(y, Admit(c)) && Ready(y, Admit(c))
    ensures Wired(Apply(y, Admit(c)))
  {
    assert ProcOk(y.lobby, y.done, c, y.procs[c]);
    JoinHandled(y.lobby, c);
    HandledKeeps(y, Join(y.lobby, c), c, Apply(y, Admit(c)).procs[c], None);
  }

  lemma ParseHandled(s: State, c: ClientId, m: Message, order: seq<string>)
    requires Inv(s) && c in s.clients && s.clients[c].link == Attached && '\n' !in m.line
    ensures Handled(s, Parse(s, c, m, order), c)
    ensures Parse(s, c, m, order).clients[c].link == Attached
  {
    var s' := Parse(s, c, m, order);
    ParseActs(s, c, m, order);
    ParseKeepsMembers(s, c, m, order, Commands.Classify(m.line));
    forall d | d in s'.clients && d != c ensures d in s.clients && s'.clients[d].link == s.clients[d].link {
      assert Heard(s, s', d);
    }
    assert c in s'.members;
  }

  lemma ParsedInPlace(p: Proc)
    requires InOrder(p) && p.forwarder.Forwarding?
    ensures InOrder(p.(forwarder := Receiving, parsed := p.parsed + [p.forwarder.message]))
  {
  }

  lemma HandleKeeps(y: System, c: ClientId, order: seq<string>)
    requires Sound(y) && Guard(y, Handle(c, order)) && Ready(y, Handle(c, order))
    ensures Wired(Apply(y, Handle(c, order)))
  {
    var p := y.procs[c];
    ForwardedMessage(y.lobby, y.done, c, p);
    ParsedInPlace(p);
    ParseHandled(y.lobby, c, p.forwarder.message, order);
    HandledKeeps(y, Parse(y.lobby, c, p.forwarder.message, order), c,
                 p.(forwarder := Receiving, parsed := p.parsed + [p.forwarder.message]), None);
  }

  lemma LeaveHandled(s: State, c: ClientId)
    requires Inv(s) && c in s.clients && s.clients[c].link == Attached
    ensures Handled(s, Leave(s, c), c)
  {
    LeaveActs(s, c);
    forall d | d in Leave(s, c).clients && d != c
      ensures d in s.clients && Leave(s, c).clients[d].link == s.clients[d].link {
      assert Heard(s, Leave(s, c), d);
    }
  }

  lemma ResignKeeps(y: System, c: ClientId)
    requires Sound(y) && Guard(y, Resign(c)) && Ready(y, Resign(c))
    ensures Wired(Apply(y, Resign(c)))
  {
    assert ProcOk(y.lobby, y.done, c, y.procs[c]);
    LeaveHandled(y.lobby, c);
    HandledKeeps(y, Leave(y.lobby, c), c, y.procs[c].(forwarder := Gone), Some(c));
  }

  /** Events without a client: a timer is handled or started, or time passes. */
  lemma UnattendedKeeps(y: System, s': State)
    requires Wired(y) && (Idle(y) || s'.out == y.lobby.out) && SendsAdvance(y.lobby, s')
    requires s'.clients.Keys == y.lobby.clients.Keys
    requires forall d :: d in s'.clients ==> s'.clients[d].link == y.lobby.clients[d].link
    ensures Wired(y.(lobby := s'))
  {
    forall d | d in y.procs ensures ProcOk(s', y.done, d, y.procs[d]) {
      HandledProc(y.lobby, s', y.done, d, y.procs[d], y.procs[d]);
    }
    forall c | c in s'.clients ensures c in y.procs {
      assert c in y.lobby.clients;
    }
    TargetsKnown(y, s');
    forall c | c in s'.clients && s'.clients[c].link == Detached ensures c in y.closed || y.closing == Some(c) {
      assert y.lobby.clients[c].link == Detached;
    }
    forall i | y.done <= i < |s'.out| ensures s'.out[i].to !in y.closed {
    }
  }

  lemma RingKeeps(y: System, t: TimerId)
    requires Sound(y) && Guard(y, Ring(t))
    ensures Wired(Apply(y, Ring(t)))
  {
    ExpireKeepsInv(y.lobby, t);
    UnattendedKeeps(y, Fire(y.lobby, t));
  }

  lemma WakeKeeps(y: System, t: TimerId)
    requires Sound(y) && Guard(y, Wake(t))
    ensures Wired(Apply(y, Wake(t)))
  {
    UnattendedKeeps(y, StartTimer(y.lobby, t));
  }

  lemma PassKeeps(y: System, time: Time)
    requires Wired(y) && Resolved(y.lobby) && Guard(y, Pass(time))
    ensures Wired(Apply(y, Pass(time)))
  {
    UnattendedKeeps(y, y.lobby.(now := time));
  }

  lemma MoveKeepsWired(y: System, m: Move)
    requires Sound(y) && Guard(y, m) && Ready(y, m)
    ensures Wired(Apply(y, m))
  {
    match m
    case Connect(c, stream) => ConnectKeeps(y, c, stream);
    case Admit(c) => AdmitKeeps(y, c);
    case Handle(c, order) => HandleKeeps(y, c, order);
    case Resign(c) => ResignKeeps(y, c);
    case Wake(t) => WakeKeeps(y, t);
    case Ring(t) => RingKeeps(y, t);
    case Transmit => TransmitKeeps(y);
    case CloseOut => CloseOutKeeps(y);
    case Pass(time) => PassKeeps(y, time);
    case _ => LocalKeeps(y, m);
  }

  /** What a move does to the lobby is one of the lobby's events, or nothing. */
  lemma MoveIsEvent(y: System, m: Move)
    requires Guard(y, m) && Ready(y, m)
    ensures Apply(y, m).lobby == if Effect(y, m).Some? then Step(y.lobby, Effect(y, m).value) else y.lobby
  {
  }

  /** Every move of every goroutine keeps the system sound. */
  lemma MoveKeepsSound(y: System, m: Move)
    requires Sound(y) && Guard(y, m)
    ensures Ready(y, m) && Sound(Apply(y, m))
  {
    OffersAreEnabled(y, m);
    MoveKeepsWired(y, m);
    MoveIsEvent(y, m);
    if Effect(y, m).Some? {
      StepKeepsInv(y.lobby, Effect(y, m).value);
    }
  }

  // ---------------------------------------------------------------- executions

  /** The systems of an execution that starts with an empty server, and the moves between them. */
  ghost predicate IsExecution(ys: seq<System>, ms: seq<Move>) {
    && |ys| == |ms| + 1
    && ys[0] == Boot(ys[0].lobby.now)
    && forall i :: 0 <= i < |ms| ==> MovesTo(ys[i], ms[i], ys[i + 1])
  }

  ghost predicate MovesTo(y: System, m: Move, y': System) {
    Guard(y, m) && (Ready(y, m) ==> y' == Apply(y, m))
  }

  lemma {:induction false} ExecutionSound(ys: seq<System>, ms: seq<Move>, i: nat)
    requires IsExecution(ys, ms) && i < |ys|
    ensures Sound(ys[i])
  {
    if i == 0 {
      InitInv(ys[0].lobby.now);
    } else {
      ExecutionSound(ys, ms, i - 1);
      assert MovesTo(ys[i - 1], ms[i - 1], ys[i - 1 + 1]);
      MoveKeepsSound(ys[i - 1], ms[i - 1]);
    }
  }

  /** No interleaving makes the lobby send on a closed channel or close one twice. */
  lemma NeverPanics(ys: seq<System>, ms: seq<Move>, i: nat)
    requires IsExecution(ys, ms) && i < |ys|
    ensures !Panics(ys[i])
  {
    ExecutionSound(ys, ms, i);
    ChannelsDontPanic(ys[i]);
  }

  lemma ChannelsDontPanic(y: System)
    requires ChannelsOk(y)
    ensures !Panics(y)
  {
    match y.closing
    case None =>
    case Some(c) => assert c !in y.closed;
  }

  lemma {:induction false} LinesOfConcat(a: seq<Message>, b: seq<Message>)
    ensures LinesOf(a + b) == LinesOf(a) + LinesOf(b)
  {
    if b == [] {
      assert a + b == a;
    } else {
      var n := |b| - 1;
      assert (a + b)[..|a + b| - 1] == a + b[..n];
      LinesOfConcat(a, b[..n]);
    }
  }

  /** Under every interleaving the lobby parses the lines of a client in the order in which the client
      sent them, none skipped or repeated; a departure is offered only when all that was read has been
      parsed; a refused client is never parsed and never departs. */
  lemma ParsedInOrder(ys: seq<System>, ms: seq<Move>, i: nat, c: ClientId)
    requires IsExecution(ys, ms) && i < |ys| && c in ys[i].procs
    ensures var p := ys[i].procs[c];
            && p.parsed <= p.produced
            && LinesOf(p.parsed) <= Lines(p.stream)
            && (p.forwarder.Leaving? || p.forwarder.Gone? ==> p.parsed == p.produced)
  {
    ExecutionSound(ys, ms, i);
    var p := ys[i].procs[c];
    assert ProcOk(ys[i].lobby, ys[i].done, c, p);
    PrefixOfLines(p);
  }

  /** A client that was refused, or not yet admitted, is never parsed and never departs. */
  lemma RefusedNeverHeard(ys: seq<System>, ms: seq<Move>, i: nat, c: ClientId)
    requires IsExecution(ys, ms) && i < |ys| && c in ys[i].procs
    requires c !in ys[i].lobby.clients || ys[i].lobby.clients[c].link == Refused
    ensures ys[i].procs[c].parsed == []
    ensures forall order :: !Guard(ys[i], Handle(c, order))
    ensures !Guard(ys[i], Resign(c))
  {
    ExecutionSound(ys, ms, i);
    RefusedProc(ys[i], c);
    UnstartedOffersNothing(ys[i], c);
  }

  lemma UnstartedOffersNothing(y: System, c: ClientId)
    requires c in y.procs && y.procs[c].forwarder.Unstarted?
    ensures forall order :: !Guard(y, Handle(c, order))
    ensures !Guard(y, Resign(c))
  {
  }

  lemma RefusedProc(y: System, c: ClientId)
    requires ProcsOk(y) && c in y.procs
    requires c !in y.lobby.clients || y.lobby.clients[c].link == Refused
    ensures y.procs[c].parsed == [] && y.procs[c].forwarder.Unstarted?
  {
    assert ProcOk(y.lobby, y.done, c, y.procs[c]);
  }

  lemma PrefixOfLines(p: Proc)
    requires InOrder(p) && FromStream(p)
    ensures p.parsed <= p.produced && LinesOf(p.parsed) <= Lines(p.stream)
  {
    var ahead := AtForwarder(p) + AtReader(p);
    assert p.produced == p.parsed + ahead;
    LinesOfConcat(p.parsed, ahead);
  }

  /** What a client's writer has written is a prefix of what the lobby sent to the client; between two
      events of the lobby, if no write failed, it lacks at most the text being written. */
  lemma WrittenInOrder(ys: seq<System>, ms: seq<Move>, i: nat, c: ClientId)
    requires IsExecution(ys, ms) && i < |ys| && c in ys[i].procs
    ensures var p := ys[i].procs[c];
            && p.written <= Log(ys[i].lobby.out, c)
            && (Idle(ys[i]) && (p.writer.Waiting? || p.writer.Finished?) ==> p.written == Log(ys[i].lobby.out, c))
            && (Idle(ys[i]) && p.writer.Writing? ==> p.written + [p.writer.what] == Log(ys[i].lobby.out, c))
  {
    ExecutionSound(ys, ms, i);
    var s, done := ys[i].lobby, ys[i].done;
    assert ProcOk(s, done, c, ys[i].procs[c]);
    SentSoFar(s.out, done, c);
  }

  lemma SentSoFar(out: seq<Sent>, done: nat, c: ClientId)
    requires done <= |out|
    ensures Log(out[..done], c) <= Log(out, c)
    ensures done == |out| ==> Log(out[..done], c) == Log(out, c)
  {
    LogConcat(out[..done], out[done..], c);
    assert out[..done] + out[done..] == out;
    if done == |out| {
      assert out[..done] == out;
    }
  }
}
