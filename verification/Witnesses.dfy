/** Executions that end badly: the server blocked for good by one client, and a client refused. */
module Witnesses {
  import opened GoStrings
  import opened LobbyModel
  import opened Goroutines
  import opened Progress
  import opened Audiences
  import opened Blocking
  import opened Settling
  import opened Endings
  import Commands

  // ---------------------------------------------------------------- one client alone

  lemma PlainLines()
    ensures Commands.Classify("x") == Commands.Say && '\n' !in "x"
    ensures Commands.Classify(Commands.CMD_QUIT) == Commands.Quit && '\n' !in Commands.CMD_QUIT
    ensures Commands.Classify(Commands.CMD_HELP) == Commands.Help && '\n' !in Commands.CMD_HELP
  {
  }

  /** The only client of the server, in no room, with nothing on its way. */
  predicate Alone(y: System, rest: string, hungUp: bool, writer: Writer) {
    && Idle(y) && y.lobby.names == map[]
    && y.lobby.clients.Keys == {0} && y.lobby.clients[0].room.None? && y.lobby.clients[0].link == Attached
    && y.lobby.clients[0].hungUp == hungUp
    && y.procs.Keys == {0} && y.procs[0].rest == rest && y.procs[0].writer == writer
    && y.procs[0].reader.Reading? && y.procs[0].forwarder.Receiving?
  }

  lemma FirstClient(stream: string) returns (ys: seq<System>, ms: seq<Move>)
    ensures IsExecution(ys, ms)
    ensures var y := ys[|ys| - 1];
            Guard(y, Flush(0)) && Guard(y, WriteError(0)) && Ready(y, Flush(0)) && Ready(y, WriteError(0))
    ensures var y := ys[|ys| - 1];
            Alone(Apply(y, Flush(0)), stream, false, Waiting) && Alone(Apply(y, WriteError(0)), stream, false, Failed)
  {
    ys, ms := [Boot(0)], [];
    ys, ms := Follow(ys, ms, Connect(0, stream));
    ys, ms := Follow(ys, ms, Admit(0));
    var y2 := ys[|ys| - 1];
    assert Stream(0, Privately([Welcome])) == [Sent(0, Private(Welcome))];
    assert y2.lobby.out == [Sent(0, Private(Welcome))];
    ys, ms := Follow(ys, ms, Transmit);
  }

  /** The client's next line arrives and is on offer to the lobby. */
  lemma LineArrives(ys: seq<System>, ms: seq<Move>, line: string, rest: string, hungUp: bool, writer: Writer)
    returns (zs: seq<System>, ns: seq<Move>)
    requires IsExecution(ys, ms) && '\n' !in line
    requires Alone(ys[|ys| - 1], line + "\n" + rest, hungUp, writer)
    ensures IsExecution(zs, ns)
    ensures var y := zs[|zs| - 1];
            && y.lobby == ys[|ys| - 1].lobby && y.done == ys[|ys| - 1].done && Idle(y)
            && y.procs.Keys == {0} && y.procs[0].rest == rest && y.procs[0].writer == writer
            && y.procs[0].reader.Reading? && y.procs[0].forwarder.Forwarding?
            && y.procs[0].forwarder.message.line == line
  {
    ReadLine(line, rest);
    TrimmedLine(line);
    zs, ns := Follow(ys, ms, Read(0));
    zs, ns := Follow(zs, ns, HandOver(0));
  }

  lemma TrimmedLine(line: string)
    ensures TrimNewline(line + "\n") == line
  {
    assert (line + "\n")[..|line|] == line;
  }

  /** A client whose connection is lost while it still has a line on its way blocks the lobby for good. */
  lemma LostConnectionBlocks() returns (ys: seq<System>, ms: seq<Move>)
    ensures IsExecution(ys, ms) && Doomed(ys[|ys| - 1])
  {
    PlainLines();
    ys, ms := FirstClient("x" + "\n" + "");
    ys, ms := Follow(ys, ms, WriteError(0));
    ys, ms := LineArrives(ys, ms, "x", "", false, Failed);
    assert Enumerates([], ys[|ys| - 1].lobby.names);
    ExecutionSound(ys, ms, |ys| - 1);
    ys, ms := TakesUp(ys, ms, []);
  }

  /** The lobby has hung up on the client. */
  lemma HungUpNow(ys: seq<System>, ms: seq<Move>, rest: string) returns (zs: seq<System>, ns: seq<Move>)
    requires IsExecution(ys, ms)
    requires Alone(ys[|ys| - 1], Commands.CMD_QUIT + "\n" + rest, false, Waiting)
    ensures IsExecution(zs, ns) && Alone(zs[|zs| - 1], rest, true, Waiting)
  {
    PlainLines();
    zs, ns := LineArrives(ys, ms, Commands.CMD_QUIT, rest, false, Waiting);
    assert Enumerates([], zs[|zs| - 1].lobby.names);
    zs, ns := Follow(zs, ns, Handle(0, []));
  }

  /** So does a client that sends `/q` and `/h` at once, although no connection has failed: the server closes
      the connection on `/q`, and then has ten texts for a writer that takes but one. */
  lemma QuitThenHelpBlocks() returns (ys: seq<System>, ms: seq<Move>)
    ensures IsExecution(ys, ms) && |ms| > 0
    ensures var y := ys[|ys| - 2];
            && Idle(y) && ms[|ms| - 1] == Handle(0, [])
            && y.procs.Keys == {0} && y.procs[0].writer.Waiting? && HungUp(y.lobby, 0)
    ensures Doomed(ys[|ys| - 1])
  {
    PlainLines();
    var rest := Commands.CMD_HELP + "\n" + "";
    ys, ms := FirstClient(Commands.CMD_QUIT + "\n" + rest);
    ys, ms := Follow(ys, ms, Flush(0));
    ys, ms := HungUpNow(ys, ms, rest);
    ys, ms := LineArrives(ys, ms, Commands.CMD_HELP, "", true, Waiting);
    assert Enumerates([], ys[|ys| - 1].lobby.names);
    ExecutionSound(ys, ms, |ys| - 1);
    ys, ms := TakesUp(ys, ms, []);
  }

  /** The lobby takes up the line on offer, which has more texts for the client than it can take. */
  lemma TakesUp(ys: seq<System>, ms: seq<Move>, order: seq<string>) returns (zs: seq<System>, ns: seq<Move>)
    requires IsExecution(ys, ms) && Guard(ys[|ys| - 1], Handle(0, order))
    requires Resolved(ys[|ys| - 1].lobby) && 0 in ys[|ys| - 1].lobby.clients
    requires var y := ys[|ys| - 1];
             Overwhelmed(y, 0, LineTexts(y.lobby, 0, Commands.Classify(y.procs[0].forwarder.message.line), 0))
    ensures IsExecution(zs, ns) && ns == ms + [Handle(0, order)]
    ensures |zs| == |ys| + 1 && zs[|zs| - 2] == ys[|ys| - 1] && Doomed(zs[|zs| - 1])
  {
    var y := ys[|ys| - 1];
    ExecutionSound(ys, ms, |ys| - 1);
    DoomedExactlyWhenBlocks(y, Handle(0, order));
    assert Overwhelmed(y, 0, Texts(y.lobby, Effect(y, Handle(0, order)).value, 0));
    zs, ns := Append(ys, ms, Handle(0, order));
  }

  // ---------------------------------------------------------------- a full house

  /** Clients `0` to `n - 1` are in the lobby, and nothing is going on. */
  ghost predicate House(y: System, n: nat) {
    && Idle(y) && |y.lobby.members| == n
    && (forall c :: c in y.lobby.clients <==> 0 <= c < n)
    && (forall c :: 0 <= c < n ==> y.lobby.clients[c].link == Attached)
    && (forall c :: c in y.procs <==> 0 <= c < n)
  }

  lemma OneMore(ys: seq<System>, ms: seq<Move>, n: nat) returns (zs: seq<System>, ns: seq<Move>)
    requires IsExecution(ys, ms) && House(ys[|ys| - 1], n) && n < MAX_CLIENTS
    ensures IsExecution(zs, ns) && House(zs[|zs| - 1], n + 1)
  {
    var out := ys[|ys| - 1].lobby.out;
    zs, ns := Follow(ys, ms, Connect(n, ""));
    zs, ns := Follow(zs, ns, Admit(n));
    assert Stream(n, Privately([Welcome])) == [Sent(n, Private(Welcome))];
    assert zs[|zs| - 1].lobby.out == out + [Sent(n, Private(Welcome))];
    zs, ns := Follow(zs, ns, Transmit);
  }

  lemma {:induction false} Crowd(n: nat) returns (ys: seq<System>, ms: seq<Move>)
    requires n <= MAX_CLIENTS
    ensures IsExecution(ys, ms) && House(ys[|ys| - 1], n)
  {
    if n == 0 {
      ys, ms := [Boot(0)], [];
    } else {
      ys, ms := Crowd(n - 1);
      ys, ms := OneMore(ys, ms, n - 1);
    }
  }

  /** Clients are refused, and some have sent a line before: with the lobby full, the next client is turned
      away after its reader has read one. */
  lemma TurnedAwayWithALine() returns (ys: seq<System>, ms: seq<Move>)
    ensures IsExecution(ys, ms)
    ensures var y, c := ys[|ys| - 1], MAX_CLIENTS;
            TurnedAway(y.lobby, c) && c in y.procs && y.procs[c].reader.Offering?
  {
    PlainLines();
    var c, stream := MAX_CLIENTS, "x" + "\n" + "";
    ReadLine("x", "");
    ys, ms := Crowd(c);
    ys, ms := Follow(ys, ms, Connect(c, stream));
    ys, ms := Follow(ys, ms, Read(c));
    ys, ms := Follow(ys, ms, Admit(c));
  }

  predicate StillOffers(y: System, c: ClientId) {
    c in y.procs && y.procs[c].reader.Offering? && !Departed(y, c)
  }

  /** Such a client is never got rid of: in every continuation its reader still offers the line. */
  lemma TurnedAwayForever() returns (ys: seq<System>, ms: seq<Move>)
    ensures IsExecution(ys, ms)
    ensures forall zs, ns :: IsFragment(zs, ns) && zs[0] == ys[|ys| - 1] ==>
              StillOffers(zs[|zs| - 1], MAX_CLIENTS)
  {
    ys, ms := TurnedAwayWithALine();
    ExecutionSound(ys, ms, |ys| - 1);
    forall zs, ns | IsFragment(zs, ns) && zs[0] == ys[|ys| - 1]
      ensures StillOffers(zs[|zs| - 1], MAX_CLIENTS)
    {
      RefusedReaderOffers(zs, ns, |zs| - 1, MAX_CLIENTS);
    }
  }
}
