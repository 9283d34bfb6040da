/** The command line syntax of the server: which handler a line of text reaches, and with what name. */
module Commands {
  import opened GoStrings

  /** The handler a line is dispatched to, with its argument. */
  datatype Command =
    | Create(name: string)
    | LeaveRoom
    | List
    | Join(name: string)
    | Rename(name: string)
    | Help
    | Quit
    | Say

  const CMD_CREATE := "/c"
  const CMD_LIST := "/l"
  const CMD_JOIN := "/j"
  const CMD_LEAVE := "/leave"
  const CMD_HELP := "/h"
  const CMD_NAME := "/n"
  const CMD_QUIT := "/q"

  /** The argument of a command: what follows the command and one space, or the whole line when the
      space is missing. */
  function Argument(line: string, cmd: string): string {
    TrimNewline(TrimPrefix(line, cmd + " "))
  }

  /** The switch of `Lobby.Parse`. Go tries the `default` branch last although it is written first. */
  function Classify(line: string): Command {
    if HasPrefix(line, CMD_CREATE) then Create(Argument(line, CMD_CREATE))
    else if HasPrefix(line, CMD_LEAVE) then LeaveRoom
    else if HasPrefix(line, CMD_LIST) then List
    else if HasPrefix(line, CMD_JOIN) then Join(Argument(line, CMD_JOIN))
    else if HasPrefix(line, CMD_NAME) then Rename(Argument(line, CMD_NAME))
    else if HasPrefix(line, CMD_HELP) then Help
    else if HasPrefix(line, CMD_QUIT) then Quit
    else Say
  }

  // ---------------------------------------------------------------- order of the cases

  /** One `case` of the switch: its prefix and the command it selects for a line. */
  datatype Case = CreateCase | LeaveCase | ListCase | JoinCase | NameCase | HelpCase | QuitCase

  function Prefix(k: Case): string {
    match k
    case CreateCase => CMD_CREATE
    case LeaveCase => CMD_LEAVE
    case ListCase => CMD_LIST
    case JoinCase => CMD_JOIN
    case NameCase => CMD_NAME
    case HelpCase => CMD_HELP
    case QuitCase => CMD_QUIT
  }

  function Select(k: Case, line: string): Command {
    match k
    case CreateCase => Create(Argument(line, CMD_CREATE))
    case LeaveCase => LeaveRoom
    case ListCase => List
    case JoinCase => Join(Argument(line, CMD_JOIN))
    case NameCase => Rename(Argument(line, CMD_NAME))
    case HelpCase => Help
    case QuitCase => Quit
  }

  /** A switch whose cases are tried in the given order. */
  function Dispatch(order: seq<Case>, line: string): Command {
    if order == [] then Say
    else if HasPrefix(line, Prefix(order[0])) then Select(order[0], line)
    else Dispatch(order[1..], line)
  }

  /** An arrangement of the seven cases, each occurring once. */
  ghost predicate Arrangement(order: seq<Case>) {
    && (forall i, j :: 0 <= i < j < |order| ==> order[i] != order[j])
    && (forall k: Case :: k in order)
  }

  /** `a` is tried before `b`. */
  ghost predicate Before(order: seq<Case>, a: Case, b: Case) {
    exists i, j :: 0 <= i < j < |order| && order[i] == a && order[j] == b
  }

  /** Two different cases match the same line only if they are `/leave` and `/l`. */
  lemma OnlyOverlap(a: Case, b: Case, line: string)
    requires a != b && HasPrefix(line, Prefix(a)) && HasPrefix(line, Prefix(b))
    ensures {a, b} == {LeaveCase, ListCase}
    ensures HasPrefix(line, CMD_LEAVE)
  {
    assert Prefix(a)[1] == line[1] == Prefix(b)[1];
  }

  lemma MatchesListCase(k: Case, line: string)
    requires HasPrefix(line, Prefix(k)) && HasPrefix(line, CMD_LIST)
    ensures k == LeaveCase || k == ListCase
  {
    if k != ListCase {
      OnlyOverlap(k, ListCase, line);
    }
  }

  /** A switch picks the first case that matches. */
  lemma {:induction false} DispatchPicks(order: seq<Case>, line: string, i: nat)
    requires i < |order| && HasPrefix(line, Prefix(order[i]))
    requires forall j :: 0 <= j < i ==> !HasPrefix(line, Prefix(order[j]))
    ensures Dispatch(order, line) == Select(order[i], line)
  {
    if i > 0 {
      assert !HasPrefix(line, Prefix(order[0]));
      DispatchPicks(order[1..], line, i - 1);
    }
  }

  lemma {:induction false} DispatchDefault(order: seq<Case>, line: string)
    requires forall k :: k in order ==> !HasPrefix(line, Prefix(k))
    ensures Dispatch(order, line) == Say
  {
    if order != [] {
      assert order[0] in order;
      DispatchDefault(order[1..], line);
    }
  }

  /** The first matching case, if any. */
  lemma FirstMatch(order: seq<Case>, line: string) returns (i: nat)
    requires exists k :: k in order && HasPrefix(line, Prefix(k))
    ensures i < |order| && HasPrefix(line, Prefix(order[i]))
    ensures forall j :: 0 <= j < i ==> !HasPrefix(line, Prefix(order[j]))
  {
    i := 0;
    while !HasPrefix(line, Prefix(order[i]))
      invariant i < |order|
      invariant forall j :: 0 <= j < i ==> !HasPrefix(line, Prefix(order[j]))
      invariant exists j :: i <= j < |order| && HasPrefix(line, Prefix(order[j]))
      decreases |order| - i
    {
      i := i + 1;
    }
  }

  const SOURCE_ORDER: seq<Case> := [CreateCase, LeaveCase, ListCase, JoinCase, NameCase, HelpCase, QuitCase]

  lemma SourceOrderFacts()
    ensures |SOURCE_ORDER| == 7
    ensures Arrangement(SOURCE_ORDER) && Before(SOURCE_ORDER, LeaveCase, ListCase)
  {
    var o := SOURCE_ORDER;
    assert o[0] == CreateCase && o[1] == LeaveCase && o[2] == ListCase && o[3] == JoinCase
        && o[4] == NameCase && o[5] == HelpCase && o[6] == QuitCase;
    forall k: Case ensures k in o {
      match k
      case CreateCase => case LeaveCase => case ListCase => case JoinCase =>
      case NameCase => case HelpCase => case QuitCase =>
    }
  }

  /** Which lines are which command, prefix by prefix; every other line is said to the room. */
  lemma DispatchTable(line: string)
    ensures Classify(line).Create? <==> "/c" <= line
    ensures Classify(line).LeaveRoom? <==> "/leave" <= line
    ensures Classify(line).List? <==> "/l" <= line && !("/leave" <= line)
    ensures Classify(line).Join? <==> "/j" <= line
    ensures Classify(line).Rename? <==> "/n" <= line
    ensures Classify(line).Help? <==> "/h" <= line
    ensures Classify(line).Quit? <==> "/q" <= line
  {
    SecondCharacter("/c", line);
    SecondCharacter("/l", line);
    SecondCharacter("/j", line);
    SecondCharacter("/n", line);
    SecondCharacter("/h", line);
    SecondCharacter("/q", line);
    SecondCharacter("/leave", line);
  }

  lemma SecondCharacter(prefix: string, line: string)
    requires |prefix| >= 2
    ensures prefix <= line ==> |line| >= 2 && line[1] == prefix[1]
  {
  }

  /** The switch of the source picks the first of its cases that matches. */
  lemma ClassifyPicks(line: string, i: nat)
    requires i < |SOURCE_ORDER| && HasPrefix(line, Prefix(SOURCE_ORDER[i]))
    requires forall j :: 0 <= j < i ==> !HasPrefix(line, Prefix(SOURCE_ORDER[j]))
    ensures Classify(line) == Select(SOURCE_ORDER[i], line)
  {
    SourceOrderFacts();
    var o := SOURCE_ORDER;
    assert i > 0 ==> !HasPrefix(line, Prefix(o[0]));
    assert i > 1 ==> !HasPrefix(line, Prefix(o[1]));
    assert i > 2 ==> !HasPrefix(line, Prefix(o[2]));
    assert i > 3 ==> !HasPrefix(line, Prefix(o[3]));
    assert i > 4 ==> !HasPrefix(line, Prefix(o[4]));
    assert i > 5 ==> !HasPrefix(line, Prefix(o[5]));
  }

  lemma ClassifyDefault(line: string)
    requires forall k: Case :: !HasPrefix(line, Prefix(k))
    ensures Classify(line) == Say
  {
    assert !HasPrefix(line, Prefix(CreateCase)) && !HasPrefix(line, Prefix(LeaveCase));
    assert !HasPrefix(line, Prefix(ListCase));
    assert !HasPrefix(line, Prefix(JoinCase)) && !HasPrefix(line, Prefix(NameCase));
    assert !HasPrefix(line, Prefix(HelpCase));
    assert !HasPrefix(line, Prefix(QuitCase));
  }

  /** The switch of the source is the one that tries its cases in the order they are written. */
  lemma SourceOrderIsClassify(line: string)
    ensures Dispatch(SOURCE_ORDER, line) == Classify(line)
  {
    SourceOrderFacts();
    if k: Case :| HasPrefix(line, Prefix(k)) {
      var i := FirstMatch(SOURCE_ORDER, line);
      DispatchPicks(SOURCE_ORDER, line, i);
      ClassifyPicks(line, i);
    } else {
      DispatchDefault(SOURCE_ORDER, line);
      ClassifyDefault(line);
    }
  }

  /** The order of the cases matters only for `/leave` and `/l`: an arrangement dispatches every line
      like the source exactly when it tries `/leave` before `/l`. */
  lemma OrderMatters(order: seq<Case>)
    requires Arrangement(order)
    ensures (forall line :: Dispatch(order, line) == Classify(line)) <==> Before(order, LeaveCase, ListCase)
  {
    if Before(order, LeaveCase, ListCase) {
      SourceOrderFacts();
      forall line ensures Dispatch(order, line) == Classify(line) {
        SameDispatch(order, SOURCE_ORDER, line);
        SourceOrderIsClassify(line);
      }
    } else {
      ListFirstDiffers(order);
    }
  }

  lemma LeaveLeaves()
    ensures Classify(CMD_LEAVE) == LeaveRoom
  {
    assert HasPrefix(CMD_LEAVE, Prefix(LeaveCase));
    SourceOrderFacts();
    if HasPrefix(CMD_LEAVE, Prefix(CreateCase)) {
      OnlyOverlap(LeaveCase, CreateCase, CMD_LEAVE);
    }
    ClassifyPicks(CMD_LEAVE, 1);
  }

  /** With `/l` tried before `/leave`, the line `/leave` lists the rooms. */
  lemma ListFirstDiffers(order: seq<Case>)
    requires Arrangement(order) && !Before(order, LeaveCase, ListCase)
    ensures Dispatch(order, CMD_LEAVE) == List && Classify(CMD_LEAVE) == LeaveRoom
  {
    LeaveLeaves();
    var line := CMD_LEAVE;
    assert HasPrefix(line, Prefix(ListCase)) && HasPrefix(line, Prefix(LeaveCase));
    assert ListCase in order && LeaveCase in order;
    var i := FirstMatch(order, line);
    DispatchPicks(order, line, i);
    var j :| 0 <= j < |order| && order[j] == ListCase;
    var l :| 0 <= l < |order| && order[l] == LeaveCase;
    assert j < l;
    assert i <= j;
    MatchesListCase(order[i], line);
  }

  lemma SameDispatch(o1: seq<Case>, o2: seq<Case>, line: string)
    requires Arrangement(o1) && Before(o1, LeaveCase, ListCase)
    requires Arrangement(o2) && Before(o2, LeaveCase, ListCase)
    ensures Dispatch(o1, line) == Dispatch(o2, line)
  {
    if k: Case :| HasPrefix(line, Prefix(k)) {
      var i := FirstMatch(o1, line);
      var j := FirstMatch(o2, line);
      DispatchPicks(o1, line, i);
      DispatchPicks(o2, line, j);
      if o1[i] != o2[j] {
        OnlyOverlap(o1[i], o2[j], line);
        FirstIsLeave(o1, line, i);
        FirstIsLeave(o2, line, j);
      }
    } else {
      DispatchDefault(o1, line);
      DispatchDefault(o2, line);
    }
  }

  lemma FirstIsLeave(order: seq<Case>, line: string, i: nat)
    requires Arrangement(order) && Before(order, LeaveCase, ListCase)
    requires HasPrefix(line, CMD_LEAVE)
    requires i < |order| && HasPrefix(line, Prefix(order[i]))
    requires forall j :: 0 <= j < i ==> !HasPrefix(line, Prefix(order[j]))
    ensures order[i] == LeaveCase
  {
    var a, b :| 0 <= a < b < |order| && order[a] == LeaveCase && order[b] == ListCase;
    assert HasPrefix(line, Prefix(order[a]));
    if order[i] != LeaveCase {
      OnlyOverlap(order[i], LeaveCase, line);
    }
  }

  // ---------------------------------------------------------------- names

  /** No room is created with a newline in its name by a line without one. */
  lemma NamesHaveNoNewline(line: string)
    requires '\n' !in line
    ensures Classify(line).Create? ==> '\n' !in Classify(line).name
    ensures Classify(line).Join? ==> '\n' !in Classify(line).name
  {
    forall cmd | cmd == CMD_CREATE || cmd == CMD_JOIN ensures '\n' !in Argument(line, cmd) {
      var t := TrimPrefix(line, cmd + " ");
      assert forall k :: 0 <= k < |t| ==> t[k] in line;
      TrimNewlineNoop(t);
    }
  }

  lemma SpaceFollows(cmd: string, s: string)
    ensures cmd + " " <= cmd + s <==> s != [] && s[0] == ' '
  {
    if s != [] {
      assert (cmd + s)[|cmd|] == s[0] && (cmd + " ")[|cmd|] == ' ';
    }
  }

  /** The argument of a command typed without a space is the whole line. */
  lemma SpacelessArgument(cmd: string, s: string)
    requires |cmd| == 2 && (s == [] || s[0] != ' ') && '\n' !in cmd + s
    ensures Argument(cmd + s, cmd) == cmd + s
  {
    SpaceFollows(cmd, s);
    TrimNewlineNoop(cmd + s);
  }

  /** With one space the argument is what follows it, without a newline at the end of the line. */
  lemma SpacedArgument(cmd: string, s: string)
    requires '\n' !in s
    ensures Argument(cmd + (" " + s), cmd) == s
    ensures Argument(cmd + (" " + s) + "\n", cmd) == s
  {
    assert cmd + (" " + s) == (cmd + " ") + s;
    TrimNewlineNoop(s);
    assert cmd + (" " + s) + "\n" == (cmd + " ") + (s + "\n");
    assert (s + "\n")[..|s|] == s;
  }

  lemma JoinLine(t: string)
    ensures Classify(CMD_JOIN + t) == Join(Argument(CMD_JOIN + t, CMD_JOIN))
  {
    assert (CMD_JOIN + t)[1] == 'j';
  }

  lemma CreateLine(s: string)
    ensures Classify(CMD_CREATE + s) == Create(Argument(CMD_CREATE + s, CMD_CREATE))
  {
  }

  /** Typing `/j`, a space and any newline-free name asks to join exactly that name. */
  lemma JoinLineNamesRoom(name: string)
    requires '\n' !in name
    ensures Classify(CMD_JOIN + (" " + name)) == Join(name)
  {
    JoinLine(" " + name);
    SpacedArgument(CMD_JOIN, name);
  }

  /** Typing `/c`, a space and any newline-free name asks to create exactly that name. */
  lemma CreateLineNamesRoom(name: string)
    requires '\n' !in name
    ensures Classify(CMD_CREATE + (" " + name)) == Create(name)
  {
    CreateLine(" " + name);
    SpacedArgument(CMD_CREATE, name);
  }

  lemma RenameLine(s: string)
    ensures Classify(CMD_NAME + s) == Rename(Argument(CMD_NAME + s, CMD_NAME))
  {
    assert (CMD_NAME + s)[1] == 'n';
  }

  /** Typing `/n`, a space and any newline-free name renames to exactly that name; without the space the
      whole line becomes the name. */
  lemma RenameLineNames(s: string)
    requires '\n' !in s
    ensures Classify(CMD_NAME + (" " + s)) == Rename(s)
    ensures s == [] || s[0] != ' ' ==> Classify(CMD_NAME + s) == Rename(CMD_NAME + s)
  {
    RenameLine(" " + s);
    SpacedArgument(CMD_NAME, s);
    RenameLine(s);
    if s == [] || s[0] != ' ' {
      SpacelessArgument(CMD_NAME, s);
    }
  }

  /** A line `/c` followed by anything but a space keeps its command in the room's name. */
  lemma SpacelessCreate(s: string)
    requires (s == [] || s[0] != ' ') && '\n' !in s
    ensures Classify(CMD_CREATE + s) == Create(CMD_CREATE + s)
  {
    CreateLine(s);
    SpacelessArgument(CMD_CREATE, s);
  }

  /** A line `/j` followed by anything but a space asks for a room with the command in its name. */
  lemma SpacelessJoin(s: string)
    requires (s == [] || s[0] != ' ') && '\n' !in s
    ensures Classify(CMD_JOIN + s) == Join(CMD_JOIN + s)
  {
    JoinLine(s);
    SpacelessArgument(CMD_JOIN, s);
  }

  /** Among the `/j` lines exactly `/j /c...`, with the space, asks for such a room's name again. */
  lemma SpacelessRoomReachable(s: string, t: string)
    requires '\n' !in s && '\n' !in t
    ensures Classify(CMD_JOIN + t) == Join(CMD_CREATE + s) <==> t == " " + (CMD_CREATE + s)
  {
    JoinLine(t);
    var name := CMD_CREATE + s;
    if t != [] && t[0] == ' ' {
      assert t == " " + t[1..];
      SpacedArgument(CMD_JOIN, t[1..]);
      assert (" " + name)[1..] == name;
    } else {
      SpacelessArgument(CMD_JOIN, t);
      assert (CMD_JOIN + t)[1] == 'j' && name[1] == 'c';
      assert (" " + name)[0] == ' ';
    }
  }
}
