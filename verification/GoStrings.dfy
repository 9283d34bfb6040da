/** The functions of Go's `strings` and `bufio` packages the server calls, over sequences of characters. */
module GoStrings {

  datatype Option<+T> = None | Some(value: T)

  /** `strings.HasPrefix`. */
  predicate HasPrefix(s: string, prefix: string) {
    prefix <= s
  }

  /** `strings.TrimPrefix`: drops one leading `prefix`, or nothing. */
  function TrimPrefix(s: string, prefix: string): string {
    if prefix <= s then s[|prefix|..] else s
  }

  /** `strings.TrimSuffix` with the one-character suffix the server uses. */
  function TrimNewline(s: string): string {
    if s != [] && s[|s| - 1] == '\n' then s[..|s| - 1] else s
  }

  /** Position of the first newline, or the length of `s` when there is none. */
  function LineEnd(s: string): (n: nat)
    ensures n <= |s|
    ensures '\n' !in s[..n]
    ensures n < |s| ==> s[n] == '\n'
  {
    if s == [] || s[0] == '\n' then 0
    else
      var n := LineEnd(s[1..]);
      assert s[..n + 1] == [s[0]] + s[1..][..n];
      n + 1
  }

  /** `bufio.Reader.ReadString('\n')` on the bytes still to come: the text up to and including the
      first newline together with what follows it, or `None` when the stream ends first. */
  function ReadString(input: string): Option<(string, string)> {
    var n := LineEnd(input);
    if n == |input| then None else Some((input[..n + 1], input[n + 1..]))
  }

  /** Every complete line of a stream, in order and without its newline; an unfinished last line is
      not part of it. */
  function Lines(input: string): seq<string>
    decreases |input|
  {
    var n := LineEnd(input);
    if n == |input| then [] else [input[..n]] + Lines(input[n + 1..])
  }

  /** One read followed by the newline trim yields exactly the next complete line, which contains no
      newline, and a read fails exactly when no complete line is left. */
  lemma ReadYieldsNextLine(input: string)
    ensures ReadString(input).None? <==> Lines(input) == []
    ensures ReadString(input).Some? ==>
              var (str, rest) := ReadString(input).value;
              && str + rest == input
              && '\n' !in TrimNewline(str)
              && Lines(input) == [TrimNewline(str)] + Lines(rest)
  {
    var n := LineEnd(input);
    if n < |input| {
      assert input[..n + 1][..n] == input[..n];
    }
  }

  /** The first read of a stream that begins with a complete line. */
  lemma ReadLine(line: string, rest: string)
    requires '\n' !in line
    ensures ReadString(line + "\n" + rest) == Some((line + "\n", rest))
  {
    var input := line + "\n" + rest;
    assert input[|line|] == '\n' && input[..|line|] == line;
    assert input[..|line| + 1] == line + "\n" && input[|line| + 1..] == rest;
  }

  lemma TrimNewlineNoop(s: string)
    requires '\n' !in s
    ensures TrimNewline(s) == s
  {
    if s != [] {
      assert s[|s| - 1] in s;
    }
  }
}
