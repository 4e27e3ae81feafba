/**
 * Reading a file as lines. A line ends at "\n", at "\r" or at "\r\n", and the
 * terminator is not part of it; a last line without terminator is still a line when
 * it is not empty, and reading stops at the first empty read at the end of the text.
 */
module LineReader {

  predicate IsLineEnd(c: char) { c == '\n' || c == '\r' }

  predicate NoLineEnds(t: string) { forall i :: 0 <= i < |t| ==> !IsLineEnd(t[i]) }

  /** Reference definition of the lines of `rest`, `current` being the line read so far. */
  function Split(current: string, rest: string): seq<string>
    decreases |rest|
  {
    if rest == [] then (if current == [] then [] else [current])
    else if rest[0] == '\n' then [current] + Split([], rest[1..])
    else if rest[0] == '\r' then
      [current] + Split([], if |rest| > 1 && rest[1] == '\n' then rest[2..] else rest[1..])
    else Split(current + [rest[0]], rest[1..])
  }

  /** The lines of a whole text, in order. */
  function Lines(text: string): seq<string> { Split([], text) }

  /**
   * Reads one line from position `pos`: the characters up to the next terminator,
   * which is consumed too ("\r\n" as one). `eof` is reported only when nothing at all
   * was left to read.
   */
  method GetLine(text: string, pos: nat) returns (line: string, next: nat, eof: bool)
    requires pos <= |text|
    ensures pos <= next <= |text|
    ensures eof <==> pos == |text|
    ensures eof ==> line == [] && next == pos
    ensures !eof ==> pos < next
    ensures NoLineEnds(line)
    ensures Lines(text[pos..]) == if eof then [] else [line] + Lines(text[next..])
  {
    line := [];
    var p := pos;
    while true
      invariant pos <= p <= |text|
      invariant line == text[pos..p]
      invariant NoLineEnds(line)
      invariant Lines(text[pos..]) == Split(line, text[p..])
      decreases |text| - p
    {
      assert p < |text| ==> text[p..][0] == text[p] && text[p..][1..] == text[p + 1..];
      if p == |text| {
        eof := line == [];
        next := p;
        return;
      }
      var c := text[p];
      p := p + 1;
      if c == '\n' {
        eof, next := false, p;
        return;
      }
      if c == '\r' {
        if p < |text| && text[p] == '\n' {
          assert text[p - 1..][2..] == text[p + 1..];
          p := p + 1;
        }
        eof, next := false, p;
        return;
      }
      assert text[pos..p] == line + [c];
      line := line + [c];
    }
  }

  /** Collects the lines of `text` by calling GetLine until it reports the end. */
  method ReadLines(text: string) returns (lines: seq<string>)
    ensures lines == Lines(text)
  {
    lines := [];
    var pos := 0;
    assert text[pos..] == text;
    while true
      invariant pos <= |text|
      invariant lines + Lines(text[pos..]) == Lines(text)
      decreases |text| - pos
    {
      var line, next, eof := GetLine(text, pos);
      if eof {
        return;
      }
      lines := lines + [line];
      pos := next;
    }
  }

  /** Each line followed by the terminator `eol`. */
  function Joined(ls: seq<string>, eol: string): string
  {
    if ls == [] then [] else ls[0] + eol + Joined(ls[1..], eol)
  }

  predicate IsTerminator(eol: string) { eol == "\n" || eol == "\r" || eol == "\r\n" }

  /** A line without terminator characters, followed by a terminator, is read back whole. */
  lemma {:induction false} OneLine(current: string, l: string, eol: string, rest: string)
    requires NoLineEnds(l) && IsTerminator(eol)
    requires eol == "\r" ==> rest == [] || rest[0] != '\n'
    ensures Split(current, l + eol + rest) == [current + l] + Split([], rest)
    decreases |l|
  {
    var t := l + eol + rest;
    if l == [] {
      assert t == eol + rest;
      assert current + l == current;
      if eol == "\r\n" {
        assert t[0] == '\r' && |t| > 1 && t[1] == '\n' && t[2..] == rest;
      } else {
        assert t[0] == eol[0] && t[1..] == rest;
      }
    } else {
      assert t[0] == l[0] && t[1..] == l[1..] + eol + rest;
      OneLine(current + [l[0]], l[1..], eol, rest);
      assert current + [l[0]] + l[1..] == current + l;
    }
  }

  /** Lines written out with any one terminator are read back exactly, empty lines included. */
  lemma {:induction false} LinesRoundTrip(ls: seq<string>, eol: string)
    requires IsTerminator(eol)
    requires forall i :: 0 <= i < |ls| ==> NoLineEnds(ls[i])
    ensures Lines(Joined(ls, eol)) == ls
  {
    if ls != [] {
      var rest := Joined(ls[1..], eol);
      if eol == "\r" && rest != [] {
        assert ls[1..] != [];
        if ls[1] == [] {
          assert rest == eol + Joined(ls[2..], eol);
        } else {
          assert rest[0] == ls[1][0];
        }
      }
      OneLine([], ls[0], eol, rest);
      assert [] + ls[0] == ls[0];
      LinesRoundTrip(ls[1..], eol);
    }
  }

  /** A last line without a terminator is delivered too. */
  lemma {:induction false} UnterminatedLastLine(current: string, last: string)
    requires NoLineEnds(last) && current + last != []
    ensures Split(current, last) == [current + last]
    decreases |last|
  {
    if last == [] {
      assert current + last == current;
    } else {
      UnterminatedLastLine(current + [last[0]], last[1..]);
      assert current + [last[0]] + last[1..] == current + last;
    }
  }
}
