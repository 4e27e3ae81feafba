/**
 * The line tokenizer of the dataset reader. Outside quotes a space, ',', '{' or '}'
 * ends the current token and is dropped; a quote character (' or ") also ends the
 * current token and opens a quoted span, which the next quote character of either
 * kind closes. A quoted span is one token even when it is empty; any text left after
 * the last delimiter is a final token.
 */
module Tokenizer {

  predicate IsQuote(c: char) { c == '\'' || c == '"' }

  predicate IsDelimiter(c: char) { c == ' ' || c == ',' || c == '{' || c == '}' }

  predicate IsSpecial(c: char) { IsQuote(c) || IsDelimiter(c) }

  /** Text with no quote character. */
  predicate NoQuotes(t: string) { forall i :: 0 <= i < |t| ==> !IsQuote(t[i]) }

  /** Text with neither a quote character nor a delimiter. */
  predicate Plain(t: string) { forall i :: 0 <= i < |t| ==> !IsSpecial(t[i]) }

  /** A token together with whether it was read inside a quoted span. */
  datatype Span = Span(text: string, quoted: bool)

  /** The text collected so far, as a token if it is not empty. */
  function Flush(pending: string, quoted: bool): seq<Span>
  {
    if pending == [] then [] else [Span(pending, quoted)]
  }

  /**
   * Reference definition of the tokenizer, one character at a time: `quoted` says
   * whether a quoted span is open, `pending` is the text of the token being read and
   * `rest` the characters not yet looked at.
   */
  function Scan(quoted: bool, pending: string, rest: string): seq<Span>
    decreases |rest|
  {
    if rest == [] then Flush(pending, quoted)
    else if quoted then
      if IsQuote(rest[0]) then [Span(pending, true)] + Scan(false, [], rest[1..])
      else Scan(true, pending + [rest[0]], rest[1..])
    else if IsSpecial(rest[0]) then Flush(pending, false) + Scan(IsQuote(rest[0]), [], rest[1..])
    else Scan(false, pending + [rest[0]], rest[1..])
  }

  function Spans(s: string): seq<Span> { Scan(false, [], s) }

  function Texts(spans: seq<Span>): seq<string>
  {
    if spans == [] then [] else [spans[0].text] + Texts(spans[1..])
  }

  /** The tokens of a line, in order. */
  function Tokens(s: string): seq<string> { Texts(Spans(s)) }

  lemma {:induction false} TextsAppend(a: seq<Span>, b: seq<Span>)
    ensures Texts(a + b) == Texts(a) + Texts(b)
  {
    if a == [] {
      assert a + b == b;
    } else {
      assert (a + b)[0] == a[0] && (a + b)[1..] == a[1..] + b;
      TextsAppend(a[1..], b);
    }
  }

  /** One character of the loop below, in terms of the reference definition. */
  lemma TokenizeStep(s: string, start: nat, i: nat, quote: bool)
    requires start <= i < |s|
    ensures Texts(Scan(quote, s[start..i], s[i..])) ==
            if quote then
              if IsQuote(s[i]) then [s[start..i]] + Texts(Scan(false, s[i + 1..i + 1], s[i + 1..]))
              else Texts(Scan(true, s[start..i + 1], s[i + 1..]))
            else if IsSpecial(s[i]) then
              (if i - start > 0 then [s[start..i]] else []) + Texts(Scan(IsQuote(s[i]), s[i + 1..i + 1], s[i + 1..]))
            else Texts(Scan(false, s[start..i + 1], s[i + 1..]))
  {
    var pending := s[start..i];
    assert s[i..] != [] && s[i..][0] == s[i] && s[i..][1..] == s[i + 1..];
    assert pending + [s[i]] == s[start..i + 1];
    assert s[i + 1..i + 1] == [];
    if quote {
      if IsQuote(s[i]) {
        TextsAppend([Span(pending, true)], Scan(false, [], s[i + 1..]));
      }
    } else if IsSpecial(s[i]) {
      TextsAppend(Flush(pending, false), Scan(IsQuote(s[i]), [], s[i + 1..]));
    }
  }

  lemma {:induction false} TextsAt(spans: seq<Span>)
    ensures |Texts(spans)| == |spans|
    ensures forall k :: 0 <= k < |spans| ==> Texts(spans)[k] == spans[k].text
  {
    if spans != [] {
      TextsAt(spans[1..]);
    }
  }

  /** The tokenizer as a loop over character positions, with a start index and a quote flag. */
  method Tokenize(s: string) returns (tokens: seq<string>)
    ensures tokens == Tokens(s)
  {
    tokens := [];
    var start := 0;
    var quote := false;
    var i := 0;
    while i < |s|
      invariant 0 <= start <= i <= |s|
      invariant tokens + Texts(Scan(quote, s[start..i], s[i..])) == Tokens(s)
    {
      TokenizeStep(s, start, i, quote);
      if quote {
        if IsQuote(s[i]) {
          quote := false;
          tokens := tokens + [s[start..i]];
          start := i + 1;
        }
      } else {
        if IsQuote(s[i]) {
          quote := true;
        }
        // the opening quote falls through to the delimiter case
        if IsQuote(s[i]) || IsDelimiter(s[i]) {
          if i - start > 0 {
            tokens := tokens + [s[start..i]];
          }
          start := i + 1;
        }
      }
      i := i + 1;
    }
    assert s[i..] == [] && s[start..i] == s[start..];
    assert Scan(quote, s[start..i], s[i..]) == Flush(s[start..], quote);
    if start != |s| {
      tokens := tokens + [s[start..]];
    }
  }

  /** No token contains a quote character; a token read outside quotes is non-empty and has no delimiter. */
  lemma {:induction false} ScanShape(quoted: bool, pending: string, rest: string)
    requires NoQuotes(pending) && (!quoted ==> Plain(pending))
    ensures forall k :: 0 <= k < |Scan(quoted, pending, rest)| ==>
              var sp := Scan(quoted, pending, rest)[k];
              NoQuotes(sp.text) && (!sp.quoted ==> sp.text != [] && Plain(sp.text))
    decreases |rest|
  {
    if rest != [] {
      var c := rest[0];
      if quoted {
        if IsQuote(c) {
          ScanShape(false, [], rest[1..]);
        } else {
          ScanShape(true, pending + [c], rest[1..]);
        }
      } else if IsSpecial(c) {
        ScanShape(IsQuote(c), [], rest[1..]);
      } else {
        ScanShape(false, pending + [c], rest[1..]);
      }
    }
  }

  lemma SpanShape(s: string)
    ensures forall k :: 0 <= k < |Spans(s)| ==>
              NoQuotes(Spans(s)[k].text) &&
              (!Spans(s)[k].quoted ==> Spans(s)[k].text != [] && Plain(Spans(s)[k].text))
  {
    ScanShape(false, [], s);
  }

  /** Hence no token of any line contains ' or ". */
  lemma TokensHaveNoQuotes(s: string)
    ensures forall k :: 0 <= k < |Tokens(s)| ==> NoQuotes(Tokens(s)[k])
  {
    SpanShape(s);
    TextsAt(Spans(s));
  }

  /** Inside an open quoted span, everything up to the next quote joins the pending token. */
  lemma {:induction false} ClosingQuote(pending: string, x: string, close: char, rest: string)
    requires NoQuotes(x) && IsQuote(close)
    ensures Scan(true, pending, x + [close] + rest) == [Span(pending + x, true)] + Scan(false, [], rest)
    decreases |x|
  {
    var t := x + [close] + rest;
    if x == [] {
      assert t[0] == close && t[1..] == rest;
      assert pending + x == pending;
    } else {
      assert t[0] == x[0] && t[1..] == x[1..] + [close] + rest;
      ClosingQuote(pending + [x[0]], x[1..], close, rest);
      assert pending + [x[0]] + x[1..] == pending + x;
    }
  }

  /** A quoted span is exactly one token, even when it is empty. */
  lemma QuotedSpanIsOneToken(pending: string, open: char, x: string, close: char, rest: string)
    requires IsQuote(open) && IsQuote(close) && NoQuotes(x)
    ensures Scan(false, pending, [open] + x + [close] + rest)
            == Flush(pending, false) + [Span(x, true)] + Scan(false, [], rest)
  {
    var t := [open] + x + [close] + rest;
    assert t[0] == open && t[1..] == x + [close] + rest;
    ClosingQuote([], x, close, rest);
    assert [] + x == x;
  }

  /** Text without specials joins the pending token. */
  lemma {:induction false} PlainPrefix(pending: string, w: string, rest: string)
    requires Plain(w)
    ensures Scan(false, pending, w + rest) == Scan(false, pending + w, rest)
    decreases |w|
  {
    if w == [] {
      assert w + rest == rest && pending + w == pending;
    } else {
      var t := w + rest;
      assert t[0] == w[0] && t[1..] == w[1..] + rest;
      PlainPrefix(pending + [w[0]], w[1..], rest);
      assert pending + [w[0]] + w[1..] == pending + w;
    }
  }

  /** At the end of the line, the pending token and the text after it are emitted as one token. */
  lemma PlainTail(pending: string, t: string)
    requires Plain(t)
    ensures Scan(false, pending, t) == Flush(pending + t, false)
  {
    PlainPrefix(pending, t, []);
    assert t + [] == t;
  }

  /** A word followed by a delimiter is one token, and what follows is read afresh. */
  lemma WordThenDelimiter(pending: string, w: string, d: char, rest: string)
    requires Plain(w) && IsDelimiter(d)
    ensures Scan(false, pending, w + [d] + rest) == Flush(pending + w, false) + Scan(false, [], rest)
  {
    PlainPrefix(pending, w, [d] + rest);
    assert w + [d] + rest == w + ([d] + rest);
    ScanDelimiter(pending + w, d, rest);
  }

  /** A line of two words separated by one delimiter gives these two tokens. */
  lemma TwoWords(a: string, d: char, b: string)
    requires Plain(a) && Plain(b) && a != [] && b != [] && IsDelimiter(d)
    ensures Tokens(a + [d] + b) == [a, b]
  {
    WordThenDelimiter([], a, d, b);
    PlainTail([], b);
    assert [] + a == a && [] + b == b;
    TextsAt([Span(a, false), Span(b, false)]);
  }

  /** A line of three words separated by delimiters gives these three tokens. */
  lemma ThreeWords(a: string, d: char, b: string, e: char, c: string)
    requires Plain(a) && Plain(b) && Plain(c) && a != [] && b != [] && c != []
    requires IsDelimiter(d) && IsDelimiter(e)
    ensures Tokens(a + [d] + b + [e] + c) == [a, b, c]
  {
    assert a + [d] + b + [e] + c == a + [d] + (b + [e] + c);
    WordThenDelimiter([], a, d, b + [e] + c);
    WordThenDelimiter([], b, e, c);
    PlainTail([], c);
    assert [] + a == a && [] + b == b && [] + c == c;
    var spans := Spans(a + [d] + b + [e] + c);
    assert spans == [Span(a, false)] + ([Span(b, false)] + [Span(c, false)]);
    TextsAt(spans);
    var r := Texts(spans);
    assert |r| == 3 && r[0] == a && r[1] == b && r[2] == c;
  }

  /** A line with no delimiter and no quote is one token, or none when it is empty. */
  lemma PlainLine(s: string)
    requires Plain(s)
    ensures Tokens(s) == if s == [] then [] else [s]
  {
    PlainTail([], s);
    assert [] + s == s;
    assert Texts([Span(s, false)]) == [s];
  }

  /** Whether `a` holds an odd number of quote characters: each quote opens or closes a span. */
  predicate OddQuotes(a: string)
    decreases |a|
  {
    if a == [] then false else IsQuote(a[0]) != OddQuotes(a[1..])
  }

  /**
   * A delimiter read outside quotes closes everything before it: the tokens of the
   * rest of the line are read afresh and added at the end. The delimiter after `a` is
   * outside quotes exactly when the quotes of `a` close the span `quoted` says is open,
   * and leave none open.
   */
  lemma {:induction false} RestartAfterDelimiter(quoted: bool, pending: string, a: string, d: char, rest: string)
    requires IsDelimiter(d) && quoted == OddQuotes(a)
    ensures Scan(quoted, pending, a + [d] + rest) == Scan(quoted, pending, a + [d]) + Scan(false, [], rest)
    decreases |a|
  {
    var t := a + [d] + rest;
    var u := a + [d];
    if a == [] {
      assert t[0] == d && t[1..] == rest;
      assert u[0] == d && u[1..] == [];
    } else {
      assert t[0] == a[0] && t[1..] == a[1..] + [d] + rest;
      assert u[0] == a[0] && u[1..] == a[1..] + [d];
      if quoted {
        if IsQuote(a[0]) {
          RestartAfterDelimiter(false, [], a[1..], d, rest);
        } else {
          RestartAfterDelimiter(true, pending + [a[0]], a[1..], d, rest);
        }
      } else if IsSpecial(a[0]) {
        RestartAfterDelimiter(IsQuote(a[0]), [], a[1..], d, rest);
      } else {
        RestartAfterDelimiter(false, pending + [a[0]], a[1..], d, rest);
      }
    }
  }

  /**
   * Text after the last delimiter of a line is its final token, whenever that
   * delimiter is read outside quotes (an even number of quotes before it).
   */
  lemma TrailingText(a: string, d: char, t: string)
    requires !OddQuotes(a) && IsDelimiter(d) && Plain(t) && t != []
    ensures Tokens(a + [d] + t) == Tokens(a + [d]) + [t]
  {
    RestartAfterDelimiter(false, [], a, d, t);
    PlainTail([], t);
    assert [] + t == t;
    TextsAppend(Spans(a + [d]), [Span(t, false)]);
  }

  /** The data row `'a b',c`: a quoted field, then the trailing class value. */
  lemma QuotedFieldThenValue(s: string)
    requires s == "'a b',c"
    ensures Tokens(s) == ["a b", "c"]
  {
    var a := "'a b'";
    assert s == a + [','] + "c";
    assert a[5..] == [] && a[4..][1..] == a[5..];
    assert OddQuotes(a[4..]);
    assert a[3..][1..] == a[4..] && a[2..][1..] == a[3..] && a[1..][1..] == a[2..];
    assert OddQuotes(a[3..]) && OddQuotes(a[2..]) && OddQuotes(a[1..]);
    assert !OddQuotes(a);
    TrailingText(a, ',', "c");
    ClosingQuote([], "a b", '\'', [',']);
    QuotedSpanIsOneToken([], '\'', "a b", '\'', [',']);
    assert a + [','] == ['\''] + "a b" + ['\''] + [','];
    ScanDelimiter([], ',', []);
    assert Spans(a + [',']) == [Span("a b", true)];
    assert Texts([Span("a b", true)]) == ["a b"];
  }

  /** The empty quoted span '' is the single empty token. */
  lemma EmptyQuotes()
    ensures Tokens("''") == [""]
  {
    QuotedSpanIsOneToken([], '\'', [], '\'', []);
    assert [] + [] + ['\''] + [] == "'";
    assert ['\''] + [] + ['\''] + [] == "''";
  }

  lemma ScanOrdinary(pending: string, c: char, rest: string)
    requires !IsSpecial(c)
    ensures Scan(false, pending, [c] + rest) == Scan(false, pending + [c], rest)
  {
    assert ([c] + rest)[0] == c && ([c] + rest)[1..] == rest;
  }

  lemma ScanDelimiter(pending: string, d: char, rest: string)
    requires IsDelimiter(d)
    ensures Scan(false, pending, [d] + rest) == Flush(pending, false) + Scan(false, [], rest)
  {
    assert ([d] + rest)[0] == d && ([d] + rest)[1..] == rest;
  }

  /** The example line below starts with the token a; the rest is read afresh. */
  lemma ExampleHead(rest: string)
    ensures Scan(false, [], ['a'] + ([','] + ([' '] + rest))) == [Span("a", false)] + Scan(false, [], rest)
  {
    ScanOrdinary([], 'a', [','] + ([' '] + rest));
    assert [] + ['a'] == "a";
    ScanDelimiter("a", ',', [' '] + rest);
    ScanDelimiter([], ' ', rest);
  }

  /** ... and ends with  , {d}  which gives the one token d. */
  lemma ExampleTail(t: string)
    requires t == [','] + ([' '] + (['{'] + (['d'] + (['}'] + []))))
    ensures Scan(false, [], t) == [Span("d", false)]
  {
    var tail := ['}'] + [];
    ScanDelimiter([], ',', [' '] + (['{'] + (['d'] + tail)));
    ScanDelimiter([], ' ', ['{'] + (['d'] + tail));
    ScanDelimiter([], '{', ['d'] + tail);
    ScanOrdinary([], 'd', tail);
    assert [] + ['d'] == "d";
    ScanDelimiter("d", '}', []);
  }

  /** The spans of the example line below: a, then the quoted b c, then d. */
  lemma ExampleSpans(s: string)
    requires s == "a, 'b c', {d}"
    ensures Spans(s) == [Span("a", false), Span("b c", true), Span("d", false)]
  {
    var t := [','] + ([' '] + (['{'] + (['d'] + (['}'] + []))));
    var q := ['\''] + "b c" + ['\''] + t;
    assert s == ['a'] + ([','] + ([' '] + q));
    ExampleHead(q);
    QuotedSpanIsOneToken([], '\'', "b c", '\'', t);
    ExampleTail(t);
  }

  /** The line  a, 'b c', {d}  gives exactly the tokens a, b c and d. */
  lemma Example(s: string)
    requires s == "a, 'b c', {d}"
    ensures Tokens(s) == ["a", "b c", "d"]
  {
    ExampleSpans(s);
    var spans := Spans(s);
    TextsAt(spans);
    var r := Texts(spans);
    assert |r| == 3 && r[0] == "a" && r[1] == "b c" && r[2] == "d";
  }
}
