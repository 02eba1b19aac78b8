/**
 * Escaping of text that is embedded in an AppleScript string literal
 * (`escape_for_applescript` in Support/bin/llm_common.py), and a reader for
 * such literals that plays the part of the AppleScript compiler.
 */
module AppleScriptText {
  import opened Wrappers

  const Backslash: char := '\\'
  const Quote: char := '"'

  /** Number of occurrences of `c` in `s`. */
  function Count(s: string, c: char): nat
  {
    if s == [] then 0 else (if s[0] == c then 1 else 0) + Count(s[1..], c)
  }

  /** Python's `s.replace(c, by)` for a one-character pattern `c`. */
  function ReplaceChar(s: string, c: char, with: string): (r: string)
    ensures c !in s ==> r == s
  {
    if s == [] then [] else (if s[0] == c then with else [s[0]]) + ReplaceChar(s[1..], c, with)
  }

  /** The source's two chained replacements: backslashes are doubled first, then quotes are escaped. */
  function Escape(text: string): (r: string)
    ensures Backslash !in text && Quote !in text ==> r == text
  {
    ReplaceChar(ReplaceChar(text, Backslash, [Backslash, Backslash]), Quote, [Backslash, Quote])
  }

  /** Reference definition: what one character becomes inside an AppleScript literal. */
  function EscapeChar(ch: char): string
  {
    if ch == Backslash then [Backslash, Backslash]
    else if ch == Quote then [Backslash, Quote]
    else [ch]
  }

  /** Reference definition: escape a string character by character in a single pass. */
  function EscapeEach(s: string): string
  {
    if s == [] then [] else EscapeChar(s[0]) + EscapeEach(s[1..])
  }

  /** What reading an AppleScript string literal produces: its value and the text after the closing quote. */
  datatype Lexed = Lexed(value: string, rest: string)

  /**
   * Reads the body of an AppleScript string literal, starting just after the
   * opening quote, up to the first quote that no backslash escapes. The escape
   * sequences are `\\`, `\"`, `\n`, `\t` and `\r`; any other escape, a
   * trailing backslash or a missing closing quote is a syntax error (`None`).
   */
  function ReadLiteral(s: string): Option<Lexed>
  {
    if s == [] then None
    else if s[0] == Quote then Some(Lexed([], s[1..]))
    else if s[0] == Backslash then
      if |s| < 2 then None
      else
        var e := s[1];
        var decoded :=
          if e == Backslash || e == Quote then Some(e)
          else if e == 'n' then Some('\n')
          else if e == 't' then Some('\t')
          else if e == 'r' then Some('\r')
          else None;
        if decoded.None? then None else Prepend([decoded.value], ReadLiteral(s[2..]))
    else Prepend([s[0]], ReadLiteral(s[1..]))
  }

  /** Adds `prefix` to the front of the value of a successful read. */
  function Prepend(prefix: string, r: Option<Lexed>): Option<Lexed>
  {
    match r
    case None => None
    case Some(l) => Some(Lexed(prefix + l.value, l.rest))
  }

  /** Replacing a one-character pattern distributes over concatenation. */
  lemma {:induction false} ReplaceCharAppend(a: string, b: string, c: char, with: string)
    ensures ReplaceChar(a + b, c, with) == ReplaceChar(a, c, with) + ReplaceChar(b, c, with)
  {
    if a == [] {
      assert a + b == b;
    } else {
      assert (a + b)[0] == a[0];
      assert (a + b)[1..] == a[1..] + b;
      ReplaceCharAppend(a[1..], b, c, with);
    }
  }

  /** The two chained replacements agree with the single-pass reference on every string. */
  lemma {:induction false} EscapeIsPerCharacter(s: string)
    ensures Escape(s) == EscapeEach(s)
  {
    if s != [] {
      var head := if s[0] == Backslash then [Backslash, Backslash] else [s[0]];
      var tail := ReplaceChar(s[1..], Backslash, [Backslash, Backslash]);
      assert ReplaceChar(s, Backslash, [Backslash, Backslash]) == head + tail;
      ReplaceCharAppend(head, tail, Quote, [Backslash, Quote]);
      if s[0] == Quote {
        assert ReplaceChar(head, Quote, [Backslash, Quote]) == [Backslash, Quote] + ReplaceChar([], Quote, [Backslash, Quote]);
      } else if s[0] != Backslash {
        assert Quote !in head;
      }
      EscapeIsPerCharacter(s[1..]);
    }
  }

  /** Single-pass escaping distributes over concatenation. */
  lemma {:induction false} EscapeEachAppend(a: string, b: string)
    ensures EscapeEach(a + b) == EscapeEach(a) + EscapeEach(b)
  {
    if a == [] {
      assert a + b == b;
    } else {
      assert (a + b)[0] == a[0];
      assert (a + b)[1..] == a[1..] + b;
      EscapeEachAppend(a[1..], b);
    }
  }

  /** Escaping distributes over concatenation. */
  lemma EscapeAppend(a: string, b: string)
    ensures Escape(a + b) == Escape(a) + Escape(b)
  {
    EscapeIsPerCharacter(a + b);
    EscapeIsPerCharacter(a);
    EscapeIsPerCharacter(b);
    EscapeEachAppend(a, b);
  }

  /** Each backslash and each double quote gains exactly one character. */
  lemma {:induction false} EscapeLength(s: string)
    ensures |Escape(s)| == |s| + Count(s, Backslash) + Count(s, Quote)
  {
    EscapeIsPerCharacter(s);
    EscapeEachLength(s);
  }

  lemma {:induction false} EscapeEachLength(s: string)
    ensures |EscapeEach(s)| == |s| + Count(s, Backslash) + Count(s, Quote)
  {
    if s != [] {
      EscapeEachLength(s[1..]);
    }
  }

  /** Reading escaped text followed by more literal text yields the original text in front. */
  lemma {:induction false} ReadEscaped(x: string, tail: string)
    ensures ReadLiteral(Escape(x) + tail) == Prepend(x, ReadLiteral(tail))
  {
    EscapeIsPerCharacter(x);
    ReadEscapedEach(x, tail);
  }

  lemma {:induction false} ReadEscapedEach(x: string, tail: string)
    ensures ReadLiteral(EscapeEach(x) + tail) == Prepend(x, ReadLiteral(tail))
  {
    if x == [] {
      assert EscapeEach(x) + tail == tail;
      PrependNothing(ReadLiteral(tail));
    } else {
      var t := EscapeEach(x[1..]) + tail;
      assert EscapeEach(x) + tail == EscapeChar(x[0]) + t;
      ReadEscapedChar(x[0], t);
      ReadEscapedEach(x[1..], tail);
      PrependTwice([x[0]], x[1..], ReadLiteral(tail));
      assert [x[0]] + x[1..] == x;
    }
  }

  /** One escaped character followed by more literal text reads as that character in front. */
  lemma ReadEscapedChar(c: char, t: string)
    ensures ReadLiteral(EscapeChar(c) + t) == Prepend([c], ReadLiteral(t))
  {
  }

  lemma PrependNothing(r: Option<Lexed>)
    ensures Prepend([], r) == r
  {
    match r
    case None =>
    case Some(l) => assert [] + l.value == l.value;
  }

  lemma PrependTwice(a: string, b: string, r: Option<Lexed>)
    ensures Prepend(a, Prepend(b, r)) == Prepend(a + b, r)
  {
    match r
    case None =>
    case Some(l) => assert a + (b + l.value) == (a + b) + l.value;
  }

  /**
   * Escaped text placed between quotes reads back as exactly the original text,
   * and the literal ends at the closing quote that follows it: nothing in the
   * escaped text can close the literal early, whatever comes after it.
   */
  lemma LiteralRoundTrip(x: string, rest: string)
    ensures ReadLiteral(Escape(x) + [Quote] + rest) == Some(Lexed(x, rest))
  {
    ReadEscaped(x, [Quote] + rest);
    assert Escape(x) + [Quote] + rest == Escape(x) + ([Quote] + rest);
    assert ([Quote] + rest)[1..] == rest;
    assert x + [] == x;
  }

  /** Distinct texts escape to distinct literals. */
  lemma EscapeInjective(a: string, b: string)
    requires Escape(a) == Escape(b)
    ensures a == b
  {
    LiteralRoundTrip(a, []);
    LiteralRoundTrip(b, []);
  }

  /**
   * The order of the two replacements matters: escaping quotes first and
   * doubling backslashes second turns `"` into `\\"`, which AppleScript reads
   * as a backslash followed by the end of the literal.
   */
  lemma QuotesFirstBreaksLiteral()
    ensures var wrongOrder := ReplaceChar(ReplaceChar([Quote], Quote, [Backslash, Quote]), Backslash, [Backslash, Backslash]);
            ReadLiteral(wrongOrder + [Quote]) == Some(Lexed([Backslash], [Quote]))
  {
    var once := ReplaceChar([Quote], Quote, [Backslash, Quote]);
    assert once == [Backslash, Quote] + ReplaceChar([], Quote, [Backslash, Quote]);
    var twice := ReplaceChar(once, Backslash, [Backslash, Backslash]);
    ReplaceCharAppend([Backslash], [Quote], Backslash, [Backslash, Backslash]);
    assert [Backslash, Quote] == [Backslash] + [Quote];
    assert ReplaceChar([Backslash], Backslash, [Backslash, Backslash]) == [Backslash, Backslash] + ReplaceChar([], Backslash, [Backslash, Backslash]);
    assert twice == [Backslash, Backslash, Quote];
    var s := twice + [Quote];
    assert s == [Backslash, Backslash, Quote, Quote];
    assert s[2..] == [Quote, Quote];
    assert s[2..][1..] == [Quote];
    assert ReadLiteral(s[2..]) == Some(Lexed([], [Quote]));
    assert ReadLiteral(s) == Prepend([Backslash], ReadLiteral(s[2..]));
    assert [Backslash] + [] == [Backslash];
  }
}
