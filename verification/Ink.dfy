/**
 How much is written in a text: the characters that are neither blanks nor double quotes.

 Lexing never reads more ink than there is, and printing tokens spends exactly theirs. So a
 text from which ink was taken cannot be read as the tokens that were printed in it.
 */
module Ink {
  import opened Common
  import opened Sql
  import opened Server
  import Sanitize

  predicate Inky(c: char) {
    c != ' ' && c != '"'
  }

  function InkIn(s: string): nat {
    if s == "" then 0 else (if Inky(s[0]) then 1 else 0) + InkIn(s[1..])
  }

  function InkOf(ts: seq<Token>): nat {
    if ts == [] then 0 else InkIn(PrintToken(ts[0])) + InkOf(ts[1..])
  }

  lemma {:induction false} InkConcat(a: string, b: string)
    ensures InkIn(a + b) == InkIn(a) + InkIn(b)
  {
    if a == "" {
      assert a + b == b;
    } else {
      assert (a + b)[1..] == a[1..] + b;
      InkConcat(a[1..], b);
    }
  }

  lemma InkSplit(s: string, n: nat)
    requires n <= |s|
    ensures InkIn(s) == InkIn(s[..n]) + InkIn(s[n..])
  {
    InkConcat(s[..n], s[n..]);
    assert s[..n] + s[n..] == s;
  }

  lemma {:induction false} InkOfConcat(a: seq<Token>, b: seq<Token>)
    ensures InkOf(a + b) == InkOf(a) + InkOf(b)
  {
    if a == [] {
      assert a + b == b;
    } else {
      assert (a + b)[1..] == a[1..] + b;
      InkOfConcat(a[1..], b);
    }
  }

  lemma {:induction false} InkOfFold(w: string)
    requires AllWordParts(w)
    ensures InkIn(Fold(w)) == InkIn(w)
  {
    if w != "" {
      assert IsWordPart(w[0]) && Fold(w)[1..] == Fold(w[1..]);
      InkOfFold(w[1..]);
    }
  }

  // ── reading ─────────────────────────────────────────────────────────────

  lemma {:induction false} InkOfUnquoted(s: string, q: char)
    requires Unquote(s, q).Some?
    ensures var (v, rest) := Unquote(s, q).value; InkIn(s) == InkIn(Double(q, v)) + InkIn([q]) + InkIn(rest)
    decreases |s|
  {
    if s[0] != q {
      InkOfUnquoted(s[1..], q);
      UnquotedInk(q, s[0], Unquote(s[1..], q).value.0);
    } else if |s| > 1 && s[1] == q {
      InkOfUnquoted(s[2..], q);
      InkSplit(s, 2);
      assert s[..2] == [q, q];
      UnquotedInk(q, q, Unquote(s[2..], q).value.0);
    }
  }

  lemma UnquotedInk(q: char, c: char, v: string)
    ensures InkIn(Double(q, [c] + v)) == (if c == q then InkIn([q, q]) else InkIn([c])) + InkIn(Double(q, v))
  {
    assert ([c] + v)[1..] == v;
    InkConcat(if c == q then [q, q] else [c], Double(q, v));
  }

  lemma InkOfDelimited(q: char, v: string)
    ensures InkIn([q] + Double(q, v) + [q]) == 2 * InkIn([q]) + InkIn(Double(q, v))
  {
    InkConcat([q] + Double(q, v), [q]);
    InkConcat([q], Double(q, v));
  }

  // One token and the text behind it.
  lemma FirstTokenInk(t: Token, rest: seq<Token>)
    ensures InkOf([t] + rest) == InkIn(PrintToken(t)) + InkOf(rest)
  {
    assert ([t] + rest)[1..] == rest;
  }

  lemma QuotedInk(s: string)
    requires s != "" && (s[0] == '"' || s[0] == '\'') && Unquote(s[1..], s[0]).Some?
    ensures var (v, rest) := Unquote(s[1..], s[0]).value;
            InkIn(s) == InkIn(PrintToken(if s[0] == '"' then Quoted(v) else Literal(v))) + InkIn(rest)
  {
    var q, v := s[0], Unquote(s[1..], s[0]).value.0;
    InkOfUnquoted(s[1..], q);
    InkOfDelimited(q, v);
    InkSplit(s, 1);
    assert s[..1] == [q];
  }

  /** What is read in a text has no more ink than the text. */
  lemma {:induction false} InkAtMost(s: string)
    requires Broken !in Lex(s)
    ensures InkOf(Lex(s)) <= InkIn(s)
    decreases |s|
  {
    if s == "" {
    } else if IsSpace(s[0]) {
      InkAtMost(s[1..]);
    } else if s[0] == '"' || s[0] == '\'' {
      var r := Unquote(s[1..], s[0]);
      assert r.Some?;
      QuotedInk(s);
      var t := if s[0] == '"' then Quoted(r.value.0) else Literal(r.value.0);
      assert Lex(s) == [t] + Lex(r.value.1);
      FirstTokenInk(t, Lex(r.value.1));
      InkAtMost(r.value.1);
    } else if IsWordStart(s[0]) {
      var n := WordEnd(s);
      InkSplit(s, n);
      InkOfFold(s[..n]);
      assert Lex(s) == [Word(Fold(s[..n]))] + Lex(s[n..]);
      FirstTokenInk(Word(Fold(s[..n])), Lex(s[n..]));
      InkAtMost(s[n..]);
    } else if IsDigit(s[0]) {
      var n := DigitsEnd(s);
      InkSplit(s, n);
      assert Lex(s) == [Number(s[..n])] + Lex(s[n..]);
      FirstTokenInk(Number(s[..n]), Lex(s[n..]));
      InkAtMost(s[n..]);
    } else {
      InkSplit(s, 1);
      assert s[..1] == [s[0]];
      assert Lex(s) == [Punct(s[0])] + Lex(s[1..]);
      FirstTokenInk(Punct(s[0]), Lex(s[1..]));
      InkAtMost(s[1..]);
    }
  }

  // ── printing ────────────────────────────────────────────────────────────

  lemma {:induction false} InkPrinted(ts: seq<Token>)
    ensures InkIn(PrintAll(ts)) == InkOf(ts)
  {
    if |ts| == 1 {
      assert InkOf(ts[1..]) == 0;
    } else if |ts| > 1 {
      InkPrinted(ts[1..]);
      InkConcat(PrintToken(ts[0]), " " + PrintAll(ts[1..]));
      InkConcat(" ", PrintAll(ts[1..]));
    }
  }

  lemma InkOfPlainer(t: Token, reserved: set<string>)
    ensures InkIn(PrintToken(Plainer(t, reserved))) == InkIn(PrintToken(t))
  {
    if t.Quoted? && Bare(t.name, reserved) {
      NothingToDouble('"', t.name);
      InkOfDelimited('"', t.name);
    }
  }

  lemma {:induction false} InkOfPlainerAll(ts: seq<Token>, reserved: set<string>)
    ensures InkOf(PlainerAll(ts, reserved)) == InkOf(ts)
  {
    if ts != [] {
      InkOfPlainer(ts[0], reserved);
      InkOfPlainerAll(ts[1..], reserved);
      FirstTokenInk(Plainer(ts[0], reserved), PlainerAll(ts[1..], reserved));
    }
  }

  // ── taking ink away ─────────────────────────────────────────────────────

  lemma {:induction false} StripTakesInk(s: string)
    ensures InkIn(Sanitize.Strip(s)) <= InkIn(s)
    ensures Sanitize.Strip(s) != s ==> InkIn(Sanitize.Strip(s)) < InkIn(s)
  {
    if s != "" {
      StripTakesInk(s[1..]);
      assert s == [s[0]] + s[1..];
      if Sanitize.IsPlain(s[0]) {
        InkConcat([s[0]], Sanitize.Strip(s[1..]));
      } else {
        assert Sanitize.Strip(s) == Sanitize.Strip(s[1..]);
      }
    }
  }

  lemma PrefixInk(s: string, n: nat)
    requires n <= |s|
    ensures InkIn(s[..n]) <= InkIn(s)
    ensures n < |s| && Inky(s[|s| - 1]) ==> InkIn(s[..n]) < InkIn(s)
  {
    InkSplit(s, n);
    if n < |s| {
      InkSplit(s[n..], |s| - n - 1);
      assert s[n..][|s| - n - 1..] == [s[|s| - 1]];
    }
  }
}
