/**
 Identifier and literal quoting, against an SQL lexer.

 `Lex` reads the tokens of ISO/IEC 9075-2 section 5.3 that the generated statements use
 (standard-conforming strings, doubled quotes, unquoted words folded to lower case).
 The results here say that what the tool quotes is what the server reads back, in any
 surrounding text.
 */
module Sql {
  import opened Common

  // ── character classes ───────────────────────────────────────────────────

  predicate IsUpper(c: char) { 'A' <= c <= 'Z' }

  predicate IsLower(c: char) { 'a' <= c <= 'z' }

  predicate IsDigit(c: char) { '0' <= c <= '9' }

  predicate IsIdentStart(c: char) { IsUpper(c) || IsLower(c) || c == '_' }

  predicate IsIdentPart(c: char) { IsIdentStart(c) || IsDigit(c) || c == '$' }

  predicate IsSpace(c: char) { c == ' ' || '\t' <= c <= '\r' }

  // The server also takes every non-ASCII character into a word.
  predicate IsWordStart(c: char) { IsIdentStart(c) || c as int >= 0x80 }

  predicate IsWordPart(c: char) { IsIdentPart(c) || c as int >= 0x80 }

  predicate AllIdentParts(s: string) { forall i :: 0 <= i < |s| ==> IsIdentPart(s[i]) }

  predicate AllWordParts(s: string) { forall i :: 0 <= i < |s| ==> IsWordPart(s[i]) }

  // ── the quoting functions of ops/_util.py ───────────────────────────────

  predicate IsIdent(part: string) {
    part != "" && IsIdentStart(part[0]) && AllIdentParts(part)
  }

  // `re.match` with a trailing `$` also accepts one final newline.
  predicate MatchesIdent(part: string) {
    IsIdent(part) || (part != "" && part[|part| - 1] == '\n' && IsIdent(part[..|part| - 1]))
  }

  datatype NameError = EmptyIdentifier | TooManyParts | InvalidIdentifier(part: string)

  function QuoteIdent(part: string): Result<string, NameError> {
    if MatchesIdent(part) then Success("\"" + part + "\"") else Failure(InvalidIdentifier(part))
  }

  // `name.split(".")`
  function Split(name: string): (parts: seq<string>)
    ensures parts != []
  {
    if name == "" then [""]
    else
      var rest := Split(name[1..]);
      if name[0] == '.' then [""] + rest else [[name[0]] + rest[0]] + rest[1..]
  }

  function Join(parts: seq<string>): string {
    if parts == [] then ""
    else if |parts| == 1 then parts[0]
    else parts[0] + "." + Join(parts[1..])
  }

  function Qualify(name: string): Result<string, NameError> {
    if forall i :: 0 <= i < |name| ==> IsSpace(name[i]) then Failure(EmptyIdentifier)
    else
      var parts := Split(name);
      if |parts| > 2 then Failure(TooManyParts)
      else if !MatchesIdent(parts[0]) then Failure(InvalidIdentifier(parts[0]))
      else if |parts| == 1 then QuoteIdent(parts[0])
      else if !MatchesIdent(parts[1]) then Failure(InvalidIdentifier(parts[1]))
      else Success(QuoteIdent(parts[0]).value + "." + QuoteIdent(parts[1]).value)
  }

  function Double(q: char, v: string): string {
    if v == "" then "" else (if v[0] == q then [q, q] else [v[0]]) + Double(q, v[1..])
  }

  function QuoteLiteral(value: string): string {
    "'" + Double('\'', value) + "'"
  }

  // ── the lexer ───────────────────────────────────────────────────────────

  datatype Token =
    | Word(text: string)
    | Quoted(name: string)
    | Literal(value: string)
    | Number(text: string)
    | Punct(c: char)
    | Broken

  function Fold(s: string): (r: string)
    ensures |r| == |s|
    ensures forall i :: 0 <= i < |s| ==>
              r[i] == if IsUpper(s[i]) then (s[i] as int + 32) as char else s[i]
  {
    if s == "" then ""
    else [if IsUpper(s[0]) then (s[0] as int + 32) as char else s[0]] + Fold(s[1..])
  }

  function WordEnd(s: string): (n: nat)
    ensures n <= |s| && AllWordParts(s[..n]) && (n < |s| ==> !IsWordPart(s[n]))
  {
    if s == "" || !IsWordPart(s[0]) then 0 else 1 + WordEnd(s[1..])
  }

  predicate AllDigits(s: string) { forall i :: 0 <= i < |s| ==> IsDigit(s[i]) }

  function DigitsEnd(s: string): (n: nat)
    ensures n <= |s| && AllDigits(s[..n]) && (n < |s| ==> !IsDigit(s[n]))
  {
    if s == "" || !IsDigit(s[0]) then 0 else 1 + DigitsEnd(s[1..])
  }

  // What follows an opening quote: the quoted text and what comes after it.
  function Unquote(s: string, q: char): (r: Option<(string, string)>)
    ensures r.Some? ==> |r.value.1| < |s|
  {
    if s == "" then None
    else if s[0] != q then
      match Unquote(s[1..], q)
      case None => None
      case Some((v, rest)) => Some(([s[0]] + v, rest))
    else if |s| > 1 && s[1] == q then
      match Unquote(s[2..], q)
      case None => None
      case Some((v, rest)) => Some(([q] + v, rest))
    else Some(("", s[1..]))
  }

  function Lex(s: string): seq<Token>
    decreases |s|
  {
    if s == "" then []
    else if IsSpace(s[0]) then Lex(s[1..])
    else if s[0] == '"' then
      match Unquote(s[1..], '"') case None => [Broken] case Some((v, rest)) => [Quoted(v)] + Lex(rest)
    else if s[0] == '\'' then
      match Unquote(s[1..], '\'') case None => [Broken] case Some((v, rest)) => [Literal(v)] + Lex(rest)
    else if IsWordStart(s[0]) then
      [Word(Fold(s[..WordEnd(s)]))] + Lex(s[WordEnd(s)..])
    else if IsDigit(s[0]) then
      [Number(s[..DigitsEnd(s)])] + Lex(s[DigitsEnd(s)..])
    else [Punct(s[0])] + Lex(s[1..])
  }

  // ── reading quoted text back ────────────────────────────────────────────

  predicate StartsWith(s: string, c: char) {
    s != "" && s[0] == c
  }

  lemma {:induction false} UnquoteDoubled(q: char, v: string, rest: string)
    requires !StartsWith(rest, q)
    ensures Unquote(Double(q, v) + ([q] + rest), q) == Some((v, rest))
  {
    if v == "" {
      assert Double(q, v) + ([q] + rest) == [q] + rest;
    } else {
      UnquoteDoubled(q, v[1..], rest);
      UnquoteStep(q, v[0], Double(q, v[1..]) + ([q] + rest));
      ConcatAssoc(if v[0] == q then [q, q] else [v[0]], Double(q, v[1..]), [q] + rest);
      assert v == [v[0]] + v[1..];
    }
  }

  lemma UnquoteStep(q: char, c: char, tail: string)
    requires Unquote(tail, q).Some?
    ensures var head := if c == q then [q, q] else [c];
            Unquote(head + tail, q) == Some(([c] + Unquote(tail, q).value.0, Unquote(tail, q).value.1))
  {
    assert ([q, q] + tail)[2..] == tail;
    assert ([c] + tail)[1..] == tail;
  }

  lemma LexLiteral(v: string, rest: string)
    requires !StartsWith(rest, '\'')
    ensures Lex(QuoteLiteral(v) + rest) == [Literal(v)] + Lex(rest)
  {
    UnquoteDoubled('\'', v, rest);
    assert (QuoteLiteral(v) + rest)[1..] == Double('\'', v) + (['\''] + rest);
  }

  // A delimited identifier as the server prints it.
  function Delimit(name: string): string {
    "\"" + Double('"', name) + "\""
  }

  lemma LexDelimited(name: string, rest: string)
    requires !StartsWith(rest, '"')
    ensures Lex(Delimit(name) + rest) == [Quoted(name)] + Lex(rest)
  {
    UnquoteDoubled('"', name, rest);
    assert (Delimit(name) + rest)[1..] == Double('"', name) + (['"'] + rest);
  }

  lemma {:induction false} NothingToDouble(q: char, v: string)
    requires forall i :: 0 <= i < |v| ==> v[i] != q
    ensures Double(q, v) == v
  {
    if v != "" {
      NothingToDouble(q, v[1..]);
    }
  }

  lemma IdentHasNoQuote(part: string)
    requires MatchesIdent(part)
    ensures forall i :: 0 <= i < |part| ==> part[i] != '"' && part[i] != '.'
  {
    forall i | 0 <= i < |part| ensures part[i] != '"' && part[i] != '.' {
      if !IsIdent(part) && i < |part| - 1 {
        assert IsIdentPart(part[..|part| - 1][i]);
      }
    }
  }

  /** An accepted identifier is read back verbatim, case kept, whatever text follows
      (as long as that text does not itself continue the quoted token). */
  lemma LexQuoteIdent(part: string, rest: string)
    requires MatchesIdent(part) && !StartsWith(rest, '"')
    ensures Lex(QuoteIdent(part).value + rest) == [Quoted(part)] + Lex(rest)
  {
    IdentHasNoQuote(part);
    NothingToDouble('"', part);
    LexDelimited(part, rest);
  }

  function NameTokens(parts: seq<string>): seq<Token> {
    if |parts| == 2 then [Quoted(parts[0]), Punct('.'), Quoted(parts[1])]
    else if |parts| == 1 then [Quoted(parts[0])]
    else []
  }

  lemma LexPunct(c: char, rest: string)
    requires Readable(Punct(c))
    ensures Lex([c] + rest) == [Punct(c)] + Lex(rest)
  {
    assert ([c] + rest)[1..] == rest;
  }

  lemma LexTwoParts(a: string, b: string, rest: string)
    requires MatchesIdent(a) && MatchesIdent(b) && !StartsWith(rest, '"')
    ensures Lex((QuoteIdent(a).value + "." + QuoteIdent(b).value) + rest) ==
            [Quoted(a), Punct('.'), Quoted(b)] + Lex(rest)
  {
    var qa, qb := QuoteIdent(a).value, QuoteIdent(b).value;
    LexQuoteIdent(b, rest);
    LexPunct('.', qb + rest);
    LexQuoteIdent(a, "." + (qb + rest));
    ConcatAssoc(qa, ".", qb);
    ConcatAssoc(".", qb, rest);
    ConcatAssoc(qa, "." + qb, rest);
  }

  /** `qualify(name)` is read back as exactly the parts of the name. */
  lemma LexQualify(name: string, rest: string)
    requires Qualify(name).Success? && !StartsWith(rest, '"')
    ensures Lex(Qualify(name).value + rest) == NameTokens(Split(name)) + Lex(rest)
  {
    var parts := Split(name);
    if |parts| == 1 {
      LexQuoteIdent(parts[0], rest);
    } else {
      LexTwoParts(parts[0], parts[1], rest);
    }
  }

  lemma {:induction false} JoinSplit(name: string)
    ensures Join(Split(name)) == name
  {
    if name != "" {
      JoinSplit(name[1..]);
      var rest := Split(name[1..]);
      if name[0] == '.' {
        assert Split(name)[1..] == rest;
        assert [""][0] + "." + Join(rest) == "." + Join(rest);
      } else if |rest| > 1 {
        assert Split(name)[1..] == rest[1..];
        assert ([name[0]] + rest[0]) + "." + Join(rest[1..]) == [name[0]] + (rest[0] + "." + Join(rest[1..]));
      }
    }
  }

  /** Distinct accepted names stay distinct after quoting. */
  lemma QualifyIsInjective(a: string, b: string)
    requires Qualify(a).Success? && Qualify(b).Success? && Qualify(a).value == Qualify(b).value
    ensures a == b
  {
    LexQualify(a, "");
    LexQualify(b, "");
    assert Qualify(a).value + "" == Qualify(a).value;
    assert Qualify(b).value + "" == Qualify(b).value;
    var x, y := NameTokens(Split(a)) + Lex(""), NameTokens(Split(b)) + Lex("");
    assert x == y;
    assert |Split(a)| == |Split(b)|;
    assert x[0] == y[0];
    if |Split(a)| == 2 {
      assert x[2] == y[2];
    }
    assert Split(a) == Split(b);
    JoinSplit(a);
    JoinSplit(b);
  }

  /** Reading a quoted literal back gives the value, for every string. */
  lemma LiteralRoundTrip(v: string)
    ensures Lex(QuoteLiteral(v)) == [Literal(v)]
  {
    LexLiteral(v, "");
    assert QuoteLiteral(v) + "" == QuoteLiteral(v);
  }

  // ── words, and token lists printed and read back ────────────────────────

  predicate EndsWord(rest: string) {
    rest == "" || !IsWordPart(rest[0])
  }

  lemma {:induction false} WordEndIs(w: string, rest: string)
    requires AllWordParts(w) && EndsWord(rest)
    ensures WordEnd(w + rest) == |w|
  {
    if w == "" {
      assert w + rest == rest;
    } else {
      assert (w + rest)[1..] == w[1..] + rest;
      WordEndIs(w[1..], rest);
    }
  }

  lemma LexWord(w: string, rest: string)
    requires w != "" && IsWordStart(w[0]) && AllWordParts(w) && EndsWord(rest)
    ensures Lex(w + rest) == [Word(Fold(w))] + Lex(rest)
  {
    WordEndIs(w, rest);
    assert (w + rest)[..|w|] == w && (w + rest)[|w|..] == rest;
  }

  lemma {:induction false} DigitsEndIs(w: string, rest: string)
    requires AllDigits(w) && (rest == "" || !IsDigit(rest[0]))
    ensures DigitsEnd(w + rest) == |w|
  {
    if w == "" {
      assert w + rest == rest;
    } else {
      assert (w + rest)[1..] == w[1..] + rest;
      DigitsEndIs(w[1..], rest);
    }
  }

  lemma LexNumber(w: string, rest: string)
    requires w != "" && AllDigits(w) && (rest == "" || !IsDigit(rest[0]))
    ensures Lex(w + rest) == [Number(w)] + Lex(rest)
  {
    DigitsEndIs(w, rest);
    assert (w + rest)[..|w|] == w && (w + rest)[|w|..] == rest;
  }

  predicate Readable(t: Token) {
    match t
    case Word(w) => w != "" && IsWordStart(w[0]) && AllWordParts(w) && Fold(w) == w
    case Number(w) => w != "" && AllDigits(w)
    case Punct(c) => !IsSpace(c) && c != '"' && c != '\'' && !IsWordStart(c) && !IsDigit(c)
    case Broken => false
    case _ => true
  }

  function PrintToken(t: Token): string {
    match t
    case Word(w) => w
    case Quoted(name) => Delimit(name)
    case Literal(v) => QuoteLiteral(v)
    case Number(w) => w
    case Punct(c) => [c]
    case Broken => ""
  }

  function PrintAll(ts: seq<Token>): string {
    if ts == [] then ""
    else if |ts| == 1 then PrintToken(ts[0])
    else PrintToken(ts[0]) + (" " + PrintAll(ts[1..]))
  }

  lemma LexPrintedToken(t: Token, rest: string)
    requires Readable(t) && (rest == "" || rest[0] == ' ')
    ensures Lex(PrintToken(t) + rest) == [t] + Lex(rest)
  {
    match t
    case Word(w) => LexWord(w, rest);
    case Quoted(name) => LexDelimited(name, rest);
    case Literal(v) => LexLiteral(v, rest);
    case Number(w) => LexNumber(w, rest);
    case Punct(c) => LexPunct(c, rest);
  }

  lemma LexSpace(rest: string)
    ensures Lex(" " + rest) == Lex(rest)
  {
    assert (" " + rest)[1..] == rest;
  }

  /** Printing tokens and lexing the text gives the tokens back. */
  lemma {:induction false} LexPrinted(ts: seq<Token>)
    requires forall i :: 0 <= i < |ts| ==> Readable(ts[i])
    ensures Lex(PrintAll(ts)) == ts
  {
    if ts != [] {
      if |ts| == 1 {
        LexPrintedToken(ts[0], "");
        assert PrintToken(ts[0]) + "" == PrintToken(ts[0]);
      } else {
        LexPrinted(ts[1..]);
        LexSpace(PrintAll(ts[1..]));
        LexPrintedToken(ts[0], " " + PrintAll(ts[1..]));
        assert ts == [ts[0]] + ts[1..];
      }
    }
  }

  lemma FoldTwice(s: string)
    ensures Fold(Fold(s)) == Fold(s)
  {
  }

  lemma FoldKeepsShape(s: string)
    requires s != "" && IsWordStart(s[0]) && AllWordParts(s)
    ensures Readable(Word(Fold(s)))
  {
    FoldTwice(s);
    forall i | 0 <= i < |s| ensures IsWordPart(Fold(s)[i]) {
      assert IsWordPart(s[i]);
    }
  }

  /** Whatever the text, every token read is one that printing can reproduce. */
  lemma {:induction false} LexedIsReadable(s: string)
    ensures forall i :: 0 <= i < |Lex(s)| ==> Lex(s)[i] == Broken || Readable(Lex(s)[i])
    decreases |s|
  {
    if s != "" {
      if IsSpace(s[0]) {
        LexedIsReadable(s[1..]);
      } else if s[0] == '"' || s[0] == '\'' {
        var r := Unquote(s[1..], s[0]);
        if r.Some? {
          LexedIsReadable(r.value.1);
        }
      } else if IsWordStart(s[0]) {
        LexedIsReadable(s[WordEnd(s)..]);
        FoldKeepsShape(s[..WordEnd(s)]);
      } else if IsDigit(s[0]) {
        LexedIsReadable(s[DigitsEnd(s)..]);
      } else {
        LexedIsReadable(s[1..]);
      }
    }
  }
}
