/**
 The statement texts the reversible writes send, and what the server reads in them.

 Every text is built from its parts the way the source interpolates them. The results
 say that the server parses each to exactly the intended statement, whatever the names
 and values are: nothing in a value or a name can change the statement around it.
 */
module Statements {
  import opened Common
  import opened Sql
  import opened Server

  // ── keywords ────────────────────────────────────────────────────────────

  // A keyword and the space after it, or nothing.
  function Kw(on: bool, word: string): string {
    if on then word + " " else ""
  }

  function KwToken(on: bool, word: string): seq<Token> {
    if on then [Word(word)] else []
  }

  predicate UpperOf(upper: string, lower: string) {
    |upper| == |lower| && forall i :: 0 <= i < |upper| ==>
      IsUpper(upper[i]) && lower[i] as int == upper[i] as int + 32
  }

  lemma UpperWord(upper: string, lower: string)
    requires UpperOf(upper, lower)
    ensures AllWordParts(upper) && Fold(upper) == lower
  {
  }

  lemma LexKw(on: bool, upper: string, lower: string, rest: string)
    requires upper != "" && UpperOf(upper, lower)
    ensures Lex(Kw(on, upper) + rest) == KwToken(on, lower) + Lex(rest)
  {
    if on {
      UpperWord(upper, lower);
      LexWord(upper, " " + rest);
      LexSpace(rest);
      ConcatAssoc(upper, " ", rest);
    } else {
      assert "" + rest == rest;
      assert [] + Lex(rest) == Lex(rest);
    }
  }

  lemma LexCreateKw(rest: string)
    ensures Lex(Kw(true, "CREATE") + rest) == [Word("create")] + Lex(rest)
  {
    LexKw(true, "CREATE", "create", rest);
  }

  lemma LexUniqueKw(unique: bool, rest: string)
    ensures Lex(Kw(unique, "UNIQUE") + rest) == KwToken(unique, "unique") + Lex(rest)
  {
    LexKw(unique, "UNIQUE", "unique", rest);
  }

  lemma LexIndexKw(rest: string)
    ensures Lex(Kw(true, "INDEX") + rest) == [Word("index")] + Lex(rest)
  {
    LexKw(true, "INDEX", "index", rest);
  }

  lemma LexConcurrentlyKw(on: bool, rest: string)
    ensures Lex(Kw(on, "CONCURRENTLY") + rest) == KwToken(on, "concurrently") + Lex(rest)
  {
    LexKw(on, "CONCURRENTLY", "concurrently", rest);
  }

  // ── DROP INDEX ──────────────────────────────────────────────────────────

  function DropText(concurrently: bool, ident: string): string {
    Kw(true, "DROP") + (Kw(true, "INDEX") + (Kw(concurrently, "CONCURRENTLY") + ident))
  }

  lemma LexDrop(concurrently: bool, ident: string)
    ensures Lex(DropText(concurrently, ident)) ==
            [Word("drop")] + ([Word("index")] + (KwToken(concurrently, "concurrently") + Lex(ident)))
  {
    LexConcurrentlyKw(concurrently, ident);
    LexIndexKw(Kw(concurrently, "CONCURRENTLY") + ident);
    LexKw(true, "DROP", "drop", Kw(true, "INDEX") + (Kw(concurrently, "CONCURRENTLY") + ident));
  }

  // The name a quoted identifier of one or two parts stands for.
  function NameOf(parts: seq<string>): Name
    requires 1 <= |parts| <= 2
  {
    if |parts| == 2 then Name(Some(parts[0]), parts[1]) else Name(None, parts[0])
  }

  predicate NoDot(ts: seq<Token>) {
    ts == [] || ts[0] != Punct('.')
  }

  lemma ReadsNameTokens(parts: seq<string>, rest: seq<Token>, reserved: set<string>)
    requires 1 <= |parts| <= 2 && (forall i :: 0 <= i < |parts| ==> parts[i] != "") && NoDot(rest)
    ensures ReadName(NameTokens(parts) + rest, reserved) == Some((NameOf(parts), rest))
  {
    var ts := NameTokens(parts) + rest;
    if |parts| == 2 {
      assert ts[3..] == rest;
    } else {
      assert ts[1..] == rest;
    }
  }

  lemma QualifiedParts(name: string)
    requires Qualify(name).Success?
    ensures var parts := Split(name);
            1 <= |parts| <= 2 && forall i :: 0 <= i < |parts| ==> parts[i] != "" && MatchesIdent(parts[i])
  {
  }

  // The name `qualify` stands for.
  function QualifiedName(name: string): Name
    requires Qualify(name).Success?
  {
    QualifiedParts(name);
    NameOf(Split(name))
  }

  lemma UnbrokenName(parts: seq<string>)
    ensures Broken !in NameTokens(parts)
  {
  }

  lemma Rest(x: Token, ts: seq<Token>)
    ensures ([x] + ts)[0] == x && ([x] + ts)[1..] == ts
  {
  }

  /** The server reads `DROP INDEX` on exactly the name that was asked for, case and all. */
  lemma ParsesDrop(concurrently: bool, name: string, reserved: set<string>)
    requires Qualify(name).Success? && GrammarReserved(reserved)
    ensures Parse(Lex(DropText(concurrently, Qualify(name).value)), reserved) ==
            Some(DropIndex(QualifiedName(name)))
  {
    var parts := Split(name);
    LexQualify(name, "");
    assert Qualify(name).value + "" == Qualify(name).value && NameTokens(parts) + [] == NameTokens(parts);
    LexDrop(concurrently, Qualify(name).value);
    QualifiedParts(name);
    ReadsNameTokens(parts, [], reserved);
    UnbrokenName(parts);
    ParsesDropTokens(concurrently, NameTokens(parts), QualifiedName(name), reserved);
  }

  lemma ParsesDropTokens(concurrently: bool, ts: seq<Token>, name: Name, reserved: set<string>)
    requires ReadName(ts, reserved) == Some((name, [])) && Broken !in ts && !At(ts, "concurrently")
    ensures Parse([Word("drop")] + ([Word("index")] + (KwToken(concurrently, "concurrently") + ts)), reserved) ==
            Some(DropIndex(name))
  {
    var after := KwToken(concurrently, "concurrently") + ts;
    Rest(Word("index"), after);
    Rest(Word("drop"), [Word("index")] + after);
    assert Opt(after, "concurrently") == ts;
    assert ([Word("drop")] + ([Word("index")] + after))[2..] == after;
  }

  // ── CREATE INDEX ────────────────────────────────────────────────────────

  function CreateText(unique: bool, concurrently: bool, index: string, table: string, body: string): string {
    Kw(true, "CREATE") + (Kw(unique, "UNIQUE") + (Kw(true, "INDEX") + (Kw(concurrently, "CONCURRENTLY") +
      (index + (" " + (Kw(true, "ON") + (table + (" " + body))))))))
  }

  function CreateTokens(unique: bool, concurrently: bool, index: Token, table: seq<Token>, body: seq<Token>): seq<Token> {
    [Word("create")] + (KwToken(unique, "unique") + ([Word("index")] + (KwToken(concurrently, "concurrently") +
      ([index] + ([Word("on")] + (table + body))))))
  }

  ghost predicate Reads(text: string, ts: seq<Token>) {
    forall rest :: rest == "" || rest[0] == ' ' ==> Lex(text + rest) == ts + Lex(rest)
  }

  lemma LexOnPart(index: string, i: Token, table: string, ts: seq<Token>, body: string)
    requires Reads(index, [i]) && Reads(table, ts)
    ensures Lex(index + (" " + (Kw(true, "ON") + (table + (" " + body))))) ==
            [i] + ([Word("on")] + (ts + Lex(body)))
  {
    LexSpace(body);
    assert (" " + body)[0] == ' ';
    assert Lex(table + (" " + body)) == ts + Lex(" " + body);
    LexKw(true, "ON", "on", table + (" " + body));
    var tail := Kw(true, "ON") + (table + (" " + body));
    LexSpace(tail);
    assert (" " + tail)[0] == ' ';
    assert Lex(index + (" " + tail)) == [i] + Lex(" " + tail);
  }

  lemma LexCreate(unique: bool, concurrently: bool, index: string, i: Token, table: string, ts: seq<Token>, body: string)
    requires Reads(index, [i]) && Reads(table, ts)
    ensures Lex(CreateText(unique, concurrently, index, table, body)) ==
            CreateTokens(unique, concurrently, i, ts, Lex(body))
  {
    LexOnPart(index, i, table, ts, body);
    var onPart := index + (" " + (Kw(true, "ON") + (table + (" " + body))));
    LexConcurrentlyKw(concurrently, onPart);
    var indexPart := Kw(concurrently, "CONCURRENTLY") + onPart;
    LexIndexKw(indexPart);
    LexUniqueKw(unique, Kw(true, "INDEX") + indexPart);
    LexCreateKw(Kw(unique, "UNIQUE") + (Kw(true, "INDEX") + indexPart));
  }

  lemma ParsesTarget(i: Token, name: string, ts: seq<Token>, table: Name, body: seq<Token>, unique: bool, reserved: set<string>)
    requires Ident(i, reserved) == Some(name) && body != []
    requires ReadName(ts + body, reserved) == Some((table, body)) && !At(ts + body, "only")
    ensures ParseTarget([i] + ([Word("on")] + (ts + body)), unique, false, reserved) ==
            Some(CreateIndex(unique, false, name, table, body))
  {
    var tail := [Word("on")] + (ts + body);
    Rest(i, tail);
    Rest(Word("on"), ts + body);
    assert ([i] + tail)[2..] == ts + body;
  }

  lemma ParsesCreateTokens(unique: bool, concurrently: bool, i: Token, name: string, ts: seq<Token>, table: Name,
                           body: seq<Token>, reserved: set<string>)
    requires GrammarReserved(reserved)
    requires Ident(i, reserved) == Some(name) && body != []
    requires ReadName(ts + body, reserved) == Some((table, body)) && !At(ts + body, "only")
    requires Broken !in ts && Broken !in body
    ensures Parse(CreateTokens(unique, concurrently, i, ts, body), reserved) ==
            Some(CreateIndex(unique, false, name, table, body))
  {
    var target := [i] + ([Word("on")] + (ts + body));
    ParsesTarget(i, name, ts, table, body, unique, reserved);
    Rest(i, [Word("on")] + (ts + body));
    Rest(Word("on"), ts + body);
    assert !Guarded(target) && !At(target, "concurrently");
    ParsesCreateRest(unique, concurrently, target, CreateIndex(unique, false, name, table, body), reserved);
    var made := KwToken(unique, "unique") + ([Word("index")] + (KwToken(concurrently, "concurrently") + target));
    Rest(Word("create"), made);
    UnbrokenCreate(unique, concurrently, i, ts, body);
  }

  lemma OptTakes(on: bool, word: string, ts: seq<Token>)
    requires !At(ts, word)
    ensures Opt(KwToken(on, word) + ts, word) == ts
    ensures At(KwToken(on, word) + ts, word) == on
  {
    if !on {
      assert KwToken(on, word) + ts == ts;
    }
  }

  lemma ParsesCreateRest(unique: bool, concurrently: bool, target: seq<Token>, st: Stmt, reserved: set<string>)
    requires !Guarded(target) && !At(target, "concurrently")
    requires ParseTarget(target, unique, false, reserved) == Some(st)
    ensures ParseCreate(KwToken(unique, "unique") + ([Word("index")] + (KwToken(concurrently, "concurrently") + target)),
                        reserved) == Some(st)
  {
    var indexed := KwToken(concurrently, "concurrently") + target;
    OptTakes(concurrently, "concurrently", target);
    Rest(Word("index"), indexed);
    OptTakes(unique, "unique", [Word("index")] + indexed);
  }

  lemma UnbrokenCreate(unique: bool, concurrently: bool, i: Token, ts: seq<Token>, body: seq<Token>)
    requires i != Broken && Broken !in ts && Broken !in body
    ensures Broken !in CreateTokens(unique, concurrently, i, ts, body)
  {
  }

  // `", ".join(quote_ident(c) for c in columns)`
  function JoinColumns(columns: seq<string>): string
    requires forall i :: 0 <= i < |columns| ==> MatchesIdent(columns[i])
  {
    if columns == [] then ""
    else if |columns| == 1 then QuoteIdent(columns[0]).value
    else QuoteIdent(columns[0]).value + (", " + JoinColumns(columns[1..]))
  }

  function ColumnTokens(columns: seq<string>): seq<Token> {
    if columns == [] then []
    else if |columns| == 1 then [Quoted(columns[0])]
    else [Quoted(columns[0])] + ([Punct(',')] + ColumnTokens(columns[1..]))
  }

  lemma LexComma(rest: string)
    ensures Lex(", " + rest) == [Punct(',')] + Lex(rest)
  {
    LexPunct(',', " " + rest);
    LexSpace(rest);
    assert ", " + rest == "," + (" " + rest);
  }

  lemma {:induction false} LexColumns(columns: seq<string>, rest: string)
    requires forall i :: 0 <= i < |columns| ==> MatchesIdent(columns[i])
    requires !StartsWith(rest, '"')
    ensures Lex(JoinColumns(columns) + rest) == ColumnTokens(columns) + Lex(rest)
  {
    if columns == [] {
      assert "" + rest == rest;
    } else if |columns| == 1 {
      LexQuoteIdent(columns[0], rest);
    } else {
      var first, others := QuoteIdent(columns[0]).value, JoinColumns(columns[1..]);
      LexColumns(columns[1..], rest);
      LexComma(others + rest);
      assert (", " + (others + rest))[0] == ',';
      LexQuoteIdent(columns[0], ", " + (others + rest));
      ConcatAssoc(", ", others, rest);
      ConcatAssoc(first, ", " + others, rest);
    }
  }

  // `{using}({col_sql})`, the method already in lower case.
  function BodyText(using: Option<string>, columns: seq<string>): string
    requires forall i :: 0 <= i < |columns| ==> MatchesIdent(columns[i])
  {
    (if using.Some? then Kw(true, "USING") + (using.value + " ") else "") + ("(" + (JoinColumns(columns) + ")"))
  }

  function BodyTokens(using: Option<string>, columns: seq<string>): seq<Token> {
    (if using.Some? then [Word("using"), Word(using.value)] else [])
    + ([Punct('(')] + (ColumnTokens(columns) + [Punct(')')]))
  }

  lemma LexClose()
    ensures Lex(")") == [Punct(')')]
  {
    LexPunct(')', "");
    assert [')'] + "" == ")";
  }

  lemma LexOpen(rest: string)
    ensures Lex("(" + rest) == [Punct('(')] + Lex(rest)
  {
    LexPunct('(', rest);
  }

  lemma LexParenthesized(columns: seq<string>)
    requires forall i :: 0 <= i < |columns| ==> MatchesIdent(columns[i])
    ensures Lex("(" + (JoinColumns(columns) + ")")) == [Punct('(')] + (ColumnTokens(columns) + [Punct(')')])
  {
    LexClose();
    LexColumns(columns, ")");
    LexOpen(JoinColumns(columns) + ")");
  }

  lemma LexBody(using: Option<string>, columns: seq<string>)
    requires forall i :: 0 <= i < |columns| ==> MatchesIdent(columns[i])
    requires using.Some? ==> using.value != "" && AllLower(using.value)
    ensures Lex(BodyText(using, columns)) == BodyTokens(using, columns)
  {
    var list := "(" + (JoinColumns(columns) + ")");
    LexParenthesized(columns);
    if using.Some? {
      LexSpace(list);
      FoldOfLower(using.value);
      LexWord(using.value, " " + list);
      LexUsingKw(using.value + (" " + list));
      ConcatAssoc(using.value, " ", list);
      ConcatAssoc(Kw(true, "USING"), using.value + " ", list);
    } else {
      assert "" + list == list;
    }
  }

  lemma LexUsingKw(rest: string)
    ensures Lex(Kw(true, "USING") + rest) == [Word("using")] + Lex(rest)
  {
    LexKw(true, "USING", "using", rest);
  }

  lemma {:induction false} UnbrokenColumns(columns: seq<string>)
    ensures Broken !in ColumnTokens(columns)
  {
    if |columns| > 1 {
      UnbrokenColumns(columns[1..]);
    }
  }

  /** The server reads `CREATE INDEX` as exactly the index that was asked for: this name on
      this table, with this method and these columns. */
  lemma ParsesCreate(unique: bool, concurrently: bool, index: string, table: string, using: Option<string>,
                     columns: seq<string>, reserved: set<string>)
    requires GrammarReserved(reserved) && MatchesIdent(index) && Qualify(table).Success?
    requires forall i :: 0 <= i < |columns| ==> MatchesIdent(columns[i])
    requires using.Some? ==> using.value != "" && AllLower(using.value)
    ensures Parse(Lex(CreateText(unique, concurrently, QuoteIdent(index).value, Qualify(table).value,
                                 BodyText(using, columns))), reserved) ==
            Some(CreateIndex(unique, false, index, QualifiedName(table), BodyTokens(using, columns)))
  {
    var ts, body := NameTokens(Split(table)), BodyTokens(using, columns);
    IdentReads(index);
    QualifyReads(table);
    LexBody(using, columns);
    LexCreate(unique, concurrently, QuoteIdent(index).value, Quoted(index), Qualify(table).value, ts, BodyText(using, columns));
    QualifiedParts(table);
    BodyStarts(using, columns);
    ReadsNameTokens(Split(table), body, reserved);
    UnbrokenName(Split(table));
    ParsesCreateTokens(unique, concurrently, Quoted(index), index, ts, QualifiedName(table), body, reserved);
  }

  lemma IdentReads(index: string)
    requires MatchesIdent(index)
    ensures Reads(QuoteIdent(index).value, [Quoted(index)])
  {
    forall rest | rest == "" || rest[0] == ' '
      ensures Lex(QuoteIdent(index).value + rest) == [Quoted(index)] + Lex(rest)
    {
      LexQuoteIdent(index, rest);
    }
  }

  lemma QualifyReads(table: string)
    requires Qualify(table).Success?
    ensures Reads(Qualify(table).value, NameTokens(Split(table)))
  {
    forall rest | rest == "" || rest[0] == ' '
      ensures Lex(Qualify(table).value + rest) == NameTokens(Split(table)) + Lex(rest)
    {
      LexQualify(table, rest);
    }
  }

  lemma BodyStarts(using: Option<string>, columns: seq<string>)
    ensures var body := BodyTokens(using, columns); body != [] && NoDot(body) && Broken !in body
  {
    UnbrokenColumns(columns);
    var list := [Punct('(')] + (ColumnTokens(columns) + [Punct(')')]);
    assert Broken !in list && list[0] == Punct('(');
  }

  // ── ALTER SYSTEM ────────────────────────────────────────────────────────

  function SetText(param: string, value: string): string {
    Kw(true, "ALTER") + (Kw(true, "SYSTEM") + (Kw(true, "SET") + (param + (" = " + QuoteLiteral(value)))))
  }

  function ResetText(param: string): string {
    Kw(true, "ALTER") + (Kw(true, "SYSTEM") + (Kw(true, "RESET") + param))
  }

  predicate IsParamChar(c: char) {
    IsLower(c) || IsDigit(c) || c == '_' || c == '.'
  }

  predicate AllParamChars(s: string) {
    forall i :: 0 <= i < |s| ==> IsParamChar(s[i])
  }

  predicate IsParamName(s: string) {
    s != "" && (IsLower(s[0]) || s[0] == '_') && AllParamChars(s)
  }

  predicate EndsInNewline(s: string) {
    s != "" && s[|s| - 1] == '\n'
  }

  // `_SETTING_NAME_RE.match`: `$` also matches before a final newline.
  predicate MatchesParam(s: string) {
    IsParamName(s) || (EndsInNewline(s) && IsParamName(s[..|s| - 1]))
  }

  // The parameter the server reads in a name, if it reads one and nothing more.
  function ParamOf(name: string, reserved: set<string>): Option<string> {
    match ReadParam(Lex(name), reserved)
    case Some((p, rest)) => if rest == [] then Some(p) else None
    case None => None
  }

  predicate NoQuotes(s: string) {
    forall i :: 0 <= i < |s| ==> s[i] != '"' && s[i] != '\''
  }

  lemma EndsWordStill(b: string, rest: string)
    requires EndsWord(b) && EndsWord(rest)
    ensures EndsWord(b + rest)
  {
    if b == "" {
      assert b + rest == rest;
    }
  }

  lemma CutWord(w: string, b: string, rest: string)
    requires w != "" && IsWordStart(w[0]) && AllWordParts(w) && EndsWord(b) && EndsWord(rest)
    requires Lex(b + rest) == Lex(b) + Lex(rest)
    ensures Lex(w + (b + rest)) == Lex(w + b) + Lex(rest)
  {
    EndsWordStill(b, rest);
    LexWord(w, b + rest);
    LexWord(w, b);
    ConcatAssoc([Word(Fold(w))], Lex(b), Lex(rest));
  }

  predicate EndsNumber(s: string) {
    s == "" || !IsDigit(s[0])
  }

  lemma CutNumber(w: string, b: string, rest: string)
    requires w != "" && AllDigits(w) && EndsNumber(b) && EndsNumber(rest)
    requires Lex(b + rest) == Lex(b) + Lex(rest)
    ensures Lex(w + (b + rest)) == Lex(w + b) + Lex(rest)
  {
    if b == "" {
      assert b + rest == rest;
    }
    assert EndsNumber(b + rest);
    LexNumber(w, b + rest);
    LexNumber(w, b);
    ConcatAssoc([Number(w)], Lex(b), Lex(rest));
  }

  lemma CutOther(c: char, b: string, rest: string)
    requires c != '"' && c != '\'' && !IsWordStart(c) && !IsDigit(c)
    requires Lex(b + rest) == Lex(b) + Lex(rest)
    ensures Lex([c] + (b + rest)) == Lex([c] + b) + Lex(rest)
  {
    assert ([c] + (b + rest))[1..] == b + rest;
    assert ([c] + b)[1..] == b;
    if !IsSpace(c) {
      ConcatAssoc([Punct(c)], Lex(b), Lex(rest));
    }
  }

  // `w` and `b` are the first token of a text and what follows it.
  lemma CutAtWord(w: string, b: string, rest: string)
    requires w != "" && IsWordStart(w[0]) && AllWordParts(w) && EndsWord(b) && EndsWord(rest)
    requires Lex(b + rest) == Lex(b) + Lex(rest)
    ensures Lex((w + b) + rest) == Lex(w + b) + Lex(rest)
  {
    CutWord(w, b, rest);
    ConcatAssoc(w, b, rest);
  }

  lemma CutAtNumber(w: string, b: string, rest: string)
    requires w != "" && AllDigits(w) && EndsNumber(b) && EndsNumber(rest)
    requires Lex(b + rest) == Lex(b) + Lex(rest)
    ensures Lex((w + b) + rest) == Lex(w + b) + Lex(rest)
  {
    CutNumber(w, b, rest);
    ConcatAssoc(w, b, rest);
  }

  lemma CutsAfterWord(a: string, n: nat, rest: string)
    requires a != "" && IsWordStart(a[0]) && n == WordEnd(a) && EndsWord(rest)
    requires Lex(a[n..] + rest) == Lex(a[n..]) + Lex(rest)
    ensures Lex(a + rest) == Lex(a) + Lex(rest)
  {
    CutAtWord(a[..n], a[n..], rest);
    assert a[..n] + a[n..] == a;
  }

  lemma CutsAfterNumber(a: string, n: nat, rest: string)
    requires a != "" && IsDigit(a[0]) && n == DigitsEnd(a) && EndsNumber(rest)
    requires Lex(a[n..] + rest) == Lex(a[n..]) + Lex(rest)
    ensures Lex(a + rest) == Lex(a) + Lex(rest)
  {
    CutAtNumber(a[..n], a[n..], rest);
    assert a[..n] + a[n..] == a;
  }

  lemma CutsAfterOther(a: string, rest: string)
    requires a != "" && a[0] != '"' && a[0] != '\'' && !IsWordStart(a[0]) && !IsDigit(a[0])
    requires Lex(a[1..] + rest) == Lex(a[1..]) + Lex(rest)
    ensures Lex(a + rest) == Lex(a) + Lex(rest)
  {
    assert [a[0]] + a[1..] == a;
    ConcatAssoc([a[0]], a[1..], rest);
    CutOther(a[0], a[1..], rest);
  }

  // A text without quotes is cut off cleanly by white space.
  lemma {:induction false} LexCuts(a: string, rest: string)
    requires NoQuotes(a) && (rest == "" || IsSpace(rest[0]))
    ensures Lex(a + rest) == Lex(a) + Lex(rest)
    decreases |a|
  {
    if a == "" {
      assert a + rest == rest;
    } else if IsWordStart(a[0]) {
      LexCuts(a[WordEnd(a)..], rest);
      CutsAfterWord(a, WordEnd(a), rest);
    } else if IsDigit(a[0]) {
      LexCuts(a[DigitsEnd(a)..], rest);
      CutsAfterNumber(a, DigitsEnd(a), rest);
    } else {
      LexCuts(a[1..], rest);
      CutsAfterOther(a, rest);
    }
  }

  lemma {:induction false} QuotelessIsUnbroken(a: string)
    requires NoQuotes(a)
    ensures Broken !in Lex(a)
    decreases |a|
  {
    if a != "" {
      if IsWordStart(a[0]) {
        QuotelessIsUnbroken(a[WordEnd(a)..]);
      } else if IsDigit(a[0]) {
        QuotelessIsUnbroken(a[DigitsEnd(a)..]);
      } else {
        QuotelessIsUnbroken(a[1..]);
      }
    }
  }

  lemma {:induction false} ReadParamStopsAtEquals(ts: seq<Token>, more: seq<Token>, reserved: set<string>)
    requires more != [] && more[0] == Punct('=')
    ensures ReadParam(ts + more, reserved) ==
            match ReadParam(ts, reserved) case None => None case Some((p, rest)) => Some((p, rest + more))
  {
    if ts == [] {
      assert ts + more == more;
    } else if |ts| >= 2 && ts[1] == Punct('.') {
      ReadParamStopsAtEquals(ts[2..], more, reserved);
      assert (ts + more)[2..] == ts[2..] + more;
    } else {
      assert (ts + more)[1..] == ts[1..] + more;
    }
  }

  lemma LexSystemKw(rest: string)
    ensures Lex(Kw(true, "SYSTEM") + rest) == [Word("system")] + Lex(rest)
  {
    LexKw(true, "SYSTEM", "system", rest);
  }

  lemma LexAlterKw(rest: string)
    ensures Lex(Kw(true, "ALTER") + (Kw(true, "SYSTEM") + rest)) == [Word("alter"), Word("system")] + Lex(rest)
  {
    LexSystemKw(rest);
    LexKw(true, "ALTER", "alter", Kw(true, "SYSTEM") + rest);
  }

  lemma LexSetKw(rest: string)
    ensures Lex(Kw(true, "SET") + rest) == [Word("set")] + Lex(rest)
  {
    LexKw(true, "SET", "set", rest);
  }

  lemma LexResetKw(rest: string)
    ensures Lex(Kw(true, "RESET") + rest) == [Word("reset")] + Lex(rest)
  {
    LexKw(true, "RESET", "reset", rest);
  }

  lemma LexAssignment(value: string)
    ensures Lex(" = " + QuoteLiteral(value)) == [Punct('='), Literal(value)]
  {
    var v := QuoteLiteral(value);
    LiteralRoundTrip(value);
    LexSpace(v);
    LexPunct('=', " " + v);
    LexSpace("=" + (" " + v));
    assert " = " + v == " " + ("=" + (" " + v));
  }

  lemma ParamHasNoQuotes(name: string)
    requires MatchesParam(name)
    ensures NoQuotes(name)
  {
    forall i | 0 <= i < |name| ensures name[i] != '"' && name[i] != '\'' {
      if !IsParamName(name) && i < |name| - 1 {
        assert IsParamChar(name[..|name| - 1][i]);
      }
    }
  }

  lemma LexSet(name: string, value: string)
    requires MatchesParam(name)
    ensures Lex(SetText(name, value)) ==
            [Word("alter"), Word("system")] + ([Word("set")] + (Lex(name) + [Punct('='), Literal(value)]))
  {
    ParamHasNoQuotes(name);
    LexAssignment(value);
    LexCuts(name, " = " + QuoteLiteral(value));
    LexSetKw(name + (" = " + QuoteLiteral(value)));
    LexAlterKw(Kw(true, "SET") + (name + (" = " + QuoteLiteral(value))));
  }

  lemma LexReset(name: string)
    ensures Lex(ResetText(name)) == [Word("alter"), Word("system")] + ([Word("reset")] + Lex(name))
  {
    LexResetKw(name);
    LexAlterKw(Kw(true, "RESET") + name);
  }

  lemma ParsesAlter(ts: seq<Token>, reserved: set<string>)
    ensures Parse([Word("alter"), Word("system")] + ts, reserved) ==
            if Broken in ts then None else ParseAlter(ts, reserved)
  {
    var all := [Word("alter"), Word("system")] + ts;
    assert all[2..] == ts && all[1..][0] == Word("system");
  }

  /** Any value reaches the server as that one value, and any name as what the server reads
      in the name alone: `ALTER SYSTEM SET` cannot be made to say anything else. */
  lemma ParsesSet(name: string, value: string, reserved: set<string>)
    requires MatchesParam(name)
    ensures Parse(Lex(SetText(name, value)), reserved) ==
            match ParamOf(name, reserved) case Some(p) => Some(AlterSet(p, value)) case None => None
  {
    var given, more := Lex(name), [Punct('='), Literal(value)];
    ParamHasNoQuotes(name);
    QuotelessIsUnbroken(name);
    LexSet(name, value);
    var ts := [Word("set")] + (given + more);
    ParsesAlter(ts, reserved);
    Rest(Word("set"), given + more);
    ReadParamStopsAtEquals(given, more, reserved);
    var r := ReadParam(given, reserved);
    if r.Some? && r.value.1 == [] {
      assert [] + more == more;
    }
  }

  lemma ParsesReset(name: string, reserved: set<string>)
    requires MatchesParam(name)
    ensures Parse(Lex(ResetText(name)), reserved) ==
            match ParamOf(name, reserved) case Some(p) => Some(AlterReset(p)) case None => None
  {
    ParamHasNoQuotes(name);
    QuotelessIsUnbroken(name);
    LexReset(name);
    ParsesAlter([Word("reset")] + Lex(name), reserved);
    Rest(Word("reset"), Lex(name));
  }

  lemma {:induction false} WordEndOfParam(s: string)
    requires AllParamChars(s)
    ensures WordEnd(s) == |s| || s[WordEnd(s)] == '.'
    ensures forall i :: 0 <= i < WordEnd(s) ==> !IsUpper(s[i])
  {
    if s != "" && IsWordPart(s[0]) {
      WordEndOfParam(s[1..]);
    }
  }

  lemma NewlineIsBlank(s: string)
    requires AllParamChars(s)
    ensures Lex(s + "\n") == Lex(s)
  {
    LexNewline();
    LexCuts(s, "\n");
  }

  lemma LexNewline()
    ensures Lex("\n") == []
  {
    assert "\n"[1..] == "";
  }

  // The name without a final newline.
  function Chomp(name: string): string {
    if EndsInNewline(name) then name[..|name| - 1] else name
  }

  predicate LowerWord(w: string) {
    w != "" && IsWordStart(w[0]) && AllWordParts(w) && Fold(w) == w
  }

  lemma LexDotted(w: string, tail: string)
    requires LowerWord(w)
    ensures Lex(w + ("." + tail)) == [Word(w)] + ([Punct('.')] + Lex(tail))
  {
    LexPunct('.', tail);
    LexWord(w, "." + tail);
  }

  lemma LexAlone(w: string)
    requires LowerWord(w)
    ensures Lex(w) == [Word(w)]
  {
    LexWord(w, "");
    assert w + "" == w;
  }

  lemma ReadParamDotted(w: string, ts: seq<Token>, reserved: set<string>)
    ensures ReadParam([Word(w)] + ([Punct('.')] + ts), reserved) ==
            if w in reserved then None
            else match ReadParam(ts, reserved) case None => None case Some((p, rest)) => Some((w + "." + p, rest))
  {
    assert ([Word(w)] + ([Punct('.')] + ts))[2..] == ts;
  }

  lemma FirstWord(s: string)
    requires s != "" && IsWordStart(s[0]) && AllParamChars(s)
    ensures 0 < WordEnd(s) && LowerWord(s[..WordEnd(s)])
  {
    WordEndOfParam(s);
    FoldOfLower(s[..WordEnd(s)]);
  }

  lemma SplitAtDot(s: string, n: nat)
    requires n < |s| && s[n] == '.'
    ensures s == s[..n] + ("." + s[n + 1..])
  {
    assert "." + s[n + 1..] == s[n..];
  }

  lemma {:induction false} ReadParamIsTheText(s: string, reserved: set<string>)
    requires AllParamChars(s)
    ensures ParamOf(s, reserved).Some? ==> ParamOf(s, reserved).value == s
    decreases |s|
  {
    if s != "" && IsWordStart(s[0]) {
      var n := WordEnd(s);
      FirstWord(s);
      if n < |s| {
        WordEndOfParam(s);
        SplitAtDot(s, n);
        ReadParamIsTheText(s[n + 1..], reserved);
        LexDotted(s[..n], s[n + 1..]);
        ReadParamDotted(s[..n], Lex(s[n + 1..]), reserved);
        ConcatAssoc(s[..n], ".", s[n + 1..]);
      } else {
        assert s[..n] == s;
        LexAlone(s);
      }
    }
  }

  /** The parameter the server reads is the name itself; a final newline is ignored. */
  lemma ParamIsTheName(name: string, reserved: set<string>)
    requires MatchesParam(name)
    ensures ParamOf(name, reserved).Some? ==> ParamOf(name, reserved).value == Chomp(name)
    ensures ParamOf(name, reserved) == ParamOf(Chomp(name), reserved)
  {
    assert AllParamChars(Chomp(name));
    ReadParamIsTheText(Chomp(name), reserved);
    if EndsInNewline(name) {
      NewlineIsBlank(Chomp(name));
      assert name == Chomp(name) + "\n";
    }
  }
}
