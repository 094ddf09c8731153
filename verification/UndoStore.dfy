/**
 The undo store: tokens recorded, looked up, and marked applied.

 `UndoStore` updates its table in place; each method is proved to be the operation of the
 same name on the table, which is what the rest of the model reasons about.
 */
module UndoTokens {
  import opened Common
  import opened Json
  import opened Remediation

  datatype TokenStatus = Recorded | Applied

  // A JSON column: text that does not parse, or the value it holds.
  datatype Column = Unreadable | Holds(v: Value)

  datatype Token = Token(
    id: string,
    origin: Tool,
    inverse: Tool,
    params: Column,
    origParams: Column,
    status: TokenStatus,
    verified: bool
  )

  // `ok` is false when the database could not be initialised.
  datatype Tokens = Tokens(ok: bool, rows: seq<Token>)

  // json.dumps and json.loads: a tuple comes back as a list.
  function Reload(v: Value): Value
    decreases v, 1
  {
    match v
    case List(items) => List(ReloadItems(items))
    case Tuple(items) => List(ReloadItems(items))
    case Dict(entries) => Dict(ReloadEntries(entries))
    case _ => v
  }

  function ReloadItems(vs: seq<Value>): seq<Value>
    decreases vs, 0
  {
    if vs == [] then [] else [Reload(vs[0])] + ReloadItems(vs[1..])
  }

  function ReloadEntries(es: seq<Entry>): seq<Entry>
    decreases es, 0
  {
    if es == [] then [] else [Entry(es[0].key, Reload(es[0].value))] + ReloadEntries(es[1..])
  }

  lemma {:induction false} ReloadLookup(es: seq<Entry>, key: string)
    ensures Lookup(ReloadEntries(es), key) ==
            match Lookup(es, key) case Some(v) => Some(Reload(v)) case None => None
  {
    if es != [] {
      ReloadLookup(es[1..], key);
      assert ReloadEntries(es)[1..] == ReloadEntries(es[1..]);
    }
  }

  function NewToken(id: string, origin: Tool, d: Descriptor, params: Value, verified: bool): Token {
    Token(id, origin, d.tool, Holds(Reload(d.params)), Holds(Reload(params)), Recorded, verified)
  }

  predicate HasId(rows: seq<Token>, id: string) {
    exists i :: 0 <= i < |rows| && rows[i].id == id
  }

  // `undo_id` is a primary key: an insert under an id that is taken fails.
  function Record(t: Tokens, id: string, origin: Tool, d: Descriptor, params: Value, verified: bool, fails: bool)
    : (Tokens, Option<string>)
  {
    if !t.ok || d.tool == Named("") || fails || HasId(t.rows, id) then (t, None)
    else (t.(rows := t.rows + [NewToken(id, origin, d, params, verified)]), Some(id))
  }

  function Find(rows: seq<Token>, id: string): (r: Option<Token>)
    ensures r.Some? <==> HasId(rows, id)
    ensures r.Some? ==> r.value.id == id && r.value in rows
  {
    if rows == [] then None
    else if rows[0].id == id then Some(rows[0])
    else
      assert forall i :: 0 <= i < |rows[1..]| ==> rows[1..][i] == rows[i + 1];
      Find(rows[1..], id)
  }

  function GetToken(t: Tokens, id: string): Option<Token> {
    if t.ok then Find(t.rows, id) else None
  }

  function MarkRows(rows: seq<Token>, id: string, status: TokenStatus): (out: seq<Token>)
    ensures |out| == |rows|
    ensures forall i :: 0 <= i < |rows| ==>
              out[i] == if rows[i].id == id then rows[i].(status := status) else rows[i]
  {
    if rows == [] then []
    else [if rows[0].id == id then rows[0].(status := status) else rows[0]] + MarkRows(rows[1..], id, status)
  }

  function Mark(t: Tokens, id: string, status: TokenStatus): Tokens {
    if t.ok then t.(rows := MarkRows(t.rows, id, status)) else t
  }

  class UndoStore {
    var ok: bool
    var rows: seq<Token>

    function State(): Tokens
      reads this
    {
      Tokens(ok, rows)
    }

    constructor (initFails: bool)
      ensures State() == Tokens(!initFails, [])
    {
      ok, rows := !initFails, [];
    }

    // `id`: the fresh identifier drawn for the token. None is a failure, never an exception.
    method Insert(id: string, origin: Tool, d: Descriptor, params: Value, verified: bool, fails: bool)
      returns (r: Option<string>)
      modifies this
      ensures (State(), r) == Record(old(State()), id, origin, d, params, verified, fails)
    {
      if !ok || d.tool == Named("") {
        return None;
      }
      if fails || HasId(rows, id) {
        return None;
      }
      rows := rows + [NewToken(id, origin, d, params, verified)];
      return Some(id);
    }

    method Get(id: string) returns (r: Option<Token>)
      ensures r == GetToken(State(), id)
    {
      if !ok {
        return None;
      }
      r := Find(rows, id);
    }

    method SetStatus(id: string, status: TokenStatus) returns (found: bool)
      modifies this
      ensures State() == Mark(old(State()), id, status)
      ensures found <==> ok && HasId(old(rows), id)
    {
      if !ok {
        return false;
      }
      found := HasId(rows, id);
      rows := MarkRows(rows, id, status);
    }
  }

  lemma MarkedIsFound(t: Tokens, id: string, status: TokenStatus, other: string)
    ensures GetToken(Mark(t, id, status), other) ==
            match GetToken(t, other)
            case None => None
            case Some(tok) => Some(if other == id then tok.(status := status) else tok)
  {
    if t.ok {
      FindMarked(t.rows, id, status, other);
    }
  }

  lemma {:induction false} FindMarked(rows: seq<Token>, id: string, status: TokenStatus, other: string)
    ensures Find(MarkRows(rows, id, status), other) ==
            match Find(rows, other)
            case None => None
            case Some(tok) => Some(if other == id then tok.(status := status) else tok)
  {
    if rows != [] {
      FindMarked(rows[1..], id, status, other);
      assert MarkRows(rows, id, status)[1..] == MarkRows(rows[1..], id, status);
    }
  }

  lemma {:induction false} FindAppended(rows: seq<Token>, tok: Token, other: string)
    ensures Find(rows + [tok], other) ==
            if Find(rows, other).Some? then Find(rows, other) else if tok.id == other then Some(tok) else None
  {
    if rows == [] {
      assert rows + [tok] == [tok];
      assert [tok][1..] == [];
    } else {
      FindAppended(rows[1..], tok, other);
      assert (rows + [tok])[1..] == rows[1..] + [tok];
    }
  }

  /** Recording adds exactly the new token and disturbs no other. */
  lemma RecordedIsFound(t: Tokens, id: string, origin: Tool, d: Descriptor, params: Value, verified: bool, fails: bool, other: string)
    ensures var (t', r) := Record(t, id, origin, d, params, verified, fails);
            && (r.None? ==> t' == t)
            && (r.Some? ==> GetToken(t, id).None?)
            && (r.Some? ==>
                  GetToken(t', other) ==
                  if other == id then Some(NewToken(id, origin, d, params, verified)) else GetToken(t, other))
  {
    FindAppended(t.rows, NewToken(id, origin, d, params, verified), other);
  }
}
