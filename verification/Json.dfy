/** The Python values that tool parameters and results are made of. Dicts keep their order. */
module Json {
  import opened Common

  datatype Value =
    | Null
    | Bool(b: bool)
    | Num(n: int)
    | Str(s: string)
    | List(items: seq<Value>)
    | Tuple(items: seq<Value>)
    | Dict(entries: seq<Entry>)

  datatype Entry = Entry(key: string, value: Value)

  function Lookup(es: seq<Entry>, key: string): Option<Value> {
    if es == [] then None
    else if es[0].key == key then Some(es[0].value)
    else Lookup(es[1..], key)
  }

  // `d.get(key)` when v is a dict; None otherwise, as the callers test isinstance first.
  function Get(v: Value, key: string): Value {
    if v.Dict? then
      match Lookup(v.entries, key) case Some(x) => x case None => Null
    else Null
  }

  predicate Has(v: Value, key: string) {
    v.Dict? && Lookup(v.entries, key).Some?
  }

  predicate Truthy(v: Value) {
    match v
    case Null => false
    case Bool(b) => b
    case Num(n) => n != 0
    case Str(s) => s != ""
    case List(items) => items != []
    case Tuple(items) => items != []
    case Dict(entries) => entries != []
  }

  // `d.setdefault(key, x)`; anything but a dict is left alone.
  function SetDefault(v: Value, key: string, x: Value): Value {
    if v.Dict? && !Has(v, key) then Dict(v.entries + [Entry(key, x)]) else v
  }

  lemma {:induction false} LookupAppend(es: seq<Entry>, more: seq<Entry>, key: string)
    ensures Lookup(es + more, key) ==
            match Lookup(es, key) case Some(x) => Some(x) case None => Lookup(more, key)
  {
    if es == [] {
      assert es + more == more;
    } else {
      assert (es + more)[1..] == es[1..] + more;
      LookupAppend(es[1..], more, key);
    }
  }

  /** `setdefault` never overwrites: it fills a missing key and touches no other. */
  lemma SetDefaultOnlyFills(v: Value, key: string, x: Value, other: string)
    requires v.Dict?
    ensures Get(SetDefault(v, key, x), other) ==
            if other == key && !Has(v, key) then x else Get(v, other)
    ensures Has(SetDefault(v, key, x), other) <==> other == key || Has(v, other)
  {
    LookupAppend(v.entries, [Entry(key, x)], other);
  }
}
