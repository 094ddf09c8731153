/**
 Redaction of sensitive parameters in nested dicts, lists and tuples.

 Main result: two parameter trees redact to the same tree exactly when they differ in
 nothing but the values under sensitive keys. Audit rows and runaway fingerprints are
 computed from the redacted tree, so neither can depend on a secret.
 */
module Redaction {
  import opened Json

  const MASK: Value := Str("***")

  // `_redact`: an empty set of sensitive names returns the parameters as they are.
  function Redact(es: seq<Entry>, sensitive: set<string>): seq<Entry> {
    if sensitive == {} then es else RedactEntries(es, sensitive)
  }

  function RedactEntries(es: seq<Entry>, sensitive: set<string>): seq<Entry>
    decreases es, 0
  {
    if es == [] then []
    else
      var e := es[0];
      [Entry(e.key, if e.key in sensitive then MASK else RedactValue(e.value, sensitive))] +
      RedactEntries(es[1..], sensitive)
  }

  function RedactItems(vs: seq<Value>, sensitive: set<string>): seq<Value>
    decreases vs, 0
  {
    if vs == [] then [] else [RedactValue(vs[0], sensitive)] + RedactItems(vs[1..], sensitive)
  }

  function RedactValue(v: Value, sensitive: set<string>): Value
    decreases v, 1
  {
    match v
    case Dict(entries) => Dict(RedactEntries(entries, sensitive))
    case List(items) => List(RedactItems(items, sensitive))
    case Tuple(items) => Tuple(RedactItems(items, sensitive))
    case _ => v
  }

  // ── equal but for sensitive values ──────────────────────────────────────

  // Same keys in the same order; values may differ freely under sensitive keys only.
  predicate Alike(v: Value, w: Value, sensitive: set<string>)
    decreases v, 1
  {
    match v
    case Dict(entries) => w.Dict? && AlikeEntries(entries, w.entries, sensitive)
    case List(items) => w.List? && AlikeItems(items, w.items, sensitive)
    case Tuple(items) => w.Tuple? && AlikeItems(items, w.items, sensitive)
    case _ => v == w
  }

  predicate AlikeItems(vs: seq<Value>, ws: seq<Value>, sensitive: set<string>)
    decreases vs, 0
  {
    if vs == [] || ws == [] then vs == ws
    else Alike(vs[0], ws[0], sensitive) && AlikeItems(vs[1..], ws[1..], sensitive)
  }

  predicate AlikeEntries(es: seq<Entry>, fs: seq<Entry>, sensitive: set<string>)
    decreases es, 0
  {
    if es == [] || fs == [] then es == fs
    else
      && es[0].key == fs[0].key
      && (es[0].key in sensitive || Alike(es[0].value, fs[0].value, sensitive))
      && AlikeEntries(es[1..], fs[1..], sensitive)
  }

  lemma {:induction false} ValuesRedactAlike(v: Value, w: Value, sensitive: set<string>)
    ensures RedactValue(v, sensitive) == RedactValue(w, sensitive) <==> Alike(v, w, sensitive)
    decreases v, 1
  {
    if v.Dict? && w.Dict? {
      EntriesRedactAlike(v.entries, w.entries, sensitive);
    } else if (v.List? && w.List?) || (v.Tuple? && w.Tuple?) {
      ItemsRedactAlike(v.items, w.items, sensitive);
    }
  }

  lemma {:induction false} ItemsRedactAlike(vs: seq<Value>, ws: seq<Value>, sensitive: set<string>)
    ensures RedactItems(vs, sensitive) == RedactItems(ws, sensitive) <==> AlikeItems(vs, ws, sensitive)
    decreases vs, 0
  {
    if vs != [] && ws != [] {
      ValuesRedactAlike(vs[0], ws[0], sensitive);
      ItemsRedactAlike(vs[1..], ws[1..], sensitive);
      HeadAndTail(RedactValue(vs[0], sensitive), RedactItems(vs[1..], sensitive),
                  RedactValue(ws[0], sensitive), RedactItems(ws[1..], sensitive));
    }
  }

  lemma HeadAndTail<T>(x: T, xs: seq<T>, y: T, ys: seq<T>)
    ensures [x] + xs == [y] + ys <==> x == y && xs == ys
  {
    if [x] + xs == [y] + ys {
      assert ([x] + xs)[0] == ([y] + ys)[0];
      assert ([x] + xs)[1..] == xs && ([y] + ys)[1..] == ys;
    }
  }

  lemma {:induction false} EntriesRedactAlike(es: seq<Entry>, fs: seq<Entry>, sensitive: set<string>)
    ensures RedactEntries(es, sensitive) == RedactEntries(fs, sensitive) <==> AlikeEntries(es, fs, sensitive)
    decreases es, 0
  {
    if es != [] && fs != [] {
      ValuesRedactAlike(es[0].value, fs[0].value, sensitive);
      EntriesRedactAlike(es[1..], fs[1..], sensitive);
      HeadAndTail(RedactEntries(es, sensitive)[0], RedactEntries(es[1..], sensitive),
                  RedactEntries(fs, sensitive)[0], RedactEntries(fs[1..], sensitive));
    }
  }

  lemma {:induction false} AlikeWithNothingSensitive(v: Value, w: Value)
    ensures Alike(v, w, {}) <==> v == w
    decreases v, 1
  {
    if v.Dict? && w.Dict? {
      EntriesAlikeWithNothingSensitive(v.entries, w.entries);
    } else if (v.List? && w.List?) || (v.Tuple? && w.Tuple?) {
      ItemsAlikeWithNothingSensitive(v.items, w.items);
    }
  }

  lemma {:induction false} ItemsAlikeWithNothingSensitive(vs: seq<Value>, ws: seq<Value>)
    ensures AlikeItems(vs, ws, {}) <==> vs == ws
    decreases vs, 0
  {
    if vs != [] && ws != [] {
      AlikeWithNothingSensitive(vs[0], ws[0]);
      ItemsAlikeWithNothingSensitive(vs[1..], ws[1..]);
      HeadAndTail(vs[0], vs[1..], ws[0], ws[1..]);
      assert vs == [vs[0]] + vs[1..] && ws == [ws[0]] + ws[1..];
    }
  }

  lemma {:induction false} EntriesAlikeWithNothingSensitive(es: seq<Entry>, fs: seq<Entry>)
    ensures AlikeEntries(es, fs, {}) <==> es == fs
    decreases es, 0
  {
    if es != [] && fs != [] {
      AlikeWithNothingSensitive(es[0].value, fs[0].value);
      EntriesAlikeWithNothingSensitive(es[1..], fs[1..]);
      HeadAndTail(es[0], es[1..], fs[0], fs[1..]);
      assert es == [es[0]] + es[1..] && fs == [fs[0]] + fs[1..];
    }
  }

  /** Redaction hides the sensitive values and nothing else, at any depth. */
  lemma RedactionHidesExactlyTheSecrets(es: seq<Entry>, fs: seq<Entry>, sensitive: set<string>)
    ensures Redact(es, sensitive) == Redact(fs, sensitive) <==> AlikeEntries(es, fs, sensitive)
  {
    if sensitive == {} {
      EntriesAlikeWithNothingSensitive(es, fs);
    } else {
      EntriesRedactAlike(es, fs, sensitive);
    }
  }

  lemma {:induction false} RedactedIsAlike(v: Value, sensitive: set<string>)
    ensures Alike(v, RedactValue(v, sensitive), sensitive)
    decreases v, 1
  {
    if v.Dict? {
      RedactedEntriesAreAlike(v.entries, sensitive);
    } else if v.List? || v.Tuple? {
      RedactedItemsAreAlike(v.items, sensitive);
    }
  }

  lemma {:induction false} RedactedItemsAreAlike(vs: seq<Value>, sensitive: set<string>)
    ensures AlikeItems(vs, RedactItems(vs, sensitive), sensitive)
    decreases vs, 0
  {
    if vs != [] {
      RedactedIsAlike(vs[0], sensitive);
      RedactedItemsAreAlike(vs[1..], sensitive);
    }
  }

  lemma {:induction false} RedactedEntriesAreAlike(es: seq<Entry>, sensitive: set<string>)
    ensures AlikeEntries(es, RedactEntries(es, sensitive), sensitive)
    decreases es, 0
  {
    if es != [] {
      RedactedIsAlike(es[0].value, sensitive);
      RedactedEntriesAreAlike(es[1..], sensitive);
    }
  }

  /** Redaction keeps the shape: the result differs from its input only under sensitive
      keys. So redacting again changes nothing. */
  lemma RedactionKeepsShape(es: seq<Entry>, sensitive: set<string>)
    ensures AlikeEntries(es, Redact(es, sensitive), sensitive)
    ensures Redact(Redact(es, sensitive), sensitive) == Redact(es, sensitive)
  {
    if sensitive == {} {
      EntriesAlikeWithNothingSensitive(es, es);
    } else {
      RedactedEntriesAreAlike(es, sensitive);
      EntriesRedactAlike(es, Redact(es, sensitive), sensitive);
    }
  }

  // No sensitive key, at any depth, still carries a value of its own.
  predicate Clean(v: Value, sensitive: set<string>)
    decreases v, 1
  {
    match v
    case Dict(entries) => CleanEntries(entries, sensitive)
    case List(items) => CleanItems(items, sensitive)
    case Tuple(items) => CleanItems(items, sensitive)
    case _ => true
  }

  predicate CleanItems(vs: seq<Value>, sensitive: set<string>)
    decreases vs, 0
  {
    vs == [] || (Clean(vs[0], sensitive) && CleanItems(vs[1..], sensitive))
  }

  predicate CleanEntries(es: seq<Entry>, sensitive: set<string>)
    decreases es, 0
  {
    es == [] ||
    (&& (if es[0].key in sensitive then es[0].value == MASK else Clean(es[0].value, sensitive))
     && CleanEntries(es[1..], sensitive))
  }

  lemma {:induction false} RedactedIsClean(v: Value, sensitive: set<string>)
    ensures Clean(RedactValue(v, sensitive), sensitive)
    decreases v, 1
  {
    if v.Dict? {
      RedactedEntriesAreClean(v.entries, sensitive);
    } else if v.List? || v.Tuple? {
      RedactedItemsAreClean(v.items, sensitive);
    }
  }

  lemma {:induction false} RedactedItemsAreClean(vs: seq<Value>, sensitive: set<string>)
    ensures CleanItems(RedactItems(vs, sensitive), sensitive)
    decreases vs, 0
  {
    if vs != [] {
      RedactedIsClean(vs[0], sensitive);
      RedactedItemsAreClean(vs[1..], sensitive);
    }
  }

  /** After redaction every sensitive key, however deep, holds the mask. */
  lemma {:induction false} RedactedEntriesAreClean(es: seq<Entry>, sensitive: set<string>)
    ensures CleanEntries(RedactEntries(es, sensitive), sensitive)
    decreases es, 0
  {
    if es != [] {
      RedactedIsClean(es[0].value, sensitive);
      RedactedEntriesAreClean(es[1..], sensitive);
    }
  }
}
