/** hash.py: what of an input is looked at, and when two inputs are the same for it. */
module Cleaning {
  import opened CanonicalHash

  const DEFAULT_IGNORE_KEYS: set<string> :=
    {"timestamp", "createdAt", "updatedAt", "requestId", "traceId", "nonce", "idempotencyKey", "x-request-id"}

  function CleanInput(v: Py, ignore: set<string>): Py
    decreases v, 1
  {
    match v
    case PyDict(entries) => PyDict(CleanEntries(entries, ignore))
    case PyList(items) => PyList(seq(|items|, i requires 0 <= i < |items| => CleanInput(items[i], ignore)))
    case PyTuple(items) => PyList(seq(|items|, i requires 0 <= i < |items| => CleanInput(items[i], ignore)))
    case _ => v
  }

  function CleanEntries(entries: seq<Pair<Py>>, ignore: set<string>): seq<Pair<Py>>
    decreases entries, 0
  {
    if entries == [] then []
    else
      (if entries[0].key in ignore then [] else [Pair(entries[0].key, CleanInput(entries[0].value, ignore))])
        + CleanEntries(entries[1..], ignore)
  }

  /** No ignored key at any depth. */
  ghost predicate Clean(v: Py, ignore: set<string>) {
    match v
    case PyDict(entries) =>
      forall i | 0 <= i < |entries| :: entries[i].key !in ignore && Clean(entries[i].value, ignore)
    case PyList(items) => forall i | 0 <= i < |items| :: Clean(items[i], ignore)
    case PyTuple(items) => forall i | 0 <= i < |items| :: Clean(items[i], ignore)
    case _ => true
  }

  lemma {:induction false} CleanInputIsClean(v: Py, ignore: set<string>)
    ensures Clean(CleanInput(v, ignore), ignore)
    ensures CleanInput(CleanInput(v, ignore), ignore) == CleanInput(v, ignore)
    ensures WellFormed(v) ==> WellFormed(CleanInput(v, ignore))
    decreases v, 1
  {
    match v {
      case PyDict(entries) => CleanEntriesAreClean(entries, ignore);
      case PyList(items) => CleanItems(items, ignore);
      case PyTuple(items) => CleanItems(items, ignore);
      case _ =>
    }
  }

  lemma {:induction false} CleanItems(items: seq<Py>, ignore: set<string>)
    ensures forall i | 0 <= i < |items| ::
      && Clean(CleanInput(items[i], ignore), ignore)
      && CleanInput(CleanInput(items[i], ignore), ignore) == CleanInput(items[i], ignore)
      && (WellFormed(items[i]) ==> WellFormed(CleanInput(items[i], ignore)))
    decreases items, 0
  {
    forall i | 0 <= i < |items|
      ensures Clean(CleanInput(items[i], ignore), ignore)
      ensures CleanInput(CleanInput(items[i], ignore), ignore) == CleanInput(items[i], ignore)
      ensures WellFormed(items[i]) ==> WellFormed(CleanInput(items[i], ignore))
    {
      CleanInputIsClean(items[i], ignore);
    }
  }

  lemma {:induction false} CleanEntriesAreClean(entries: seq<Pair<Py>>, ignore: set<string>)
    ensures Clean(PyDict(CleanEntries(entries, ignore)), ignore)
    ensures CleanEntries(CleanEntries(entries, ignore), ignore) == CleanEntries(entries, ignore)
    ensures WellFormed(PyDict(entries)) ==> WellFormed(PyDict(CleanEntries(entries, ignore)))
    decreases entries, 0
  {
    hide WellFormed;
    if entries != [] {
      var e, rest := entries[0], CleanEntries(entries[1..], ignore);
      CleanInputIsClean(e.value, ignore);
      CleanEntriesAreClean(entries[1..], ignore);
      if WellFormed(PyDict(entries)) { FirstWellFormed(entries, ignore); }
      if e.key !in ignore {
        var first := Pair(e.key, CleanInput(e.value, ignore));
        assert CleanEntries(entries, ignore) == [first] + rest;
        assert ([first] + rest)[1..] == rest;
        if WellFormed(PyDict(entries)) { ConsWellFormed(first, rest); }
      } else {
        assert CleanEntries(entries, ignore) == rest;
      }
    }
  }

  lemma {:induction false} ConsWellFormed(first: Pair<Py>, rest: seq<Pair<Py>>)
    requires WellFormed(first.value) && WellFormed(PyDict(rest)) && forall p | p in rest :: p.key != first.key
    ensures WellFormed(PyDict([first] + rest))
  {
  }

  lemma {:induction false} FirstWellFormed(entries: seq<Pair<Py>>, ignore: set<string>)
    requires entries != [] && WellFormed(PyDict(entries))
    ensures WellFormed(entries[0].value) && WellFormed(PyDict(entries[1..]))
    ensures forall p | p in CleanEntries(entries[1..], ignore) :: p.key != entries[0].key
  {
    hide CleanEntries, CleanInput;
    CleaningKeeps(entries[1..], ignore);
    forall p | p in CleanEntries(entries[1..], ignore) ensures p.key != entries[0].key {
      var i :| 0 <= i < |entries[1..]| && entries[1..][i].key == p.key;
      assert entries[i + 1].key == p.key;
    }
  }

  // ---------------------------------------------------------------- what cleaning keeps

  /** Some entry that is not ignored is the origin of `p`. */
  ghost predicate ComesFrom(p: Pair<Py>, entries: seq<Pair<Py>>, ignore: set<string>) {
    exists i :: 0 <= i < |entries| && entries[i].key !in ignore
      && p == Pair(entries[i].key, CleanInput(entries[i].value, ignore))
  }

  /** An entry stays exactly if its key is not ignored, with its value cleaned. */
  lemma {:induction false} CleaningKeeps(entries: seq<Pair<Py>>, ignore: set<string>)
    ensures forall p :: p in CleanEntries(entries, ignore) <==> ComesFrom(p, entries, ignore)
    decreases entries
  {
    if entries != [] {
      var e, rest := entries[0], entries[1..];
      CleaningKeeps(rest, ignore);
      hide CleanInput;
      forall p ensures ComesFrom(p, entries, ignore) <==>
        ComesFrom(p, rest, ignore) || (e.key !in ignore && p == Pair(e.key, CleanInput(e.value, ignore)))
      {
        if i :| 0 <= i < |rest| && rest[i].key !in ignore && p == Pair(rest[i].key, CleanInput(rest[i].value, ignore)) {
          assert entries[i + 1] == rest[i];
        }
        if i :| 0 <= i < |entries| && entries[i].key !in ignore
                && p == Pair(entries[i].key, CleanInput(entries[i].value, ignore)) {
          if i > 0 { assert rest[i - 1] == entries[i]; }
        }
      }
    }
  }

  // ---------------------------------------------------------------- sameness of raw inputs

  /** The same, apart from ignored keys at any depth, each side with a list of its own. */
  ghost predicate SameUpTo(v: Py, ignore: set<string>, w: Py, ignore': set<string>) {
    match v
    case PyNone => w.PyNone?
    case PyBool(b) => w == PyBool(b)
    case PyInt(n) => w == PyInt(n) || w == PyFloat(n)
    case PyFloat(n) => w == PyInt(n) || w == PyFloat(n)
    case PyStr(s) => w == PyStr(s)
    case PyList(items) => (w.PyList? || w.PyTuple?) && ItemsUpTo(items, ignore, w.items, ignore')
    case PyTuple(items) => (w.PyList? || w.PyTuple?) && ItemsUpTo(items, ignore, w.items, ignore')
    case PyDict(entries) => w.PyDict? && EntriesUpTo(entries, ignore, w.entries, ignore')
  }

  ghost predicate ItemsUpTo(items: seq<Py>, ignore: set<string>, items': seq<Py>, ignore': set<string>) {
    |items| == |items'| && forall i | 0 <= i < |items| :: SameUpTo(items[i], ignore, items'[i], ignore')
  }

  ghost predicate EntriesUpTo(es: seq<Pair<Py>>, ignore: set<string>, es': seq<Pair<Py>>, ignore': set<string>) {
    && (forall i | 0 <= i < |es| && es[i].key !in ignore :: FoundIn(es[i], ignore, es', ignore'))
    && (forall j | 0 <= j < |es'| && es'[j].key !in ignore' :: FoundFor(es, ignore, es'[j], ignore'))
  }

  ghost predicate FoundIn(e: Pair<Py>, ignore: set<string>, es': seq<Pair<Py>>, ignore': set<string>) {
    exists j :: 0 <= j < |es'| && es'[j].key !in ignore' && EntryUpTo(e, ignore, es'[j], ignore')
  }

  ghost predicate FoundFor(es: seq<Pair<Py>>, ignore: set<string>, e': Pair<Py>, ignore': set<string>) {
    exists i :: 0 <= i < |es| && es[i].key !in ignore && EntryUpTo(es[i], ignore, e', ignore')
  }

  ghost predicate EntryUpTo(e: Pair<Py>, ignore: set<string>, e': Pair<Py>, ignore': set<string>) {
    e.key == e'.key && SameUpTo(e.value, ignore, e'.value, ignore')
  }

  /** Cleaned inputs are the same exactly if the inputs are the same up to what is ignored. */
  lemma {:induction false} CleanedExactly(v: Py, ignore: set<string>, w: Py, ignore': set<string>)
    ensures Same(CleanInput(v, ignore), CleanInput(w, ignore')) <==> SameUpTo(v, ignore, w, ignore')
    decreases v, 1
  {
    match v {
      case PyList(items) => if w.PyList? || w.PyTuple? { CleanedItems(items, ignore, w.items, ignore'); }
      case PyTuple(items) => if w.PyList? || w.PyTuple? { CleanedItems(items, ignore, w.items, ignore'); }
      case PyDict(entries) => if w.PyDict? { CleanedEntries(entries, ignore, w.entries, ignore'); }
      case _ =>
    }
  }

  lemma {:induction false} CleanedItems(items: seq<Py>, ignore: set<string>, items': seq<Py>, ignore': set<string>)
    ensures SameItems(seq(|items|, i requires 0 <= i < |items| => CleanInput(items[i], ignore)),
                      seq(|items'|, i requires 0 <= i < |items'| => CleanInput(items'[i], ignore')))
       <==> ItemsUpTo(items, ignore, items', ignore')
    decreases items, 0
  {
    var xs := seq(|items|, i requires 0 <= i < |items| => CleanInput(items[i], ignore));
    var ys := seq(|items'|, i requires 0 <= i < |items'| => CleanInput(items'[i], ignore'));
    if |items| == |items'| {
      forall i | 0 <= i < |items| ensures Same(xs[i], ys[i]) <==> SameUpTo(items[i], ignore, items'[i], ignore') {
        CleanedExactly(items[i], ignore, items'[i], ignore');
      }
      hide Same, SameUpTo;
      if ItemsUpTo(items, ignore, items', ignore') {
        forall i | 0 <= i < |xs| ensures Same(xs[i], ys[i]) { assert SameUpTo(items[i], ignore, items'[i], ignore'); }
      }
      if SameItems(xs, ys) {
        forall i | 0 <= i < |items| ensures SameUpTo(items[i], ignore, items'[i], ignore') {
          assert Same(xs[i], ys[i]);
        }
      }
    }
  }

  function Cleaned(e: Pair<Py>, ignore: set<string>): Pair<Py> { Pair(e.key, CleanInput(e.value, ignore)) }

  ghost predicate Related(es: seq<Pair<Py>>, ignore: set<string>, es': seq<Pair<Py>>, ignore': set<string>) {
    forall i, j | 0 <= i < |es| && 0 <= j < |es'| ::
      SameEntry(Cleaned(es[i], ignore), Cleaned(es'[j], ignore')) <==> EntryUpTo(es[i], ignore, es'[j], ignore')
  }

  /** What is the same after cleaning was the same up to what is ignored before. */
  lemma {:induction false} FoundBefore(es: seq<Pair<Py>>, ignore: set<string>,
                                       es': seq<Pair<Py>>, ignore': set<string>)
    requires Related(es, ignore, es', ignore') && SameEntries(CleanEntries(es, ignore), CleanEntries(es', ignore'))
    ensures EntriesUpTo(es, ignore, es', ignore')
  {
    CleaningKeeps(es, ignore);
    CleaningKeeps(es', ignore');
    var ps, ps' := CleanEntries(es, ignore), CleanEntries(es', ignore');
    hide SameEntry, EntryUpTo, CleanEntries, CleanInput, Matched, MatchedBy;
    forall i | 0 <= i < |es| && es[i].key !in ignore ensures FoundIn(es[i], ignore, es', ignore') {
      assert ComesFrom(Cleaned(es[i], ignore), es, ignore);
      var a :| 0 <= a < |ps| && ps[a] == Cleaned(es[i], ignore);
      assert Matched(ps[a], ps');
      var b := Match(ps[a], ps');
      assert ComesFrom(ps'[b], es', ignore');
    }
    forall j | 0 <= j < |es'| && es'[j].key !in ignore' ensures FoundFor(es, ignore, es'[j], ignore') {
      assert ComesFrom(Cleaned(es'[j], ignore'), es', ignore');
      var b :| 0 <= b < |ps'| && ps'[b] == Cleaned(es'[j], ignore');
      assert MatchedBy(ps, ps'[b]);
      var a := MatchBy(ps, ps'[b]);
      assert ComesFrom(ps[a], es, ignore);
    }
  }

  lemma Match(p: Pair<Py>, ps': seq<Pair<Py>>) returns (b: nat)
    requires Matched(p, ps')
    ensures b < |ps'| && SameEntry(p, ps'[b])
  {
    b :| 0 <= b < |ps'| && SameEntry(p, ps'[b]);
  }

  lemma MatchBy(ps: seq<Pair<Py>>, p': Pair<Py>) returns (a: nat)
    requires MatchedBy(ps, p')
    ensures a < |ps| && SameEntry(ps[a], p')
  {
    a :| 0 <= a < |ps| && SameEntry(ps[a], p');
  }

  /** And the other way round. */
  lemma {:induction false} MatchedAfter(es: seq<Pair<Py>>, ignore: set<string>,
                                        es': seq<Pair<Py>>, ignore': set<string>)
    requires Related(es, ignore, es', ignore') && EntriesUpTo(es, ignore, es', ignore')
    ensures SameEntries(CleanEntries(es, ignore), CleanEntries(es', ignore'))
  {
    CleaningKeeps(es, ignore);
    CleaningKeeps(es', ignore');
    var ps, ps' := CleanEntries(es, ignore), CleanEntries(es', ignore');
    hide SameEntry, EntryUpTo, CleanEntries, CleanInput;
    forall a | 0 <= a < |ps| ensures Matched(ps[a], ps') {
      assert ps[a] in ps && ComesFrom(ps[a], es, ignore);
      var i :| 0 <= i < |es| && es[i].key !in ignore && ps[a] == Cleaned(es[i], ignore);
      assert FoundIn(es[i], ignore, es', ignore');
      var j :| 0 <= j < |es'| && es'[j].key !in ignore' && EntryUpTo(es[i], ignore, es'[j], ignore');
      assert ComesFrom(Cleaned(es'[j], ignore'), es', ignore');
      var b :| 0 <= b < |ps'| && ps'[b] == Cleaned(es'[j], ignore');
      assert SameEntry(ps[a], ps'[b]);
    }
    forall b | 0 <= b < |ps'| ensures MatchedBy(ps, ps'[b]) {
      assert ps'[b] in ps' && ComesFrom(ps'[b], es', ignore');
      var j :| 0 <= j < |es'| && es'[j].key !in ignore' && ps'[b] == Cleaned(es'[j], ignore');
      assert FoundFor(es, ignore, es'[j], ignore');
      var i :| 0 <= i < |es| && es[i].key !in ignore && EntryUpTo(es[i], ignore, es'[j], ignore');
      assert ComesFrom(Cleaned(es[i], ignore), es, ignore);
      var a :| 0 <= a < |ps| && ps[a] == Cleaned(es[i], ignore);
      assert SameEntry(ps[a], ps'[b]);
    }
  }

  lemma {:induction false} CleanedEntries(es: seq<Pair<Py>>, ignore: set<string>,
                                          es': seq<Pair<Py>>, ignore': set<string>)
    ensures SameEntries(CleanEntries(es, ignore), CleanEntries(es', ignore')) <==> EntriesUpTo(es, ignore, es', ignore')
    decreases es, 0
  {
    forall i, j | 0 <= i < |es| && 0 <= j < |es'|
      ensures SameEntry(Cleaned(es[i], ignore), Cleaned(es'[j], ignore')) <==> EntryUpTo(es[i], ignore, es'[j], ignore')
    {
      CleanedExactly(es[i].value, ignore, es'[j].value, ignore');
    }
    hide SameEntry, EntryUpTo, CleanEntries, CleanInput, SameEntries, EntriesUpTo;
    if SameEntries(CleanEntries(es, ignore), CleanEntries(es', ignore')) { FoundBefore(es, ignore, es', ignore'); }
    if EntriesUpTo(es, ignore, es', ignore') { MatchedAfter(es, ignore, es', ignore'); }
  }
}
