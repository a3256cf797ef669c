/** What a fingerprint means: which operations share one. */
module Fingerprints {
  import opened Values
  import opened CanonicalHash
  import opened Cleaning
  import opened UniqueDecoding

  // ---------------------------------------------------------------- sorting

  lemma {:induction false} LessTrichotomy(a: string, b: string)
    ensures !Less(a, a)
    ensures Less(a, b) || Less(b, a) || a == b
    ensures !(Less(a, b) && Less(b, a))
  {
    if a != [] {
      LessTrichotomy(a[1..], if b == [] then [] else b[1..]);
      if b != [] && a[0] == b[0] {
        assert a == [a[0]] + a[1..] && b == [b[0]] + b[1..];
      }
    }
  }

  lemma {:induction false} LessTransitive(a: string, b: string, c: string)
    requires Less(a, b) && Less(b, c)
    ensures Less(a, c)
  {
    if a != [] && a[0] == b[0] && b[0] == c[0] {
      LessTransitive(a[1..], b[1..], c[1..]);
    }
  }

  ghost predicate Sorted<T>(ps: seq<Pair<T>>) {
    forall i, j | 0 <= i < j < |ps| :: Less(ps[i].key, ps[j].key)
  }

  lemma {:induction false} InsertSorts<T(!new)>(p: Pair<T>, ps: seq<Pair<T>>)
    requires Sorted(ps) && forall q | q in ps :: q.key != p.key
    ensures Sorted(Insert(p, ps))
    ensures forall q :: q in Insert(p, ps) <==> q == p || q in ps
  {
    if ps != [] {
      LessTrichotomy(p.key, ps[0].key);
      if Less(p.key, ps[0].key) {
        forall j | 0 < j < |ps| ensures Less(p.key, ps[j].key) {
          LessTransitive(p.key, ps[0].key, ps[j].key);
        }
      } else {
        assert ps[0] in ps && forall q | q in ps[1..] :: q in ps;
        InsertSorts(p, ps[1..]);
        assert Less(ps[0].key, p.key);
        var rest := Insert(p, ps[1..]);
        forall j | 0 <= j < |rest| ensures Less(ps[0].key, rest[j].key) {
          assert rest[j] in rest;
          if rest[j] != p {
            var i :| 0 <= i < |ps[1..]| && ps[1..][i] == rest[j];
            assert ps[i + 1] == rest[j];
          }
        }
        assert ps == [ps[0]] + ps[1..];
      }
    }
  }

  lemma {:induction false} SortSorts<T(!new)>(ps: seq<Pair<T>>)
    requires Distinct(ps)
    ensures Sorted(Sort(ps)) && forall q :: q in Sort(ps) <==> q in ps
  {
    if ps != [] {
      SortSorts(ps[1..]);
      forall q | q in Sort(ps[1..]) ensures q.key != ps[0].key {
        assert q in ps[1..];
        var i :| 0 <= i < |ps[1..]| && ps[1..][i] == q;
        assert ps[i + 1] == q;
      }
      InsertSorts(ps[0], Sort(ps[1..]));
      assert ps == [ps[0]] + ps[1..];
    }
  }

  /** A sorted sequence is determined by its elements. */
  lemma {:induction false} SortedUnique<T(!new)>(ps: seq<Pair<T>>, qs: seq<Pair<T>>)
    requires Sorted(ps) && Sorted(qs) && forall p :: p in ps <==> p in qs
    ensures ps == qs
  {
    if qs != [] { assert qs[0] in qs; }
    if ps != [] {
      assert ps[0] in qs && qs[0] in ps;
      FirstsAgree(ps, qs);
      forall p ensures p in ps[1..] <==> p in qs[1..] {
        LessTrichotomy(ps[0].key, ps[0].key);
        assert p in ps <==> p == ps[0] || p in ps[1..];
        assert p in qs <==> p == qs[0] || p in qs[1..];
      }
      SortedUnique(ps[1..], qs[1..]);
      assert ps == [ps[0]] + ps[1..] && qs == [qs[0]] + qs[1..];
    }
  }

  lemma FirstsAgree<T(!new)>(ps: seq<Pair<T>>, qs: seq<Pair<T>>)
    requires Sorted(ps) && Sorted(qs) && ps != [] && qs != [] && ps[0] in qs && qs[0] in ps
    ensures ps[0] == qs[0]
  {
    var i :| 0 <= i < |qs| && qs[i] == ps[0];
    var j :| 0 <= j < |ps| && ps[j] == qs[0];
    if i > 0 && j > 0 {
      assert Less(qs[0].key, ps[0].key) && Less(ps[0].key, qs[0].key);
      LessTrichotomy(ps[0].key, qs[0].key);
    }
  }

  // ---------------------------------------------------------------- serialising is printing

  function Printed(ps: seq<Pair<Canon>>): seq<Pair<string>> {
    seq(|ps|, i requires 0 <= i < |ps| => Pair(ps[i].key, Print(ps[i].value)))
  }

  lemma {:induction false} InsertPrinted(p: Pair<Canon>, ps: seq<Pair<Canon>>)
    ensures Insert(Pair(p.key, Print(p.value)), Printed(ps)) == Printed(Insert(p, ps))
  {
    hide Print;
    if ps != [] && !Less(p.key, ps[0].key) {
      InsertPrinted(p, ps[1..]);
      assert Printed(ps)[1..] == Printed(ps[1..]);
    }
  }

  lemma {:induction false} SortPrinted(ps: seq<Pair<Canon>>)
    ensures Sort(Printed(ps)) == Printed(Sort(ps))
  {
    hide Print;
    if ps != [] {
      SortPrinted(ps[1..]);
      assert Printed(ps)[1..] == Printed(ps[1..]);
      InsertPrinted(ps[0], Sort(ps[1..]));
    }
  }

  lemma {:induction false} SortLength<T(!new)>(ps: seq<Pair<T>>)
    ensures |Sort(ps)| == |ps|
  {
    if ps != [] {
      SortLength(ps[1..]);
      InsertLength(ps[0], Sort(ps[1..]));
    }
  }

  lemma {:induction false} InsertLength<T(!new)>(p: Pair<T>, ps: seq<Pair<T>>)
    ensures |Insert(p, ps)| == |ps| + 1
  {
    if ps != [] { InsertLength(p, ps[1..]); }
  }

  lemma {:induction false} JoinPrinted(ps: seq<Pair<Canon>>)
    ensures Join(Printed(ps)) == PrintPairs(ps)
  {
    hide Print, SerializeString;
    if ps != [] {
      JoinPrinted(ps[1..]);
      assert Printed(ps)[1..] == Printed(ps[1..]);
    }
  }

  lemma {:induction false} SerializeIsPrint(v: Py)
    ensures Serialize(v) == Print(Normal(v))
    decreases v, 1
  {
    hide Numeral;
    match v {
      case PyList(items) => SerializeItemsIsPrint(items);
      case PyTuple(items) => SerializeItemsIsPrint(items);
      case PyDict(entries) =>
        var texts := seq(|entries|, i requires 0 <= i < |entries| => Pair(entries[i].key, Serialize(entries[i].value)));
        forall i | 0 <= i < |entries| ensures Serialize(entries[i].value) == Print(Normal(entries[i].value)) {
          SerializeIsPrint(entries[i].value);
        }
        var ps := NormalPairs(entries);
        assert texts == Printed(ps);
        SortPrinted(ps);
        SortLength(ps);
        JoinPrinted(Sort(ps));
      case _ =>
    }
  }

  lemma {:induction false} SerializeItemsIsPrint(items: seq<Py>)
    ensures SerializeItems(items) == PrintItems(seq(|items|, i requires 0 <= i < |items| => Normal(items[i])))
    decreases items, 0
  {
    if items != [] {
      SerializeIsPrint(items[0]);
      SerializeItemsIsPrint(items[1..]);
      var normals := seq(|items|, i requires 0 <= i < |items| => Normal(items[i]));
      assert normals[1..] == seq(|items| - 1, i requires 0 <= i < |items| - 1 => Normal(items[1..][i]));
    }
  }

  // ---------------------------------------------------------------- canonical values are Python values up to Same

  lemma {:induction false} NormalIsSame(v: Py, w: Py)
    requires WellFormed(v) && WellFormed(w)
    ensures Normal(v) == Normal(w) <==> Same(v, w)
    decreases v, 1
  {
    match v {
      case PyList(items) => if w.PyList? || w.PyTuple? { NormalItems(items, w.items); }
      case PyTuple(items) => if w.PyList? || w.PyTuple? { NormalItems(items, w.items); }
      case PyDict(entries) => if w.PyDict? { NormalEntries(entries, w.entries); }
      case _ =>
    }
  }

  lemma {:induction false} NormalItems(items: seq<Py>, items': seq<Py>)
    requires forall i | 0 <= i < |items| :: WellFormed(items[i])
    requires forall i | 0 <= i < |items'| :: WellFormed(items'[i])
    ensures var ns := seq(|items|, i requires 0 <= i < |items| => Normal(items[i]));
      var ns' := seq(|items'|, i requires 0 <= i < |items'| => Normal(items'[i]));
      ns == ns' <==> SameItems(items, items')
    decreases items, 0
  {
    var ns := seq(|items|, i requires 0 <= i < |items| => Normal(items[i]));
    var ns' := seq(|items'|, i requires 0 <= i < |items'| => Normal(items'[i]));
    if |items| == |items'| {
      forall i | 0 <= i < |items| ensures ns[i] == ns'[i] <==> Same(items[i], items'[i]) {
        NormalIsSame(items[i], items'[i]);
      }
      if SameItems(items, items') { assert ns == ns'; }
      if ns == ns' { assert forall i | 0 <= i < |items| :: ns[i] == ns'[i]; }
    } else {
      assert |ns| != |ns'|;
    }
  }

  lemma {:induction false} NormalEntries(es: seq<Pair<Py>>, es': seq<Pair<Py>>)
    requires Distinct(es) && forall i | 0 <= i < |es| :: WellFormed(es[i].value)
    requires Distinct(es') && forall i | 0 <= i < |es'| :: WellFormed(es'[i].value)
    ensures Sort(NormalPairs(es)) == Sort(NormalPairs(es')) <==> SameEntries(es, es')
    decreases es, 0
  {
    var ps, ps' := NormalPairs(es), NormalPairs(es');
    forall i, j | 0 <= i < |es| && 0 <= j < |es'|
      ensures ps[i] == ps'[j] <==> SameEntry(es[i], es'[j])
    {
      NormalIsSame(es[i].value, es'[j].value);
    }
    hide WellFormed, Normal, Same, Sort;
    SortedAlike(ps, ps');
    hide SameEntry;
    Forth(es, es', ps, ps');
    Back(es, es', ps, ps');
  }

  lemma SortedAlike<T(!new)>(ps: seq<Pair<T>>, qs: seq<Pair<T>>)
    requires Distinct(ps) && Distinct(qs)
    ensures Sort(ps) == Sort(qs) <==> forall p :: p in ps <==> p in qs
  {
    SortSorts(ps);
    SortSorts(qs);
    hide Sort;
    if forall p :: p in ps <==> p in qs {
      SortedUnique(Sort(ps), Sort(qs));
    }
  }

  /** Two lists of entries and their images, related entry by entry. */
  ghost predicate Alike<T>(es: seq<Pair<Py>>, es': seq<Pair<Py>>, ps: seq<Pair<T>>, ps': seq<Pair<T>>) {
    && |ps| == |es| && |ps'| == |es'|
    && forall i, j | 0 <= i < |es| && 0 <= j < |es'| :: ps[i] == ps'[j] <==> SameEntry(es[i], es'[j])
  }

  lemma Forth<T(!new)>(es: seq<Pair<Py>>, es': seq<Pair<Py>>, ps: seq<Pair<T>>, ps': seq<Pair<T>>)
    requires Alike(es, es', ps, ps')
    ensures (forall p | p in ps :: p in ps') <==>
      forall i | 0 <= i < |es| :: Matched(es[i], es')
  {
    hide SameEntry;
    if forall p | p in ps :: p in ps' {
      forall i | 0 <= i < |es| ensures Matched(es[i], es') {
        assert ps[i] in ps';
        var j :| 0 <= j < |ps'| && ps'[j] == ps[i];
        assert SameEntry(es[i], es'[j]);
      }
    }
    if forall i | 0 <= i < |es| :: Matched(es[i], es') {
      forall p | p in ps ensures p in ps' {
        var i :| 0 <= i < |ps| && ps[i] == p;
        var j :| 0 <= j < |es'| && SameEntry(es[i], es'[j]);
        assert ps'[j] == p;
      }
    }
  }

  lemma Back<T(!new)>(es: seq<Pair<Py>>, es': seq<Pair<Py>>, ps: seq<Pair<T>>, ps': seq<Pair<T>>)
    requires Alike(es, es', ps, ps')
    ensures (forall p | p in ps' :: p in ps) <==>
      forall j | 0 <= j < |es'| :: MatchedBy(es, es'[j])
  {
    hide SameEntry;
    if forall p | p in ps' :: p in ps {
      forall j | 0 <= j < |es'| ensures MatchedBy(es, es'[j]) {
        assert ps'[j] in ps;
        var i :| 0 <= i < |ps| && ps[i] == ps'[j];
        assert SameEntry(es[i], es'[j]);
      }
    }
    if forall j | 0 <= j < |es'| :: MatchedBy(es, es'[j]) {
      forall p | p in ps' ensures p in ps {
        var j :| 0 <= j < |ps'| && ps'[j] == p;
        var i :| 0 <= i < |es| && SameEntry(es[i], es'[j]);
        assert ps[i] == p;
      }
    }
  }

  /** Unique decoding: a serialised value can be read off any text that does not go on with a
      digit, up to what Python equality and the insertion order of dictionaries hide. */
  lemma SerializedExactly(v: Py, r: string, w: Py, s: string)
    requires WellFormed(v) && WellFormed(w)
    requires !StartsWithDigit(r) && !StartsWithDigit(s)
    ensures Serialize(v) + r == Serialize(w) + s <==> Same(v, w) && r == s
  {
    hide Serialize, Print, Normal, Same;
    SerializeIsPrint(v);
    SerializeIsPrint(w);
    NormalIsSame(v, w);
    if Serialize(v) + r == Serialize(w) + s {
      PrintUnique(Normal(v), r, Normal(w), s);
    }
  }

  /** The texts of some values, as every implementation of the hash must produce them. */
  lemma KnownTexts()
    ensures Serialize(PyNone) == "null"
    ensures Serialize(PyBool(true)) == "bool:true" && Serialize(PyBool(false)) == "bool:false"
    ensures Serialize(PyInt(42)) == Serialize(PyFloat(42)) == "number:42" && Serialize(PyInt(-7)) == "number:-7"
    ensures Serialize(PyStr("hello")) == "string:5:hello" && Serialize(PyStr("")) == "string:0:"
    ensures Serialize(PyList([])) == Serialize(PyTuple([])) == "array:0:" && Serialize(PyDict([])) == "object:0:"
  {
    assert Numeral(42) == Numeral(4) + "2";
    hide Numeral;
    KnownNumerals();
  }

  lemma KnownNumerals()
    ensures Numeral(0) == "0" && Numeral(1) == "1" && Numeral(2) == "2" && Numeral(4) == "4" && Numeral(5) == "5"
    ensures Numeral(7) == "7"
  {
  }

  lemma OneAndTwo()
    ensures Serialize(PyInt(1)) == "number:1" && Serialize(PyInt(2)) == "number:2"
    ensures SerializeString("a") == "string:1:a" && SerializeString("b") == "string:1:b"
  {
    KnownNumerals();
    hide Numeral;
  }

  /** Members of lists keep their order. */
  lemma KnownList()
    ensures Serialize(PyList([PyInt(1), PyInt(2)])) == "array:2:number:1number:2"
  {
    KnownNumerals();
    OneAndTwo();
    ListText([PyInt(1), PyInt(2)]);
    ItemsTwo(PyInt(1), PyInt(2));
    hide Numeral, Serialize, SerializeItems;
  }

  lemma ListText(items: seq<Py>)
    ensures Serialize(PyList(items)) == "array:" + Numeral(|items|) + ":" + SerializeItems(items)
  {
    hide Numeral;
  }

  lemma ItemsTwo(a: Py, b: Py)
    ensures SerializeItems([a, b]) == Serialize(a) + Serialize(b)
  {
    hide Serialize;
    assert [a, b][1..] == [b] && [b][1..] == [];
    assert SerializeItems([b]) == Serialize(b);
  }

  /** Those of dictionaries are sorted by key. */
  lemma KnownDict()
    ensures Serialize(PyDict([Pair("b", PyInt(2)), Pair("a", PyInt(1))]))
         == "object:2:string:1:anumber:1string:1:bnumber:2"
  {
    KnownNumerals();
    OneAndTwo();
    hide Numeral, Sort, Join, Less, Serialize, SerializeString;
    var b, a := Pair("b", "number:2"), Pair("a", "number:1");
    SortTwo(b, a);
    JoinTwo(a, b);
    DictText([Pair("b", PyInt(2)), Pair("a", PyInt(1))], [b, a]);
  }

  lemma DictText(entries: seq<Pair<Py>>, texts: seq<Pair<string>>)
    requires |texts| == |entries|
    requires forall i | 0 <= i < |entries| :: texts[i] == Pair(entries[i].key, Serialize(entries[i].value))
    ensures Serialize(PyDict(entries)) == "object:" + Numeral(|entries|) + ":" + Join(Sort(texts))
  {
    hide Sort, Join, Numeral;
    var ts := seq(|entries|, i requires 0 <= i < |entries| => Pair(entries[i].key, Serialize(entries[i].value)));
    assert ts == texts;
  }

  lemma SortTwo(b: Pair<string>, a: Pair<string>)
    requires b.key == "b" && a.key == "a"
    ensures Sort([b, a]) == [a, b]
  {
    assert [b, a][1..] == [a] && [a][1..] == [];
    assert Sort([a]) == [a];
    assert Less("a", "b") && !Less("b", "a");
    assert Insert(b, [a]) == [a] + Insert(b, []) == [a, b];
  }

  lemma JoinTwo(a: Pair<string>, b: Pair<string>)
    ensures Join([a, b]) == SerializeString(a.key) + a.value + (SerializeString(b.key) + b.value)
  {
    hide SerializeString;
    assert [a, b][1..] == [b] && [b][1..] == [];
    assert Join([b]) == SerializeString(b.key) + b.value;
  }

  /** Without the condition on the remainders a number runs into what follows it. */
  lemma NumbersRunOn()
    ensures Serialize(PyInt(1)) + "2" == Serialize(PyInt(12)) + "" && !Same(PyInt(1), PyInt(12))
  {
    assert Numeral(12) == Numeral(1) + "2";
  }

  // ---------------------------------------------------------------- fingerprints

  /** What of the inputs enters the hash. */
  function Prepared(inputs: Py, disableDefaults: bool, ignoreKeys: set<string>): Py {
    if inputs.PyDict?
    then CleanInput(inputs, if disableDefaults then ignoreKeys else DEFAULT_IGNORE_KEYS + ignoreKeys)
    else inputs
  }

  function BuildInputHash(sha: string -> string, inputs: Py, disableDefaults: bool, ignoreKeys: set<string>): string {
    sha(Serialize(Prepared(inputs, disableDefaults, ignoreKeys)))
  }

  function MakeFingerprint(sha: string -> string, effectType: string, target: string, inputHash: string): string {
    sha(Serialize(PyDict([Pair("type", PyStr(effectType)), Pair("target", PyStr(target)),
                          Pair("inputHash", PyStr(inputHash))])))
  }

  /** The keys that do not count: those the caller names, and the usual suspects unless the caller
      disables them. Inputs that are no dictionary are taken whole. */
  function Ignored(inputs: Py, disableDefaults: bool, ignoreKeys: set<string>): set<string> {
    if !inputs.PyDict? then {}
    else if disableDefaults then ignoreKeys
    else ignoreKeys + {"timestamp", "createdAt", "updatedAt", "requestId", "traceId", "nonce", "idempotencyKey",
                       "x-request-id"}
  }

  /** With a collision-free hash two operations share a fingerprint exactly when type and target
      agree and the inputs are the same up to the keys that do not count, at any depth, each by
      the configuration of its caller. */
  lemma FingerprintMeaning(sha: string -> string,
                           t: string, target: string, inputs: Py, disableDefaults: bool, ignoreKeys: set<string>,
                           t': string, target': string, inputs': Py, disableDefaults': bool, ignoreKeys': set<string>)
    requires forall a, b :: sha(a) == sha(b) ==> a == b
    requires WellFormed(inputs) && WellFormed(inputs')
    ensures MakeFingerprint(sha, t, target, BuildInputHash(sha, inputs, disableDefaults, ignoreKeys))
         == MakeFingerprint(sha, t', target', BuildInputHash(sha, inputs', disableDefaults', ignoreKeys'))
       <==> t == t' && target == target'
            && SameUpTo(inputs, Ignored(inputs, disableDefaults, ignoreKeys),
                        inputs', Ignored(inputs', disableDefaults', ignoreKeys'))
  {
    var ignored := Ignored(inputs, disableDefaults, ignoreKeys);
    var ignored' := Ignored(inputs', disableDefaults', ignoreKeys');
    var p, p' := Prepared(inputs, disableDefaults, ignoreKeys), Prepared(inputs', disableDefaults', ignoreKeys');
    PreparedCleaned(inputs, disableDefaults, ignoreKeys);
    PreparedCleaned(inputs', disableDefaults', ignoreKeys');
    CleanInputIsClean(inputs, ignored);
    CleanInputIsClean(inputs', ignored');
    hide Serialize, CleanInput, Prepared, Ignored, Same, SameUpTo, Normal;
    NormalIsSame(p, p');
    CleanedExactly(inputs, ignored, inputs', ignored');
    NormalIsSame(CleanInput(inputs, ignored), CleanInput(inputs', ignored'));
    SerializedExactly(p, "", p', "");
    EmptyRest(Serialize(p));
    EmptyRest(Serialize(p'));
    FingerprintDict(t, target, sha(Serialize(p)), t', target', sha(Serialize(p')));
  }

  /** What is hashed is the cleaned input, up to tuples that become lists. */
  lemma PreparedCleaned(inputs: Py, disableDefaults: bool, ignoreKeys: set<string>)
    requires WellFormed(inputs)
    ensures var p := Prepared(inputs, disableDefaults, ignoreKeys);
      WellFormed(p) && Normal(p) == Normal(CleanInput(inputs, Ignored(inputs, disableDefaults, ignoreKeys)))
  {
    if inputs.PyDict? {
      assert DEFAULT_IGNORE_KEYS + ignoreKeys == ignoreKeys + DEFAULT_IGNORE_KEYS;
      CleanInputIsClean(inputs, Ignored(inputs, disableDefaults, ignoreKeys));
    } else {
      CleanedOfNothing(inputs);
    }
  }

  /** With nothing to ignore, cleaning only makes lists of tuples. */
  lemma {:induction false} CleanedOfNothing(v: Py)
    ensures Normal(CleanInput(v, {})) == Normal(v)
    decreases v, 1
  {
    match v {
      case PyList(items) => CleanedItemsOfNothing(items);
      case PyTuple(items) => CleanedItemsOfNothing(items);
      case PyDict(entries) => CleanedEntriesOfNothing(entries);
      case _ =>
    }
  }

  lemma {:induction false} CleanedItemsOfNothing(items: seq<Py>)
    ensures var cleaned := seq(|items|, i requires 0 <= i < |items| => CleanInput(items[i], {}));
      seq(|cleaned|, i requires 0 <= i < |cleaned| => Normal(cleaned[i]))
      == seq(|items|, i requires 0 <= i < |items| => Normal(items[i]))
    decreases items, 0
  {
    forall i | 0 <= i < |items| ensures Normal(CleanInput(items[i], {})) == Normal(items[i]) {
      CleanedOfNothing(items[i]);
    }
  }

  lemma {:induction false} CleanedEntriesOfNothing(entries: seq<Pair<Py>>)
    ensures NormalPairs(CleanEntries(entries, {})) == NormalPairs(entries)
    decreases entries, 0
  {
    if entries != [] {
      CleanedOfNothing(entries[0].value);
      CleanedEntriesOfNothing(entries[1..]);
      hide Normal, CleanInput;
      var first := Pair(entries[0].key, CleanInput(entries[0].value, {}));
      assert CleanEntries(entries, {}) == [first] + CleanEntries(entries[1..], {});
      NormalPairsCons(first, CleanEntries(entries[1..], {}));
      NormalPairsCons(entries[0], entries[1..]);
      assert entries == [entries[0]] + entries[1..];
    }
  }

  lemma NormalPairsCons(e: Pair<Py>, es: seq<Pair<Py>>)
    ensures NormalPairs([e] + es) == [Pair(e.key, Normal(e.value))] + NormalPairs(es)
  {
  }

  lemma EmptyRest(r: string)
    ensures r + "" == r
  {
  }

  lemma FingerprintDict(t: string, target: string, h: string, t': string, target': string, h': string)
    ensures Serialize(PyDict([Pair("type", PyStr(t)), Pair("target", PyStr(target)), Pair("inputHash", PyStr(h))]))
         == Serialize(PyDict([Pair("type", PyStr(t')), Pair("target", PyStr(target')), Pair("inputHash", PyStr(h'))]))
       <==> t == t' && target == target' && h == h'
  {
    var es := [Pair("type", PyStr(t)), Pair("target", PyStr(target)), Pair("inputHash", PyStr(h))];
    var es' := [Pair("type", PyStr(t')), Pair("target", PyStr(target')), Pair("inputHash", PyStr(h'))];
    DistinctThree(es);
    DistinctThree(es');
    SerializedExactly(PyDict(es), "", PyDict(es'), "");
    hide Serialize, WellFormed;
    EmptyRest(Serialize(PyDict(es)));
    EmptyRest(Serialize(PyDict(es')));
    SameThree(es, es');
  }

  lemma DistinctThree(es: seq<Pair<Py>>)
    requires |es| == 3 && es[0].key == "type" && es[1].key == "target" && es[2].key == "inputHash"
    ensures Distinct(es)
  {
    assert es[0].key[1] != es[1].key[1] && es[0].key[0] != es[2].key[0] && es[1].key[0] != es[2].key[0];
  }

  lemma SameThree(es: seq<Pair<Py>>, es': seq<Pair<Py>>)
    requires |es| == |es'| == 3 && Distinct(es) && forall i | 0 <= i < 3 :: es[i].key == es'[i].key
    requires forall i | 0 <= i < 3 :: es[i].value.PyStr? && es'[i].value.PyStr?
    ensures Same(PyDict(es), PyDict(es')) <==>
      es[0].value == es'[0].value && es[1].value == es'[1].value && es[2].value == es'[2].value
  {
    assert forall i, j | 0 <= i < 3 && 0 <= j < 3 :: SameEntry(es[i], es'[j]) <==> i == j && es[i].value == es'[j].value;
    assert Same(PyDict(es), PyDict(es')) <==> SameEntries(es, es');
    SameEntriesThree(es, es');
  }

  lemma SameEntriesThree(es: seq<Pair<Py>>, es': seq<Pair<Py>>)
    requires |es| == |es'| == 3
    requires forall i, j | 0 <= i < 3 && 0 <= j < 3 :: SameEntry(es[i], es'[j]) <==> i == j && es[i].value == es'[j].value
    ensures SameEntries(es, es') <==>
      es[0].value == es'[0].value && es[1].value == es'[1].value && es[2].value == es'[2].value
  {
    hide SameEntry;
    if SameEntries(es, es') {
      forall i | 0 <= i < 3 ensures es[i].value == es'[i].value {
        assert Matched(es[i], es');
        var j :| 0 <= j < |es'| && SameEntry(es[i], es'[j]);
      }
    }
    if es[0].value == es'[0].value && es[1].value == es'[1].value && es[2].value == es'[2].value {
      assert forall i | 0 <= i < 3 :: SameEntry(es[i], es'[i]);
    }
  }
}
