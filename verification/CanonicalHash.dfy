/** hash.py: the canonical serialiser behind fingerprints. */
module CanonicalHash {
  import opened Values

  // ---------------------------------------------------------------- Python values

  datatype Py =
    | PyNone
    | PyBool(b: bool)
    | PyInt(n: int)
    | PyFloat(n: int)                 // an integral float
    | PyStr(s: string)
    | PyList(items: seq<Py>)
    | PyTuple(items: seq<Py>)
    | PyDict(entries: seq<Pair<Py>>)  // in insertion order

  datatype Pair<T> = Pair(key: string, value: T)

  ghost predicate Distinct<T>(ps: seq<Pair<T>>) {
    forall i, j | 0 <= i < j < |ps| :: ps[i].key != ps[j].key
  }

  /** The keys of every dictionary are distinct. */
  ghost predicate WellFormed(v: Py) {
    match v
    case PyList(items) => forall i | 0 <= i < |items| :: WellFormed(items[i])
    case PyTuple(items) => forall i | 0 <= i < |items| :: WellFormed(items[i])
    case PyDict(entries) => Distinct(entries) && forall i | 0 <= i < |entries| :: WellFormed(entries[i].value)
    case _ => true
  }

  // ---------------------------------------------------------------- sorted()

  /** Strings compare by code points, a proper prefix first. */
  predicate Less(a: string, b: string) {
    if a == [] then b != []
    else b != [] && (a[0] < b[0] || (a[0] == b[0] && Less(a[1..], b[1..])))
  }

  function Insert<T>(p: Pair<T>, ps: seq<Pair<T>>): seq<Pair<T>> {
    if ps == [] || Less(p.key, ps[0].key) then [p] + ps else [ps[0]] + Insert(p, ps[1..])
  }

  function Sort<T>(ps: seq<Pair<T>>): seq<Pair<T>> {
    if ps == [] then [] else Insert(ps[0], Sort(ps[1..]))
  }

  // ---------------------------------------------------------------- serialize_object

  function Decimal(n: int): string { if n < 0 then "-" + Numeral(-n) else Numeral(n) }

  function SerializeString(s: string): string { "string:" + Numeral(|s|) + ":" + s }

  function Serialize(v: Py): string
    decreases v, 1
  {
    match v
    case PyNone => "null"
    case PyBool(b) => if b then "bool:true" else "bool:false"
    case PyInt(n) => "number:" + Decimal(n)
    case PyFloat(n) => "number:" + Decimal(n)
    case PyStr(s) => SerializeString(s)
    case PyList(items) => "array:" + Numeral(|items|) + ":" + SerializeItems(items)
    case PyTuple(items) => "array:" + Numeral(|items|) + ":" + SerializeItems(items)
    case PyDict(entries) =>
      var texts := seq(|entries|, i requires 0 <= i < |entries| => Pair(entries[i].key, Serialize(entries[i].value)));
      "object:" + Numeral(|entries|) + ":" + Join(Sort(texts))
  }

  function SerializeItems(items: seq<Py>): string
    decreases items, 0
  {
    if items == [] then "" else Serialize(items[0]) + SerializeItems(items[1..])
  }

  /** The key-value texts of a dictionary, the keys serialised as strings. */
  function Join(texts: seq<Pair<string>>): string {
    if texts == [] then "" else SerializeString(texts[0].key) + texts[0].value + Join(texts[1..])
  }

  // ---------------------------------------------------------------- what the text stands for

  /** A value up to what the serialiser does not see: 1 and 1.0, lists and tuples,
      the insertion order of dictionaries, here sorted by key. */
  datatype Canon =
    | CNone
    | CBool(b: bool)
    | CNumber(n: int)
    | CString(s: string)
    | CArray(items: seq<Canon>)
    | CObject(pairs: seq<Pair<Canon>>)

  function Normal(v: Py): Canon {
    match v
    case PyNone => CNone
    case PyBool(b) => CBool(b)
    case PyInt(n) => CNumber(n)
    case PyFloat(n) => CNumber(n)
    case PyStr(s) => CString(s)
    case PyList(items) => CArray(seq(|items|, i requires 0 <= i < |items| => Normal(items[i])))
    case PyTuple(items) => CArray(seq(|items|, i requires 0 <= i < |items| => Normal(items[i])))
    case PyDict(entries) => CObject(Sort(NormalPairs(entries)))
  }

  function NormalPairs(entries: seq<Pair<Py>>): seq<Pair<Canon>> {
    seq(|entries|, i requires 0 <= i < |entries| => Pair(entries[i].key, Normal(entries[i].value)))
  }

  /** Equality of Python values, except that booleans are not numbers and tuples are lists. */
  ghost predicate Same(v: Py, w: Py) {
    match v
    case PyNone => w.PyNone?
    case PyBool(b) => w == v
    case PyInt(n) => (w.PyInt? || w.PyFloat?) && w.n == n
    case PyFloat(n) => (w.PyInt? || w.PyFloat?) && w.n == n
    case PyStr(s) => w == v
    case PyList(items) => (w.PyList? || w.PyTuple?) && SameItems(items, w.items)
    case PyTuple(items) => (w.PyList? || w.PyTuple?) && SameItems(items, w.items)
    case PyDict(entries) => w.PyDict? && SameEntries(entries, w.entries)
  }

  ghost predicate SameItems(items: seq<Py>, items': seq<Py>) {
    |items| == |items'| && forall i | 0 <= i < |items| :: Same(items[i], items'[i])
  }

  ghost predicate SameEntries(entries: seq<Pair<Py>>, entries': seq<Pair<Py>>) {
    && (forall i | 0 <= i < |entries| :: Matched(entries[i], entries'))
    && (forall j | 0 <= j < |entries'| :: MatchedBy(entries, entries'[j]))
  }

  ghost predicate Matched(e: Pair<Py>, entries': seq<Pair<Py>>) {
    exists j :: 0 <= j < |entries'| && SameEntry(e, entries'[j])
  }

  ghost predicate MatchedBy(entries: seq<Pair<Py>>, e': Pair<Py>) {
    exists i :: 0 <= i < |entries| && SameEntry(entries[i], e')
  }

  ghost predicate SameEntry(e: Pair<Py>, e': Pair<Py>) {
    e.key == e'.key && Same(e.value, e'.value)
  }

  // ---------------------------------------------------------------- printing canonical values

  function Print(c: Canon): string
    decreases c, 1
  {
    match c
    case CNone => "null"
    case CBool(b) => if b then "bool:true" else "bool:false"
    case CNumber(n) => "number:" + Decimal(n)
    case CString(s) => SerializeString(s)
    case CArray(items) => "array:" + Numeral(|items|) + ":" + PrintItems(items)
    case CObject(pairs) => "object:" + Numeral(|pairs|) + ":" + PrintPairs(pairs)
  }

  function PrintItems(items: seq<Canon>): string
    decreases items, 0
  {
    if items == [] then "" else Print(items[0]) + PrintItems(items[1..])
  }

  function PrintPairs(pairs: seq<Pair<Canon>>): string
    decreases pairs, 0
  {
    if pairs == [] then "" else SerializeString(pairs[0].key) + Print(pairs[0].value) + PrintPairs(pairs[1..])
  }
}
