/** Values shared by the models: optional values, JSON documents and decimal numerals. */
module Values {

  datatype Option<+T> = None | Some(value: T)

  /** A JSON document, the type of every `metadata`, `receipt` and operation result in the ledger. */
  datatype Json =
    | Null
    | Bool(flag: bool)
    | Number(number: real)
    | Text(text: string)
    | List(items: seq<Json>)
    | Object(fields: map<string, Json>)

  const EmptyObject := Object(map[])

  /** JavaScript truthiness of a JSON document. */
  predicate Truthy(v: Json) {
    match v
    case Null => false
    case Bool(b) => b
    case Number(n) => n != 0.0
    case Text(t) => t != ""
    case List(_) => true
    case Object(_) => true
  }

  /** The documents that count as false. */
  predicate Falsy(v: Json) { v == Null || v == Bool(false) || v == Number(0.0) || v == Text("") }

  /** JavaScript truthiness of an optional string: absent and empty are both falsy. */
  predicate Present(s: Option<string>) {
    s.Some? && s.value != ""
  }

  predicate IsDigit(c: char) { '0' <= c <= '9' }

  function Digit(d: nat): (c: char)
    requires d < 10
    ensures IsDigit(c)
  {
    "0123456789"[d]
  }

  /** The decimal numeral of a natural number, without leading zeros. */
  function Numeral(n: nat): (s: string)
    ensures s != "" && forall i | 0 <= i < |s| :: IsDigit(s[i])
  {
    if n < 10 then [Digit(n)] else Numeral(n / 10) + [Digit(n % 10)]
  }

  /** The entries that the spread `...v` contributes to an object literal. */
  function Spread(v: Json): map<string, Json> {
    match v
    case Object(fields) => fields
    case List(items) => Indexed(items)
    case Text(t) => Indexed(seq(|t|, i requires 0 <= i < |t| => Text([t[i]])))
    case _ => map[]
  }

  function Indexed(items: seq<Json>): map<string, Json> {
    if items == [] then map[]
    else Indexed(items[..|items| - 1])[Numeral(|items| - 1) := items[|items| - 1]]
  }

  /** `typeof v === "object" && v !== null ? {...v} : {}` */
  function SpreadObject(v: Json): map<string, Json> {
    if v.Object? || v.List? then Spread(v) else map[]
  }

  lemma TakeOneMore<T(!new)>(s: seq<T>, n: nat)
    requires n < |s|
    ensures s[..n + 1] == s[..n] + [s[n]]
    ensures forall x :: x in s[..n + 1] <==> x in s[..n] || x == s[n]
  {
  }

  lemma Pick<T>(s: set<T>) returns (x: T)
    requires |s| > 0
    ensures x in s
  {
    x :| x in s;
  }

  /** Distinct indices of a sequence without duplicates have distinct elements. */
  lemma {:induction false} ImageSize<T(!new)>(s: seq<T>, indices: set<int>, image: set<T>)
    requires forall i | i in indices :: 0 <= i < |s| && s[i] in image
    requires forall x | x in image :: exists i :: i in indices && s[i] == x
    requires forall i, j | 0 <= i < j < |s| :: s[i] != s[j]
    ensures |image| == |indices|
    decreases |indices|
  {
    if |indices| == 0 {
      assert image == {};
    } else {
      var i := Pick(indices);
      forall x | x in image - {s[i]} ensures exists j :: j in indices - {i} && s[j] == x {
        var j :| j in indices && s[j] == x;
        assert j in indices - {i};
      }
      ImageSize(s, indices - {i}, image - {s[i]});
    }
  }
}
