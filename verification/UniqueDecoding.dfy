/** The serialised form determines the value, even in the middle of a longer text. */
module UniqueDecoding {
  import opened Values
  import opened CanonicalHash

  // ---------------------------------------------------------------- numerals

  predicate StartsWithDigit(s: string) { s != "" && IsDigit(s[0]) }

  lemma Empty(r: string)
    ensures "" + r == r
  {
  }

  lemma Assoc(a: string, b: string, c: string)
    ensures a + b + c == a + (b + c)
  {
  }

  lemma SameLength(a: string, r: string, b: string, s: string)
    requires |a| == |b| && a + r == b + s
    ensures a == b && r == s
  {
    assert a == (a + r)[..|a|] && r == (a + r)[|a|..];
    assert b == (b + s)[..|b|] && s == (b + s)[|b|..];
  }

  lemma DigitInjective(a: nat, b: nat)
    requires a < 10 && b < 10 && Digit(a) == Digit(b)
    ensures a == b
  {
  }

  lemma {:induction false} NumeralInjective(a: nat, b: nat)
    requires Numeral(a) == Numeral(b)
    ensures a == b
  {
    var s, last := Numeral(a), |Numeral(a)| - 1;
    DigitInjective(a % 10, b % 10) by { assert s[last] == Digit(a % 10) == Digit(b % 10); }
    if a >= 10 && b >= 10 {
      assert s[..last] == Numeral(a / 10) && s[..last] == Numeral(b / 10);
      NumeralInjective(a / 10, b / 10);
    }
  }

  /** A numeral ends where the digits end. */
  lemma NumeralUnique(a: nat, r: string, b: nat, s: string)
    requires Numeral(a) + r == Numeral(b) + s && !StartsWithDigit(r) && !StartsWithDigit(s)
    ensures a == b && r == s
  {
    hide Numeral;
    var x, y, t := Numeral(a), Numeral(b), Numeral(a) + r;
    assert forall i | 0 <= i < |x| :: t[i] == x[i];
    assert forall i | 0 <= i < |y| :: t[i] == y[i];
    assert |x| < |t| ==> t[|x|] == r[0];
    assert |y| < |t| ==> t[|y|] == s[0];
    assert |x| == |y|;
    assert x == t[..|x|] == y && r == t[|x|..] == s;
    NumeralInjective(a, b);
  }

  lemma DecimalUnique(a: int, r: string, b: int, s: string)
    requires Decimal(a) + r == Decimal(b) + s && !StartsWithDigit(r) && !StartsWithDigit(s)
    ensures a == b && r == s
  {
    hide Numeral;
    assert (a < 0) == (b < 0) by {
      var t := Decimal(a) + r;
      assert t[0] == Decimal(a)[0] && t[0] == Decimal(b)[0];
      assert a >= 0 ==> Decimal(a)[0] == Numeral(a)[0];
      assert b >= 0 ==> Decimal(b)[0] == Numeral(b)[0];
    }
    if a < 0 {
      Assoc("-", Numeral(-a), r);
      Assoc("-", Numeral(-b), s);
      SameLength("-", Numeral(-a) + r, "-", Numeral(-b) + s);
      NumeralUnique(-a, r, -b, s);
    } else {
      NumeralUnique(a, r, b, s);
    }
  }

  /** `<length>:<body>` */
  lemma LengthUnique(a: nat, x: string, r: string, b: nat, y: string, s: string)
    requires Numeral(a) + ":" + x + r == Numeral(b) + ":" + y + s
    ensures a == b && x + r == y + s
  {
    hide Numeral;
    assert Numeral(a) + (":" + (x + r)) == Numeral(a) + ":" + x + r;
    assert Numeral(b) + (":" + (y + s)) == Numeral(b) + ":" + y + s;
    NumeralUnique(a, ":" + (x + r), b, ":" + (y + s));
    SameLength(":", x + r, ":", y + s);
  }

  lemma StringUnique(a: string, r: string, b: string, s: string)
    requires SerializeString(a) + r == SerializeString(b) + s
    ensures a == b && r == s
  {
    hide Numeral;
    assert SerializeString(a) + r == "string:" + (Numeral(|a|) + ":" + a + r);
    assert SerializeString(b) + s == "string:" + (Numeral(|b|) + ":" + b + s);
    SameLength("string:", Numeral(|a|) + ":" + a + r, "string:", Numeral(|b|) + ":" + b + s);
    LengthUnique(|a|, a, r, |b|, b, s);
    SameLength(a, r, b, s);
  }

  // ---------------------------------------------------------------- tags

  datatype Tag = TNull | TTrue | TFalse | TNumber | TString | TArray | TObject

  function Text(t: Tag): string {
    match t
    case TNull => "null" case TTrue => "bool:true" case TFalse => "bool:false" case TNumber => "number:"
    case TString => "string:" case TArray => "array:" case TObject => "object:"
  }

  function TagOf(c: Canon): Tag {
    match c
    case CNone => TNull
    case CBool(b) => if b then TTrue else TFalse
    case CNumber(_) => TNumber
    case CString(_) => TString
    case CArray(_) => TArray
    case CObject(_) => TObject
  }

  function Body(c: Canon): string {
    match c
    case CNone => ""
    case CBool(_) => ""
    case CNumber(n) => Decimal(n)
    case CString(s) => Numeral(|s|) + ":" + s
    case CArray(items) => Numeral(|items|) + ":" + PrintItems(items)
    case CObject(pairs) => Numeral(|pairs|) + ":" + PrintPairs(pairs)
  }

  lemma TagsApart(t: Tag, x: string, u: Tag, y: string)
    requires Text(t) + x == Text(u) + y
    ensures t == u && x == y
  {
    var z := Text(t) + x;
    assert z[0] == Text(t)[0] == Text(u)[0] && z[2] == Text(t)[2] == Text(u)[2];
    if t.TTrue? || t.TFalse? { assert z[5] == Text(t)[5] == Text(u)[5]; }
    assert t == u;
    assert x == z[|Text(t)|..] == y;
  }

  lemma PrintIsTagged(c: Canon)
    ensures Print(c) == Text(TagOf(c)) + Body(c)
    ensures Print(c) != "" && !IsDigit(Print(c)[0])
  {
    hide Numeral, PrintItems, PrintPairs;
    match c {
      case CString(s) => assert Print(c) == "string:" + (Numeral(|s|) + ":" + s);
      case CArray(items) => assert Print(c) == "array:" + (Numeral(|items|) + ":" + PrintItems(items));
      case CObject(pairs) => assert Print(c) == "object:" + (Numeral(|pairs|) + ":" + PrintPairs(pairs));
      case _ =>
    }
  }

  // ---------------------------------------------------------------- canonical values

  lemma {:induction false} PrintUnique(c: Canon, r: string, d: Canon, s: string)
    requires Print(c) + r == Print(d) + s && !StartsWithDigit(r) && !StartsWithDigit(s)
    ensures c == d && r == s
    decreases c, 1
  {
    hide Numeral, Print;
    PrintIsTagged(c);
    PrintIsTagged(d);
    Assoc(Text(TagOf(c)), Body(c), r);
    Assoc(Text(TagOf(d)), Body(d), s);
    TagsApart(TagOf(c), Body(c) + r, TagOf(d), Body(d) + s);
    match c {
      case CNone => Empty(r); Empty(s);
      case CBool(_) => Empty(r); Empty(s);
      case CNumber(n) => DecimalUnique(n, r, d.n, s);
      case CString(a) =>
        LengthUnique(|a|, a, r, |d.s|, d.s, s);
        SameLength(a, r, d.s, s);
      case CArray(items) =>
        LengthUnique(|items|, PrintItems(items), r, |d.items|, PrintItems(d.items), s);
        PrintItemsUnique(items, r, d.items, s);
      case CObject(pairs) =>
        LengthUnique(|pairs|, PrintPairs(pairs), r, |d.pairs|, PrintPairs(d.pairs), s);
        PrintPairsUnique(pairs, r, d.pairs, s);
    }
  }

  lemma {:induction false} PrintItemsUnique(items: seq<Canon>, r: string, items': seq<Canon>, s: string)
    requires |items| == |items'| && PrintItems(items) + r == PrintItems(items') + s
    requires !StartsWithDigit(r) && !StartsWithDigit(s)
    ensures items == items' && r == s
    decreases items, 0
  {
    hide Print;
    if items == [] {
      Empty(r);
      Empty(s);
    } else {
      Assoc(Print(items[0]), PrintItems(items[1..]), r);
      Assoc(Print(items'[0]), PrintItems(items'[1..]), s);
      var rest, rest' := PrintItems(items[1..]) + r, PrintItems(items'[1..]) + s;
      ItemsStart(items[1..], r);
      ItemsStart(items'[1..], s);
      PrintUnique(items[0], rest, items'[0], rest');
      PrintItemsUnique(items[1..], r, items'[1..], s);
      assert items == [items[0]] + items[1..] && items' == [items'[0]] + items'[1..];
    }
  }

  lemma ItemsStart(items: seq<Canon>, r: string)
    requires !StartsWithDigit(r)
    ensures !StartsWithDigit(PrintItems(items) + r)
  {
    if items != [] { PrintIsTagged(items[0]); }
  }

  lemma {:induction false} PrintPairsUnique(ps: seq<Pair<Canon>>, r: string, qs: seq<Pair<Canon>>, s: string)
    requires |ps| == |qs| && PrintPairs(ps) + r == PrintPairs(qs) + s
    requires !StartsWithDigit(r) && !StartsWithDigit(s)
    ensures ps == qs && r == s
    decreases ps, 0
  {
    hide Print, SerializeString;
    if ps == [] {
      Empty(r);
      Empty(s);
    } else {
      var rest, rest' := PrintPairs(ps[1..]) + r, PrintPairs(qs[1..]) + s;
      assert PrintPairs(ps) + r == SerializeString(ps[0].key) + (Print(ps[0].value) + rest);
      assert PrintPairs(qs) + s == SerializeString(qs[0].key) + (Print(qs[0].value) + rest');
      StringUnique(ps[0].key, Print(ps[0].value) + rest, qs[0].key, Print(qs[0].value) + rest');
      PairsStart(ps[1..], r);
      PairsStart(qs[1..], s);
      PrintUnique(ps[0].value, rest, qs[0].value, rest');
      PrintPairsUnique(ps[1..], r, qs[1..], s);
      assert ps == [ps[0]] + ps[1..] && qs == [qs[0]] + qs[1..];
    }
  }

  lemma PairsStart(ps: seq<Pair<Canon>>, r: string)
    requires !StartsWithDigit(r)
    ensures !StartsWithDigit(PrintPairs(ps) + r)
  {
    if ps != [] { assert SerializeString(ps[0].key)[0] == 's'; }
  }
}
