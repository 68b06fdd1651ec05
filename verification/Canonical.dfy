/**
 The canonical encoders (backend/src/lib/canonical.js and worker/nodeva_worker/canonical.py):
 check, sort the keys of every object, print, encode. A signature is over these bytes, so they
 must depend on what a body means and on nothing else, and must determine it.
 */
module Canonical {
  import opened Options
  import opened CanonicalText

  datatype Lang = JavaScript | Python

  // ---------------------------------------------------------------------------------------
  // The order of keys.
  // ---------------------------------------------------------------------------------------

  /** The UTF-16 code units of a character. */
  function UnitsOf(c: char): seq<int> {
    var n := c as int;
    if n < 0x10000 then [n] else [0xD800 + (n - 0x10000) / 0x400, 0xDC00 + (n - 0x10000) % 0x400]
  }

  function Units(s: string): seq<int> {
    if s == [] then [] else UnitsOf(s[0]) + Units(s[1..])
  }

  function Points(s: string): (r: seq<int>)
    ensures |r| == |s|
  {
    if s == [] then [] else [s[0] as int] + Points(s[1..])
  }

  predicate LexLess(a: seq<int>, b: seq<int>)
    decreases a
  {
    b != [] && (a == [] || a[0] < b[0] || (a[0] == b[0] && LexLess(a[1..], b[1..])))
  }

  /** A key that an object enumerates as an array index. */
  predicate IsIndex(s: string) {
    s != [] && AllDigits(s) && (s[0] != '0' || |s| == 1) && Value(s) < 0xFFFF_FFFF
  }

  /**
   The order in which keys are printed. Python sorts by code point. JavaScript sorts by UTF-16
   code unit, but the object it then builds enumerates index-like keys first, in numeric order:
   for two such keys, the shorter first.
   */
  predicate Before(lang: Lang, a: string, b: string) {
    match lang
    case Python => LexLess(Points(a), Points(b))
    case JavaScript =>
      if IsIndex(a) != IsIndex(b) then IsIndex(a)
      else if IsIndex(a) && |a| != |b| then |a| < |b|
      else LexLess(Units(a), Units(b))
  }

  /** A reader of UTF-16, after section 2.2 of RFC 2781. */
  function ReadUnits(us: seq<int>): Option<string>
    decreases us
  {
    if us == [] then Some([])
    else if 0 <= us[0] < 0xD800 || 0xE000 <= us[0] < 0x10000 then After(us[0], ReadUnits(us[1..]))
    else if 0xD800 <= us[0] < 0xDC00 && |us| >= 2 && 0xDC00 <= us[1] < 0xE000 then
      After(0x10000 + (us[0] - 0xD800) * 0x400 + (us[1] - 0xDC00), ReadUnits(us[2..]))
    else None
  }

  function After(n: int, rest: Option<string>): Option<string>
    requires 0 <= n < 0xD800 || 0xE000 <= n < 0x110000
  {
    if rest.Some? then Some([n as char] + rest.value) else None
  }

  /** The code units are those of UTF-16: they read back to the string. */
  lemma {:induction false} ReadsUnits(s: string)
    ensures ReadUnits(Units(s)) == Some(s)
  {
    if s != [] {
      var u, rest := UnitsOf(s[0]), Units(s[1..]);
      assert Units(s) == u + rest && (u + rest)[|u|..] == rest && (u + rest)[0] == u[0];
      if |u| == 2 {
        assert (u + rest)[1] == u[1];
      }
      ReadsUnits(s[1..]);
      assert s == [s[0]] + s[1..];
    }
  }

  /** The first difference decides, and a proper prefix comes first. */
  ghost predicate FirstDifference(a: seq<int>, b: seq<int>, k: nat) {
    && k <= |a| && k < |b| && a[..k] == b[..k]
    && (k == |a| || a[k] < b[k])
  }

  lemma {:induction false} LexLessExactly(a: seq<int>, b: seq<int>)
    ensures LexLess(a, b) <==> exists k: nat :: FirstDifference(a, b, k)
    decreases a
  {
    if LexLess(a, b) {
      if a == [] || a[0] < b[0] {
        assert FirstDifference(a, b, 0);
      } else {
        LexLessExactly(a[1..], b[1..]);
        var k: nat :| FirstDifference(a[1..], b[1..], k);
        assert a[..k + 1] == [a[0]] + a[1..][..k] && b[..k + 1] == [b[0]] + b[1..][..k];
        assert FirstDifference(a, b, k + 1);
      }
    }
    if k: nat :| FirstDifference(a, b, k) {
      if k > 0 {
        assert a[0] == a[..k][0] == b[..k][0] == b[0];
        assert a[1..][..k - 1] == a[..k][1..] && b[1..][..k - 1] == b[..k][1..];
        assert FirstDifference(a[1..], b[1..], k - 1);
        LexLessExactly(a[1..], b[1..]);
      }
    }
  }

  lemma {:induction false} LexTotal(a: seq<int>, b: seq<int>)
    ensures a == b || LexLess(a, b) || LexLess(b, a)
    ensures !LexLess(a, a) && !(LexLess(a, b) && LexLess(b, a))
    decreases a
  {
    if a != [] {
      LexTotal(a[1..], a[1..]);
      if b != [] {
        LexTotal(a[1..], b[1..]);
        assert a == [a[0]] + a[1..] && b == [b[0]] + b[1..];
      }
    }
  }

  lemma {:induction false} LexTransitive(a: seq<int>, b: seq<int>, c: seq<int>)
    requires LexLess(a, b) && LexLess(b, c)
    ensures LexLess(a, c)
    decreases a
  {
    if a != [] && a[0] == b[0] == c[0] {
      LexTransitive(a[1..], b[1..], c[1..]);
    }
  }

  lemma {:induction false} PointsInjective(s: string, t: string)
    requires Points(s) == Points(t)
    ensures s == t
  {
    if s != [] && t != [] {
      assert Points(s)[0] == Points(t)[0];
      assert Points(s[1..]) == Points(s)[1..] && Points(t[1..]) == Points(t)[1..];
      PointsInjective(s[1..], t[1..]);
      assert s == [s[0]] + s[1..] && t == [t[0]] + t[1..];
    }
  }

  lemma UnitsOfInjective(c: char, d: char, r: seq<int>, q: seq<int>)
    requires UnitsOf(c) + r == UnitsOf(d) + q
    ensures c == d && r == q
  {
    var x, y := UnitsOf(c) + r, UnitsOf(d) + q;
    assert x[0] == UnitsOf(c)[0] && y[0] == UnitsOf(d)[0];
    if c as int >= 0x10000 {
      assert x[1] == UnitsOf(c)[1] && y[1] == UnitsOf(d)[1];
    }
    assert c as int == d as int;
    assert r == x[|UnitsOf(c)|..] && q == y[|UnitsOf(d)|..];
  }

  lemma {:induction false} UnitsInjective(s: string, t: string)
    requires Units(s) == Units(t)
    ensures s == t
  {
    if s != [] && t != [] {
      UnitsOfInjective(s[0], t[0], Units(s[1..]), Units(t[1..]));
      UnitsInjective(s[1..], t[1..]);
      assert s == [s[0]] + s[1..] && t == [t[0]] + t[1..];
    }
  }

  /** In both languages keys are totally ordered. */
  lemma BeforeTotal(lang: Lang, a: string, b: string)
    ensures a == b || Before(lang, a, b) || Before(lang, b, a)
    ensures !(Before(lang, a, b) && Before(lang, b, a)) && !Before(lang, a, a)
  {
    match lang
    case Python =>
      LexTotal(Points(a), Points(b));
      LexTotal(Points(a), Points(a));
      if Points(a) == Points(b) { PointsInjective(a, b); }
    case JavaScript =>
      LexTotal(Units(a), Units(b));
      LexTotal(Units(a), Units(a));
      if Units(a) == Units(b) { UnitsInjective(a, b); }
  }

  lemma BeforeTransitive(lang: Lang, a: string, b: string, c: string)
    requires Before(lang, a, b) && Before(lang, b, c)
    ensures Before(lang, a, c)
  {
    match lang
    case Python => LexTransitive(Points(a), Points(b), Points(c));
    case JavaScript =>
      if LexLess(Units(a), Units(b)) && LexLess(Units(b), Units(c)) {
        LexTransitive(Units(a), Units(b), Units(c));
      }
  }

  // ---------------------------------------------------------------------------------------
  // Index-like keys are enumerated by number.
  // ---------------------------------------------------------------------------------------

  function Pow10(n: nat): (r: int)
    ensures r >= 1
  {
    if n == 0 then 1 else 10 * Pow10(n - 1)
  }

  function DigitValue(c: char): int {
    c as int - '0' as int
  }

  lemma {:induction false} ValueBound(s: string)
    requires AllDigits(s)
    ensures 0 <= Value(s) < Pow10(|s|)
  {
    if s != [] {
      ValueBound(s[..|s| - 1]);
    }
  }

  lemma Regroup10(d: int, p: int)
    ensures 10 * (d * p) == d * (10 * p)
  {
  }

  lemma {:induction false} ValueFromFront(s: string)
    requires s != []
    ensures Value(s) == DigitValue(s[0]) * Pow10(|s| - 1) + Value(s[1..])
  {
    if |s| > 1 {
      var p := s[..|s| - 1];
      ValueFromFront(p);
      assert p[1..] == s[1..][..|s[1..]| - 1];
      Regroup10(DigitValue(s[0]), Pow10(|p| - 1));
    }
  }

  lemma Leads(d: int, e: int, p: int)
    requires d < e && p >= 0
    ensures d * p + p <= e * p
  {
    assert (e - d - 1) * p >= 0;
  }

  lemma DigitUnits(s: string)
    requires AllDigits(s) && s != []
    ensures Units(s) == [s[0] as int] + Units(s[1..])
  {
    assert IsDigit(s[0]);
  }

  lemma {:induction false} SameLengthByValue(a: string, b: string)
    requires AllDigits(a) && AllDigits(b) && |a| == |b|
    ensures LexLess(Units(a), Units(b)) <==> Value(a) < Value(b)
  {
    if a != [] {
      DigitUnits(a);
      DigitUnits(b);
      assert Units(a)[1..] == Units(a[1..]) && Units(b)[1..] == Units(b[1..]);
      ValueFromFront(a);
      ValueFromFront(b);
      ValueBound(a[1..]);
      ValueBound(b[1..]);
      SameLengthByValue(a[1..], b[1..]);
      var d, e, p := DigitValue(a[0]), DigitValue(b[0]), Pow10(|a| - 1);
      if d < e { Leads(d, e, p); }
      if e < d { Leads(e, d, p); }
    }
  }

  lemma {:induction false} Pow10Monotone(n: nat, m: nat)
    requires n <= m
    ensures Pow10(n) <= Pow10(m)
  {
    if n < m {
      Pow10Monotone(n, m - 1);
    }
  }

  lemma LongerIsLarger(a: string, b: string)
    requires AllDigits(a) && AllDigits(b) && |a| < |b| && b[0] != '0'
    ensures Value(a) < Value(b)
  {
    ValueBound(a);
    ValueBound(b[1..]);
    ValueFromFront(b);
    Pow10Monotone(|a|, |b| - 1);
    Leads(0, DigitValue(b[0]), Pow10(|b| - 1));
  }

  lemma {:induction false} DigitsAreNatural(s: string)
    requires s != [] && AllDigits(s) && (s[0] != '0' || |s| == 1)
    ensures Value(s) >= 0 && s == Natural(Value(s))
  {
    var n := |s| - 1;
    assert IsDigit(s[n]) && s == s[..n] + [s[n]];
    ValueBound(s[..n]);
    if n == 0 {
      assert Value(s[..0]) == 0;
    } else {
      DigitsAreNatural(s[..n]);
      LongerIsLarger([], s[..n]);
    }
  }

  /** The keys that an object enumerates first are the decimal texts of the integers below 2^32 - 1 (ECMAScript's array indexes). */
  lemma IsIndexExactly(s: string)
    ensures IsIndex(s) <==> exists n: nat | n < 4294967295 :: s == Natural(n)
  {
    if IsIndex(s) {
      DigitsAreNatural(s);
    }
    if n: nat :| n < 4294967295 && s == Natural(n) {
      NaturalRead(n);
      NaturalLength(n);
    }
  }

  lemma IndexOrderIsNumeric(a: string, b: string)
    requires IsIndex(a) && IsIndex(b)
    ensures Before(JavaScript, a, b) <==> Value(a) < Value(b)
  {
    if |a| == |b| {
      SameLengthByValue(a, b);
    } else if |a| < |b| {
      LongerIsLarger(a, b);
    } else {
      LongerIsLarger(b, a);
    }
  }

  // ---------------------------------------------------------------------------------------
  // Sorting and encoding.
  // ---------------------------------------------------------------------------------------

  function InsertField(lang: Lang, f: Field, s: seq<Field>): seq<Field> {
    if s == [] || Before(lang, f.key, s[0].key) then [f] + s else [s[0]] + InsertField(lang, f, s[1..])
  }

  function SortFields(lang: Lang, s: seq<Field>): seq<Field> {
    if s == [] then [] else InsertField(lang, s[0], SortFields(lang, s[1..]))
  }

  /** The value with the keys of every object in order, at every level. */
  function Sorted(lang: Lang, v: Json): Json
    decreases v
  {
    match v
    case Arr(items) => Arr(SortedItems(lang, items))
    case Obj(fields) => Obj(SortFields(lang, SortedValues(lang, fields)))
    case _ => v
  }

  function SortedItems(lang: Lang, items: seq<Json>): (r: seq<Json>)
    ensures |r| == |items|
    decreases items
  {
    if items == [] then [] else [Sorted(lang, items[0])] + SortedItems(lang, items[1..])
  }

  function SortedValues(lang: Lang, fields: seq<Field>): (r: seq<Field>)
    ensures |r| == |fields|
    decreases fields
  {
    if fields == [] then []
    else [Field(fields[0].key, Sorted(lang, fields[0].value))] + SortedValues(lang, fields[1..])
  }

  /** The bytes that are signed; `None` is the NonCanonicalValue exception. */
  function Encode(lang: Lang, v: Json): Option<seq<Byte>> {
    if Accepted(v) then Some(Utf8(Print(Sorted(lang, v)))) else None
  }

  // ---------------------------------------------------------------------------------------
  // What a body means.
  // ---------------------------------------------------------------------------------------

  datatype Val =
    | VNull
    | VBool(b: bool)
    | VNum(n: int)
    | VFraction
    | VUnsupported
    | VStr(s: string)
    | VArr(items: seq<Val>)
    | VObj(fields: map<string, Val>)

  /** The value without the order in which keys were inserted. */
  function Meaning(v: Json): Val
    decreases v
  {
    match v
    case Null => VNull
    case Bool(b) => VBool(b)
    case Num(n) => VNum(n)
    case Fraction => VFraction
    case Unsupported => VUnsupported
    case Str(s) => VStr(s)
    case Arr(items) => VArr(Meanings(items))
    case Obj(fields) => VObj(MapOf(fields))
  }

  function Meanings(items: seq<Json>): (r: seq<Val>)
    ensures |r| == |items|
    decreases items
  {
    if items == [] then [] else [Meaning(items[0])] + Meanings(items[1..])
  }

  function MapOf(fields: seq<Field>): map<string, Val>
    decreases fields
  {
    if fields == [] then map[] else MapOf(fields[1..])[fields[0].key := Meaning(fields[0].value)]
  }

  predicate DistinctKeys(s: seq<Field>) {
    forall i, j | 0 <= i < j < |s| :: s[i].key != s[j].key
  }

  /** An object holds each key once. */
  predicate WellKeyed(v: Json)
    decreases v
  {
    match v
    case Arr(items) => forall i | 0 <= i < |items| :: WellKeyed(items[i])
    case Obj(fields) => DistinctKeys(fields) && forall i | 0 <= i < |fields| :: WellKeyed(fields[i].value)
    case _ => true
  }

  // ---------------------------------------------------------------------------------------
  // Facts about lists.
  // ---------------------------------------------------------------------------------------

  predicate InOrder(lang: Lang, s: seq<Field>) {
    forall i, j | 0 <= i < j < |s| :: Before(lang, s[i].key, s[j].key)
  }

  lemma {:induction false} InsertHas(lang: Lang, f: Field, s: seq<Field>, g: Field)
    ensures g in InsertField(lang, f, s) <==> g == f || g in s
  {
    if s != [] && !Before(lang, f.key, s[0].key) {
      InsertHas(lang, f, s[1..], g);
      assert s == [s[0]] + s[1..];
    }
  }

  lemma {:induction false} SortHas(lang: Lang, s: seq<Field>, g: Field)
    ensures g in SortFields(lang, s) <==> g in s
  {
    if s != [] {
      InsertHas(lang, s[0], SortFields(lang, s[1..]), g);
      SortHas(lang, s[1..], g);
      assert s == [s[0]] + s[1..];
    }
  }

  lemma ConsInOrder(lang: Lang, f: Field, s: seq<Field>)
    requires InOrder(lang, s) && forall g | g in s :: Before(lang, f.key, g.key)
    ensures InOrder(lang, [f] + s)
  {
    forall i, j | 0 <= i < j < |[f] + s| ensures Before(lang, ([f] + s)[i].key, ([f] + s)[j].key) {
      assert ([f] + s)[j] == s[j - 1] && s[j - 1] in s;
    }
  }

  lemma HeadFirst(lang: Lang, f: Field, s: seq<Field>)
    requires InOrder(lang, s) && s != [] && Before(lang, f.key, s[0].key)
    ensures forall g | g in s :: Before(lang, f.key, g.key)
  {
    forall g | g in s ensures Before(lang, f.key, g.key) {
      var i :| 0 <= i < |s| && s[i] == g;
      if i > 0 {
        BeforeTransitive(lang, f.key, s[0].key, g.key);
      }
    }
  }

  lemma {:induction false} InsertInOrder(lang: Lang, f: Field, s: seq<Field>)
    requires InOrder(lang, s) && forall g | g in s :: g.key != f.key
    ensures InOrder(lang, InsertField(lang, f, s))
  {
    if s == [] {
    } else if Before(lang, f.key, s[0].key) {
      HeadFirst(lang, f, s);
      ConsInOrder(lang, f, s);
    } else {
      BeforeTotal(lang, f.key, s[0].key);
      var r := InsertField(lang, f, s[1..]);
      assert forall g | g in s[1..] :: g in s;
      InsertInOrder(lang, f, s[1..]);
      forall g | g in r ensures Before(lang, s[0].key, g.key) {
        InsertHas(lang, f, s[1..], g);
      }
      ConsInOrder(lang, s[0], r);
    }
  }

  lemma {:induction false} SortInOrder(lang: Lang, s: seq<Field>)
    requires DistinctKeys(s)
    ensures InOrder(lang, SortFields(lang, s))
  {
    if s != [] {
      SortInOrder(lang, s[1..]);
      forall g | g in SortFields(lang, s[1..]) ensures g.key != s[0].key {
        SortHas(lang, s[1..], g);
      }
      InsertInOrder(lang, s[0], SortFields(lang, s[1..]));
    }
  }

  lemma InOrderIsDistinct(lang: Lang, s: seq<Field>)
    requires InOrder(lang, s)
    ensures DistinctKeys(s)
  {
    forall i, j | 0 <= i < j < |s| ensures s[i].key != s[j].key {
      BeforeTotal(lang, s[i].key, s[j].key);
    }
  }

  predicate SameMembers(s: seq<Field>, t: seq<Field>) {
    (forall f | f in s :: f in t) && (forall f | f in t :: f in s)
  }

  lemma HeadsAgree(lang: Lang, s: seq<Field>, t: seq<Field>)
    requires InOrder(lang, s) && InOrder(lang, t) && SameMembers(s, t) && s != []
    ensures t != [] && s[0] == t[0]
  {
    assert s[0] in t;
    assert t[0] in s;
    var i :| 0 <= i < |t| && t[i] == s[0];
    var j :| 0 <= j < |s| && s[j] == t[0];
    BeforeTotal(lang, s[0].key, t[0].key);
  }

  lemma TailsAgree(lang: Lang, s: seq<Field>, t: seq<Field>)
    requires InOrder(lang, s) && InOrder(lang, t) && SameMembers(s, t) && s != [] && t != [] && s[0] == t[0]
    ensures forall f | f in s[1..] :: f in t[1..]
  {
    InOrderIsDistinct(lang, s);
    forall f | f in s[1..] ensures f in t[1..] {
      assert f in s && f in t;
      assert t == [t[0]] + t[1..];
    }
  }

  /** An ordered list is determined by its members. */
  lemma {:induction false} OrderedUnique(lang: Lang, s: seq<Field>, t: seq<Field>)
    requires InOrder(lang, s) && InOrder(lang, t) && SameMembers(s, t)
    ensures s == t
  {
    if s == [] {
      if t != [] { HeadsAgree(lang, t, s); }
    } else {
      HeadsAgree(lang, s, t);
      TailsAgree(lang, s, t);
      TailsAgree(lang, t, s);
      OrderedUnique(lang, s[1..], t[1..]);
      assert s == [s[0]] + s[1..] && t == [t[0]] + t[1..];
    }
  }

  // ---------------------------------------------------------------------------------------
  // Facts about maps.
  // ---------------------------------------------------------------------------------------

  lemma {:induction false} MapHas(s: seq<Field>, f: Field)
    requires DistinctKeys(s) && f in s
    ensures f.key in MapOf(s) && MapOf(s)[f.key] == Meaning(f.value)
    decreases s
  {
    assert s == [s[0]] + s[1..];
    if f != s[0] {
      MapHas(s[1..], f);
    }
  }

  lemma {:induction false} KeyHasField(s: seq<Field>, k: string)
    requires k in MapOf(s)
    ensures exists f | f in s :: f.key == k
    decreases s
  {
    if k == s[0].key {
      assert s[0] in s;
    } else {
      KeyHasField(s[1..], k);
      assert forall f | f in s[1..] :: f in s;
    }
  }

  lemma {:induction false} ItemAt(lang: Lang, items: seq<Json>, i: nat)
    requires i < |items|
    ensures SortedItems(lang, items)[i] == Sorted(lang, items[i]) && Meanings(items)[i] == Meaning(items[i])
    decreases items
  {
    if i > 0 {
      ItemAt(lang, items[1..], i - 1);
    }
  }

  lemma {:induction false} FieldAt(lang: Lang, s: seq<Field>, i: nat)
    requires i < |s|
    ensures SortedValues(lang, s)[i] == Field(s[i].key, Sorted(lang, s[i].value))
    decreases s
  {
    if i > 0 {
      FieldAt(lang, s[1..], i - 1);
    }
  }

  lemma ValuesKeepKeys(lang: Lang, s: seq<Field>)
    requires DistinctKeys(s)
    ensures DistinctKeys(SortedValues(lang, s))
  {
    forall i, j | 0 <= i < j < |s| ensures SortedValues(lang, s)[i].key != SortedValues(lang, s)[j].key {
      FieldAt(lang, s, i);
      FieldAt(lang, s, j);
    }
  }

  // ---------------------------------------------------------------------------------------
  // Sorting forgets the insertion order, and nothing else.
  // ---------------------------------------------------------------------------------------

  lemma {:induction false} SortedFollowsMeaning(lang: Lang, v: Json, w: Json)
    requires WellKeyed(v) && WellKeyed(w) && Meaning(v) == Meaning(w)
    ensures Sorted(lang, v) == Sorted(lang, w)
    decreases v
  {
    match v
    case Arr(items) =>
      assert |Meanings(items)| == |Meanings(w.items)|;
      forall i | 0 <= i < |items| ensures SortedItems(lang, items)[i] == SortedItems(lang, w.items)[i] {
        ItemAt(lang, items, i);
        ItemAt(lang, w.items, i);
        SortedFollowsMeaning(lang, items[i], w.items[i]);
      }
    case Obj(fields) =>
      forall i | 0 <= i < |fields| ensures SortedValues(lang, fields)[i] in SortedValues(lang, w.fields) {
        var j := SameField(lang, fields, w.fields, i);
        SortedFollowsMeaning(lang, fields[i].value, w.fields[j].value);
        FieldAt(lang, fields, i);
        FieldAt(lang, w.fields, j);
      }
      forall j | 0 <= j < |w.fields| ensures SortedValues(lang, w.fields)[j] in SortedValues(lang, fields) {
        var i := SameField(lang, w.fields, fields, j);
        SortedFollowsMeaning(lang, fields[i].value, w.fields[j].value);
        FieldAt(lang, fields, i);
        FieldAt(lang, w.fields, j);
      }
      SortedSame(lang, SortedValues(lang, fields), SortedValues(lang, w.fields), fields, w.fields);
    case _ =>
  }

  /** The field of the same key in an object of the same meaning. */
  lemma SameField(lang: Lang, s: seq<Field>, t: seq<Field>, i: nat) returns (j: nat)
    requires DistinctKeys(s) && DistinctKeys(t) && MapOf(s) == MapOf(t) && i < |s|
    ensures j < |t| && t[j].key == s[i].key && Meaning(t[j].value) == Meaning(s[i].value)
  {
    MapHas(s, s[i]);
    KeyHasField(t, s[i].key);
    var f :| f in t && f.key == s[i].key;
    MapHas(t, f);
    j :| 0 <= j < |t| && t[j] == f;
  }

  lemma SortedSame(lang: Lang, a: seq<Field>, b: seq<Field>, s: seq<Field>, t: seq<Field>)
    requires DistinctKeys(s) && DistinctKeys(t) && a == SortedValues(lang, s) && b == SortedValues(lang, t)
    requires SameMembers(a, b)
    ensures SortFields(lang, a) == SortFields(lang, b)
  {
    ValuesKeepKeys(lang, s);
    ValuesKeepKeys(lang, t);
    SortInOrder(lang, a);
    SortInOrder(lang, b);
    forall f ensures f in SortFields(lang, a) <==> f in SortFields(lang, b) {
      SortHas(lang, a, f);
      SortHas(lang, b, f);
    }
    OrderedUnique(lang, SortFields(lang, a), SortFields(lang, b));
  }

  /** The field of the unsorted object that a field of the sorted one comes from. */
  lemma Origin(lang: Lang, s: seq<Field>, f: Field) returns (i: nat)
    requires f in SortFields(lang, SortedValues(lang, s))
    ensures i < |s| && f == Field(s[i].key, Sorted(lang, s[i].value))
  {
    SortHas(lang, SortedValues(lang, s), f);
    i :| 0 <= i < |SortedValues(lang, s)| && SortedValues(lang, s)[i] == f;
    FieldAt(lang, s, i);
  }

  lemma Arrives(lang: Lang, s: seq<Field>, i: nat)
    requires i < |s|
    ensures Field(s[i].key, Sorted(lang, s[i].value)) in SortFields(lang, SortedValues(lang, s))
  {
    FieldAt(lang, s, i);
    SortHas(lang, SortedValues(lang, s), SortedValues(lang, s)[i]);
  }

  lemma {:induction false} SortedKeepsMeaning(lang: Lang, v: Json)
    requires WellKeyed(v)
    ensures Meaning(Sorted(lang, v)) == Meaning(v)
    decreases v
  {
    match v
    case Arr(items) =>
      forall i | 0 <= i < |items| ensures Meanings(SortedItems(lang, items))[i] == Meanings(items)[i] {
        SortedKeepsMeaning(lang, items[i]);
        ItemAt(lang, items, i);
        ItemAt(lang, SortedItems(lang, items), i);
      }
    case Obj(fields) =>
      forall i | 0 <= i < |fields| ensures Meaning(Sorted(lang, fields[i].value)) == Meaning(fields[i].value) {
        SortedKeepsMeaning(lang, fields[i].value);
      }
      SortedKeepsMap(lang, fields);
    case _ =>
  }

  lemma SortedKeepsMap(lang: Lang, s: seq<Field>)
    requires DistinctKeys(s)
    requires forall i | 0 <= i < |s| :: Meaning(Sorted(lang, s[i].value)) == Meaning(s[i].value)
    ensures MapOf(SortFields(lang, SortedValues(lang, s))) == MapOf(s)
  {
    var r := SortFields(lang, SortedValues(lang, s));
    ValuesKeepKeys(lang, s);
    SortInOrder(lang, SortedValues(lang, s));
    InOrderIsDistinct(lang, r);
    forall k | k in MapOf(r) ensures k in MapOf(s) {
      KeyHasField(r, k);
      var f :| f in r && f.key == k;
      var i := Origin(lang, s, f);
      MapHas(s, s[i]);
    }
    forall k | k in MapOf(s) ensures k in MapOf(r) && MapOf(r)[k] == MapOf(s)[k] {
      KeyHasField(s, k);
      var i :| 0 <= i < |s| && s[i].key == k;
      MapHas(s, s[i]);
      Arrives(lang, s, i);
      MapHas(r, Field(k, Sorted(lang, s[i].value)));
    }
  }

  lemma {:induction false} SortedKeepsAcceptance(lang: Lang, v: Json)
    ensures Accepted(Sorted(lang, v)) <==> Accepted(v)
    decreases v
  {
    match v
    case Arr(items) =>
      forall i | 0 <= i < |items| ensures Accepted(SortedItems(lang, items)[i]) <==> Accepted(items[i]) {
        SortedKeepsAcceptance(lang, items[i]);
        ItemAt(lang, items, i);
      }
      if Accepted(Arr(SortedItems(lang, items))) {
        assert forall i | 0 <= i < |items| :: Accepted(SortedItems(lang, items)[i]);
      }
    case Obj(fields) =>
      forall i | 0 <= i < |fields| ensures Accepted(Sorted(lang, fields[i].value)) <==> Accepted(fields[i].value) {
        SortedKeepsAcceptance(lang, fields[i].value);
      }
      FieldsKeepAcceptance(lang, fields);
    case _ =>
  }

  lemma FieldsKeepAcceptance(lang: Lang, s: seq<Field>)
    requires forall i | 0 <= i < |s| :: Accepted(Sorted(lang, s[i].value)) <==> Accepted(s[i].value)
    ensures Accepted(Obj(SortFields(lang, SortedValues(lang, s)))) <==> Accepted(Obj(s))
  {
    var r := SortFields(lang, SortedValues(lang, s));
    forall j | Accepted(Obj(s)) && 0 <= j < |r| ensures Accepted(r[j].value) {
      var i := Origin(lang, s, r[j]);
    }
    forall i | Accepted(Obj(r)) && 0 <= i < |s| ensures Accepted(s[i].value) {
      Arrives(lang, s, i);
      var j :| 0 <= j < |r| && r[j] == Field(s[i].key, Sorted(lang, s[i].value));
      assert Accepted(r[j].value);
    }
  }

  /** Round trip: the bytes of an accepted body decode to a body of the same meaning. */
  lemma DecodeUndoesEncode(lang: Lang, v: Json)
    requires WellKeyed(v) && Accepted(v)
    ensures Encode(lang, v).Some? && Decode(Encode(lang, v).value).Some?
    ensures Meaning(Decode(Encode(lang, v).value).value) == Meaning(v)
  {
    SortedKeepsAcceptance(lang, v);
    DecodesPrinted(Sorted(lang, v));
    SortedKeepsMeaning(lang, v);
  }

  /** The keys of every object are in order, at every level. */
  predicate AllInOrder(lang: Lang, v: Json)
    decreases v
  {
    match v
    case Arr(items) => forall i | 0 <= i < |items| :: AllInOrder(lang, items[i])
    case Obj(fields) => InOrder(lang, fields) && forall i | 0 <= i < |fields| :: AllInOrder(lang, fields[i].value)
    case _ => true
  }

  lemma {:induction false} SortedIsInOrder(lang: Lang, v: Json)
    requires WellKeyed(v)
    ensures AllInOrder(lang, Sorted(lang, v))
    decreases v
  {
    match v
    case Arr(items) =>
      forall i | 0 <= i < |items| ensures AllInOrder(lang, SortedItems(lang, items)[i]) {
        ItemAt(lang, items, i);
        SortedIsInOrder(lang, items[i]);
      }
    case Obj(fields) =>
      var r := SortFields(lang, SortedValues(lang, fields));
      ValuesKeepKeys(lang, fields);
      SortInOrder(lang, SortedValues(lang, fields));
      forall j | 0 <= j < |r| ensures AllInOrder(lang, r[j].value) {
        var i := Origin(lang, fields, r[j]);
        SortedIsInOrder(lang, fields[i].value);
      }
    case _ =>
  }

  /** In the signed bytes the keys of every object appear in the order of the language. */
  lemma KeysComeOutInOrder(lang: Lang, v: Json)
    requires WellKeyed(v) && Accepted(v)
    ensures Encode(lang, v).Some? && Decode(Encode(lang, v).value).Some?
    ensures AllInOrder(lang, Decode(Encode(lang, v).value).value)
  {
    SortedKeepsAcceptance(lang, v);
    DecodesPrinted(Sorted(lang, v));
    SortedIsInOrder(lang, v);
  }

  lemma EncodeSeesSorted(lang: Lang, other: Lang, v: Json, w: Json)
    requires Encode(lang, v).Some? && Encode(lang, v) == Encode(other, w)
    ensures Sorted(lang, v) == Sorted(other, w)
  {
    SortedKeepsAcceptance(lang, v);
    SortedKeepsAcceptance(other, w);
    DecodesPrinted(Sorted(lang, v));
    DecodesPrinted(Sorted(other, w));
  }

  /**
   Two bodies get the same bytes exactly when they mean the same: the insertion order of keys
   does not matter at any level, and nothing else is lost. A body is rejected or accepted
   regardless of order, too.
   */
  lemma SameBytesIffSameMeaning(lang: Lang, v: Json, w: Json)
    requires WellKeyed(v) && WellKeyed(w)
    ensures Meaning(v) == Meaning(w) ==> Encode(lang, v) == Encode(lang, w)
    ensures Encode(lang, v).Some? && Encode(lang, v) == Encode(lang, w) ==> Meaning(v) == Meaning(w)
    ensures Encode(lang, v).Some? <==> Accepted(v)
  {
    if Meaning(v) == Meaning(w) {
      SortedFollowsMeaning(lang, v, w);
      SortedKeepsAcceptance(lang, v);
      SortedKeepsAcceptance(lang, w);
    }
    if Encode(lang, v).Some? && Encode(lang, v) == Encode(lang, w) {
      EncodeSeesSorted(lang, lang, v, w);
      SortedKeepsMeaning(lang, v);
      SortedKeepsMeaning(lang, w);
    }
  }

  /** Bytes made by one side and read as the other side's never stand for another body. */
  lemma NoCrossLanguageCollision(v: Json, w: Json)
    requires WellKeyed(v) && WellKeyed(w) && Encode(JavaScript, v).Some? && Encode(JavaScript, v) == Encode(Python, w)
    ensures Meaning(v) == Meaning(w)
  {
    EncodeSeesSorted(JavaScript, Python, v, w);
    SortedKeepsMeaning(JavaScript, v);
    SortedKeepsMeaning(Python, w);
  }

  // ---------------------------------------------------------------------------------------
  // When the two encoders agree.
  // ---------------------------------------------------------------------------------------

  /** Both languages put these two keys in the same order. */
  predicate SameOrder(a: string, b: string) {
    Before(JavaScript, a, b) == Before(Python, a, b)
  }

  predicate OrdersAgree(v: Json)
    decreases v
  {
    match v
    case Arr(items) => forall i | 0 <= i < |items| :: OrdersAgree(items[i])
    case Obj(fields) =>
      && (forall i, j | 0 <= i < |fields| && 0 <= j < |fields| :: SameOrder(fields[i].key, fields[j].key))
      && (forall i | 0 <= i < |fields| :: OrdersAgree(fields[i].value))
    case _ => true
  }

  predicate AllSameOrder(s: seq<Field>) {
    forall f, g | f in s && g in s :: SameOrder(f.key, g.key)
  }

  lemma {:induction false} InsertAgrees(f: Field, s: seq<Field>)
    requires forall g | g in s :: SameOrder(f.key, g.key)
    ensures InsertField(JavaScript, f, s) == InsertField(Python, f, s)
  {
    if s != [] {
      assert s[0] in s;
      assert forall g | g in s[1..] :: g in s;
      InsertAgrees(f, s[1..]);
    }
  }

  lemma {:induction false} SortAgrees(s: seq<Field>)
    requires AllSameOrder(s)
    ensures SortFields(JavaScript, s) == SortFields(Python, s)
  {
    if s != [] {
      assert s[0] in s;
      assert forall g | g in s[1..] :: g in s;
      SortAgrees(s[1..]);
      forall g | g in SortFields(Python, s[1..]) ensures SameOrder(s[0].key, g.key) {
        SortHas(Python, s[1..], g);
      }
      InsertAgrees(s[0], SortFields(Python, s[1..]));
    }
  }

  lemma ValuesSameOrder(lang: Lang, s: seq<Field>)
    requires forall i, j | 0 <= i < |s| && 0 <= j < |s| :: SameOrder(s[i].key, s[j].key)
    ensures AllSameOrder(SortedValues(lang, s))
  {
    var a := SortedValues(lang, s);
    forall f, g | f in a && g in a ensures SameOrder(f.key, g.key) {
      var i :| 0 <= i < |a| && a[i] == f;
      var j :| 0 <= j < |a| && a[j] == g;
      FieldAt(lang, s, i);
      FieldAt(lang, s, j);
    }
  }

  lemma {:induction false} AgreeingSortsAlike(v: Json)
    requires OrdersAgree(v)
    ensures Sorted(JavaScript, v) == Sorted(Python, v)
    decreases v
  {
    match v
    case Arr(items) =>
      forall i | 0 <= i < |items| ensures SortedItems(JavaScript, items)[i] == SortedItems(Python, items)[i] {
        ItemAt(JavaScript, items, i);
        ItemAt(Python, items, i);
        AgreeingSortsAlike(items[i]);
      }
    case Obj(fields) =>
      forall i | 0 <= i < |fields| ensures SortedValues(JavaScript, fields)[i] == SortedValues(Python, fields)[i] {
        FieldAt(JavaScript, fields, i);
        FieldAt(Python, fields, i);
        AgreeingSortsAlike(fields[i].value);
      }
      assert SortedValues(JavaScript, fields) == SortedValues(Python, fields);
      ValuesSameOrder(Python, fields);
      SortAgrees(SortedValues(Python, fields));
    case _ =>
  }

  /** A list that is in order for both languages orders all its keys alike. */
  lemma OrderedTwice(s: seq<Field>, f: Field, g: Field)
    requires InOrder(JavaScript, s) && InOrder(Python, s) && f in s && g in s
    ensures SameOrder(f.key, g.key)
  {
    var i :| 0 <= i < |s| && s[i] == f;
    var j :| 0 <= j < |s| && s[j] == g;
    BeforeTotal(JavaScript, f.key, g.key);
    BeforeTotal(Python, f.key, g.key);
  }

  lemma FieldsSortAlike(s: seq<Field>, i: nat, j: nat)
    requires DistinctKeys(s) && i < |s| && j < |s|
    requires SortFields(JavaScript, SortedValues(JavaScript, s)) == SortFields(Python, SortedValues(Python, s))
    ensures SameOrder(s[i].key, s[j].key)
    ensures Sorted(JavaScript, s[i].value) == Sorted(Python, s[i].value)
  {
    var r := SortFields(Python, SortedValues(Python, s));
    ValuesKeepKeys(JavaScript, s);
    ValuesKeepKeys(Python, s);
    SortInOrder(JavaScript, SortedValues(JavaScript, s));
    SortInOrder(Python, SortedValues(Python, s));
    Arrives(JavaScript, s, i);
    Arrives(JavaScript, s, j);
    OrderedTwice(r, Field(s[i].key, Sorted(JavaScript, s[i].value)), Field(s[j].key, Sorted(JavaScript, s[j].value)));
    var o := Origin(Python, s, Field(s[i].key, Sorted(JavaScript, s[i].value)));
    assert o == i;
  }

  lemma {:induction false} SortingAlikeAgrees(v: Json)
    requires WellKeyed(v) && Sorted(JavaScript, v) == Sorted(Python, v)
    ensures OrdersAgree(v)
    decreases v
  {
    match v
    case Arr(items) =>
      forall i | 0 <= i < |items| ensures OrdersAgree(items[i]) {
        ItemAt(JavaScript, items, i);
        ItemAt(Python, items, i);
        SortingAlikeAgrees(items[i]);
      }
    case Obj(fields) =>
      forall i, j | 0 <= i < |fields| && 0 <= j < |fields| ensures SameOrder(fields[i].key, fields[j].key) {
        FieldsSortAlike(fields, i, j);
      }
      forall i | 0 <= i < |fields| ensures OrdersAgree(fields[i].value) {
        FieldsSortAlike(fields, i, i);
        SortingAlikeAgrees(fields[i].value);
      }
    case _ =>
  }

  /** The two encoders produce the same bytes for a body if and only if they order the keys of each of its objects alike. */
  lemma EncodersAgreeExactly(v: Json)
    requires WellKeyed(v) && Accepted(v)
    ensures Encode(JavaScript, v) == Encode(Python, v) <==> OrdersAgree(v)
  {
    if OrdersAgree(v) {
      AgreeingSortsAlike(v);
    }
    if Encode(JavaScript, v) == Encode(Python, v) {
      EncodeSeesSorted(JavaScript, Python, v, v);
      SortingAlikeAgrees(v);
    }
  }

  /** A key of the Basic Multilingual Plane that is no array index. */
  predicate Plain(k: string) {
    !IsIndex(k) && forall i | 0 <= i < |k| :: k[i] as int < 0x10000
  }

  lemma {:induction false} PlainUnits(k: string)
    requires forall i | 0 <= i < |k| :: k[i] as int < 0x10000
    ensures Units(k) == Points(k)
  {
    if k != [] {
      PlainUnits(k[1..]);
    }
  }

  predicate PlainKeys(v: Json)
    decreases v
  {
    match v
    case Arr(items) => forall i | 0 <= i < |items| :: PlainKeys(items[i])
    case Obj(fields) => forall i | 0 <= i < |fields| :: Plain(fields[i].key) && PlainKeys(fields[i].value)
    case _ => true
  }

  lemma {:induction false} PlainKeysAgree(v: Json)
    requires PlainKeys(v)
    ensures OrdersAgree(v)
    decreases v
  {
    match v
    case Arr(items) =>
      forall i | 0 <= i < |items| ensures OrdersAgree(items[i]) {
        PlainKeysAgree(items[i]);
      }
    case Obj(fields) =>
      forall i, j | 0 <= i < |fields| && 0 <= j < |fields| ensures SameOrder(fields[i].key, fields[j].key) {
        PlainUnits(fields[i].key);
        PlainUnits(fields[j].key);
      }
      forall i | 0 <= i < |fields| ensures OrdersAgree(fields[i].value) {
        PlainKeysAgree(fields[i].value);
      }
    case _ =>
  }

  /** Bodies with plain keys get the same bytes from both encoders, so one side's signature verifies on the other. */
  lemma PlainBodiesVerify(v: Json, w: Json)
    requires WellKeyed(v) && WellKeyed(w) && PlainKeys(v) && Meaning(v) == Meaning(w)
    ensures Encode(JavaScript, v) == Encode(Python, w)
  {
    PlainKeysAgree(v);
    SameBytesIffSameMeaning(Python, v, w);
    AgreeingSortsAlike(v);
  }

  /** Keys that are array indexes are printed in another order: 9 before 10 in JavaScript, "10" before "9" in Python. */
  lemma IndexKeysDisagree()
    ensures !SameOrder("9", "10")
  {
    assert Value("9"[..0]) == 0 && Value("9") == 9;
    assert "10"[..1] == "1" && "1"[..0] == "" && Value("1") == 1 && Value("10") == 10;
    assert Points("9")[0] == 57 && Points("10")[0] == 49;
  }

  /** A key beyond the Basic Multilingual Plane sorts before U+FF5E by code unit and after it by code point. */
  lemma AstralKeysDisagree(a: char, b: char)
    requires a as int == 0x10000 && b as int == 0xFF5E
    ensures !SameOrder([a], [b])
  {
    assert Units([a])[0] == 0xD800 && Units([b])[0] == 0xFF5E;
    assert Points([a])[0] == 0x10000 && Points([b])[0] == 0xFF5E;
  }
}
