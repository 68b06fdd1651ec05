/**
 JSON text without whitespace, as JSON.stringify and json.dumps with compact separators print it,
 and its UTF-8 encoding. An independent reader, after the grammar of RFC 8259 and the table of
 RFC 3629, reads every printed value back.
 */
module CanonicalText {
  import opened Options

  datatype Field = Field(key: string, value: Json)

  /** A value as the program holds it. `Fraction` is any other number, `Unsupported` any value of another type. */
  datatype Json =
    | Null
    | Bool(b: bool)
    | Num(n: int)
    | Fraction
    | Unsupported
    | Str(s: string)
    | Arr(items: seq<Json>)
    | Obj(fields: seq<Field>)

  function Digit(d: int): char
    requires 0 <= d < 16
  {
    if d < 10 then '0' + d as char else 'a' + (d - 10) as char
  }

  function Natural(n: nat): (r: string)
    ensures r != []
  {
    if n < 10 then [Digit(n)] else Natural(n / 10) + [Digit(n % 10)]
  }

  function Decimal(n: int): string {
    if n < 0 then ['-'] + Natural(-n) else Natural(n)
  }

  function Escape(c: char): (r: string)
    ensures r != []
  {
    if c == '\"' then ['\\', '\"']
    else if c == '\\' then ['\\', '\\']
    else if c as int == 8 then ['\\', 'b']
    else if c as int == 12 then ['\\', 'f']
    else if c as int == 10 then ['\\', 'n']
    else if c as int == 13 then ['\\', 'r']
    else if c as int == 9 then ['\\', 't']
    else if c as int < 32 then ['\\', 'u', '0', '0', Digit(c as int / 16), Digit(c as int % 16)]
    else [c]
  }

  /** The characters of a string and its closing quote. */
  function Quoted(s: string): (r: string)
    ensures r != []
  {
    if s == [] then ['\"'] else Escape(s[0]) + Quoted(s[1..])
  }

  /** The text of a value that has passed the check; the two rejected kinds print as nothing. */
  function Print(v: Json): string
    decreases v
  {
    match v
    case Null => ['n', 'u', 'l', 'l']
    case Bool(b) => if b then ['t', 'r', 'u', 'e'] else ['f', 'a', 'l', 's', 'e']
    case Num(n) => Decimal(n)
    case Str(s) => ['\"'] + Quoted(s)
    case Arr(items) => ['['] + (if items == [] then [']'] else Print(items[0]) + MoreItems(items[1..]))
    case Obj(fields) => ['{'] + (if fields == [] then ['}'] else PrintField(fields[0]) + MoreFields(fields[1..]))
    case _ => []
  }

  function MoreItems(items: seq<Json>): string
    decreases items
  {
    if items == [] then [']'] else [','] + Print(items[0]) + MoreItems(items[1..])
  }

  function PrintField(f: Field): string
    decreases f
  {
    ['\"'] + Quoted(f.key) + [':'] + Print(f.value)
  }

  function MoreFields(fields: seq<Field>): string
    decreases fields
  {
    if fields == [] then ['}'] else [','] + PrintField(fields[0]) + MoreFields(fields[1..])
  }

  const MAX_SAFE := 9007199254740991

  /** The check both encoders make before they print. */
  predicate Accepted(v: Json)
    decreases v
  {
    match v
    case Num(n) => -MAX_SAFE <= n <= MAX_SAFE
    case Fraction => false
    case Unsupported => false
    case Arr(items) => forall i | 0 <= i < |items| :: Accepted(items[i])
    case Obj(fields) => forall i | 0 <= i < |fields| :: Accepted(fields[i].value)
    case _ => true
  }

  /** The value is this one, or this one is somewhere in it. */
  predicate Has(v: Json, x: Json)
    decreases v
  {
    || v == x
    || (v.Arr? && exists i | 0 <= i < |v.items| :: Has(v.items[i], x))
    || (v.Obj? && exists i | 0 <= i < |v.fields| :: Has(v.fields[i].value, x))
  }

  /** A value has a canonical text exactly if every number in it is an integer that both languages hold exactly, and nothing is of another type. */
  lemma {:induction false} AcceptedExactly(v: Json)
    ensures Accepted(v) <==>
      forall x | Has(v, x) :: !x.Fraction? && !x.Unsupported? && (x.Num? ==> -0x20_0000_0000_0000 < x.n < 0x20_0000_0000_0000)
    decreases v
  {
    match v
    case Arr(items) =>
      forall i | 0 <= i < |items| { AcceptedExactly(items[i]); }
      assert forall i, x | 0 <= i < |items| && Has(items[i], x) :: Has(v, x);
    case Obj(fields) =>
      forall i | 0 <= i < |fields| { AcceptedExactly(fields[i].value); }
      assert forall i, x | 0 <= i < |fields| && Has(fields[i].value, x) :: Has(v, x);
    case _ => assert Has(v, v);
  }

  predicate IsDigit(c: char) {
    '0' <= c <= '9'
  }

  predicate AllDigits(s: string) {
    forall i | 0 <= i < |s| :: IsDigit(s[i])
  }

  /** The number that a string of decimal digits denotes. */
  function Value(s: string): int {
    if s == [] then 0 else 10 * Value(s[..|s| - 1]) + (s[|s| - 1] as int - '0' as int)
  }

  // ---------------------------------------------------------------------------------------
  // Reading JSON (sections 2 to 7 of RFC 8259), without whitespace, fractions and exponents.
  // ---------------------------------------------------------------------------------------

  function HexValue(c: char): Option<int> {
    if IsDigit(c) then Some(c as int - '0' as int)
    else if 'a' <= c <= 'f' then Some(c as int - 'a' as int + 10)
    else if 'A' <= c <= 'F' then Some(c as int - 'A' as int + 10)
    else None
  }

  /** The character of an escape sequence, and how long the sequence is; surrogates are not read. */
  function ReadEscape(s: string): (r: Option<(char, nat)>)
    ensures r.Some? ==> 2 <= r.value.1 <= |s|
  {
    if |s| < 2 then None
    else if s[1] == '\"' || s[1] == '\\' || s[1] == '/' then Some((s[1], 2))
    else if s[1] == 'b' then Some((8 as char, 2))
    else if s[1] == 'f' then Some((12 as char, 2))
    else if s[1] == 'n' then Some((10 as char, 2))
    else if s[1] == 'r' then Some((13 as char, 2))
    else if s[1] == 't' then Some((9 as char, 2))
    else if s[1] != 'u' || |s| < 6 then None
    else
      var (a, b, c, d) := (HexValue(s[2]), HexValue(s[3]), HexValue(s[4]), HexValue(s[5]));
      if a.None? || b.None? || c.None? || d.None? then None
      else
        var n := 4096 * a.value + 256 * b.value + 16 * c.value + d.value;
        if 0 <= n < 0xD800 || 0xE000 <= n < 0x10000 then Some((n as char, 6)) else None
  }

  /** A string after its opening quote, and what follows its closing quote. */
  function ReadString(s: string): (r: Option<(string, string)>)
    ensures r.Some? ==> |r.value.1| < |s|
    decreases |s|
  {
    if s == [] then None
    else if s[0] == '\"' then Some(([], s[1..]))
    else if s[0] == '\\' then
      match ReadEscape(s)
      case None => None
      case Some((c, n)) => Prepend(c, ReadString(s[n..]))
    else if s[0] as int < 32 then None
    else Prepend(s[0], ReadString(s[1..]))
  }

  function Prepend(c: char, r: Option<(string, string)>): Option<(string, string)> {
    if r.Some? then Some(([c] + r.value.0, r.value.1)) else None
  }

  /** How many digits the text begins with. */
  function Span(s: string): (n: nat)
    ensures n <= |s|
  {
    if s == [] || !IsDigit(s[0]) then 0 else 1 + Span(s[1..])
  }

  function ReadNatural(s: string): (r: Option<(int, string)>)
    ensures r.Some? ==> |r.value.1| < |s|
  {
    var n := Span(s);
    if n == 0 || (n > 1 && s[0] == '0') || (n < |s| && s[n] in ['.', 'e', 'E']) then None
    else Some((Value(s[..n]), s[n..]))
  }

  function ReadNumber(s: string): (r: Option<(Json, string)>)
    ensures r.Some? ==> |r.value.1| < |s|
  {
    var negative := s != [] && s[0] == '-';
    var n := ReadNatural(if negative then s[1..] else s);
    if n.None? then None else Some((Num(if negative then -n.value.0 else n.value.0), n.value.1))
  }

  predicate Starts(s: string, word: string) {
    |s| >= |word| && s[..|word|] == word
  }

  /** A value, and what follows it. */
  function ReadValue(s: string): (r: Option<(Json, string)>)
    ensures r.Some? ==> |r.value.1| < |s|
    decreases |s|, 0
  {
    if s == [] then None
    else if Starts(s, ['n', 'u', 'l', 'l']) then Some((Null, s[4..]))
    else if Starts(s, ['t', 'r', 'u', 'e']) then Some((Bool(true), s[4..]))
    else if Starts(s, ['f', 'a', 'l', 's', 'e']) then Some((Bool(false), s[5..]))
    else if s[0] == '\"' then
      var t := ReadString(s[1..]);
      if t.None? then None else Some((Str(t.value.0), t.value.1))
    else if Starts(s, ['[', ']']) then Some((Arr([]), s[2..]))
    else if s[0] == '[' then
      var t := ReadItems(s[1..]);
      if t.None? then None else Some((Arr(t.value.0), t.value.1))
    else if Starts(s, ['{', '}']) then Some((Obj([]), s[2..]))
    else if s[0] == '{' then
      var t := ReadFields(s[1..]);
      if t.None? then None else Some((Obj(t.value.0), t.value.1))
    else ReadNumber(s)
  }

  /** Values separated by commas, up to the closing bracket. */
  function ReadItems(s: string): (r: Option<(seq<Json>, string)>)
    ensures r.Some? ==> |r.value.1| < |s|
    decreases |s|, 1
  {
    var v := ReadValue(s);
    if v.None? || v.value.1 == [] then None
    else
      var rest := v.value.1;
      if rest[0] == ']' then Some(([v.value.0], rest[1..]))
      else if rest[0] != ',' then None
      else
        var more := ReadItems(rest[1..]);
        if more.None? then None else Some(([v.value.0] + more.value.0, more.value.1))
  }

  function ReadField(s: string): (r: Option<(Field, string)>)
    ensures r.Some? ==> |r.value.1| < |s|
    decreases |s|, 1
  {
    if s == [] || s[0] != '\"' then None
    else
      var key := ReadString(s[1..]);
      if key.None? || key.value.1 == [] || key.value.1[0] != ':' then None
      else
        var v := ReadValue(key.value.1[1..]);
        if v.None? then None else Some((Field(key.value.0, v.value.0), v.value.1))
  }

  function ReadFields(s: string): (r: Option<(seq<Field>, string)>)
    ensures r.Some? ==> |r.value.1| < |s|
    decreases |s|, 2
  {
    var f := ReadField(s);
    if f.None? || f.value.1 == [] then None
    else
      var rest := f.value.1;
      if rest[0] == '}' then Some(([f.value.0], rest[1..]))
      else if rest[0] != ',' then None
      else
        var more := ReadFields(rest[1..]);
        if more.None? then None else Some(([f.value.0] + more.value.0, more.value.1))
  }

  // ---------------------------------------------------------------------------------------
  // Numbers and strings are read back.
  // ---------------------------------------------------------------------------------------

  /** What may follow a value: nothing, a comma or a closing bracket. */
  predicate Stops(r: string) {
    r == [] || r[0] == ',' || r[0] == ']' || r[0] == '}'
  }

  lemma {:induction false} NaturalRead(n: nat)
    ensures AllDigits(Natural(n)) && Value(Natural(n)) == n
    ensures Natural(n)[0] == '0' ==> n == 0
  {
    var s := Natural(n);
    if n >= 10 {
      NaturalRead(n / 10);
      assert s[..|s| - 1] == Natural(n / 10);
    } else {
      assert s[..0] == [];
    }
  }

  lemma {:induction false} SpanOf(s: string, r: string)
    requires AllDigits(s) && Stops(r)
    ensures Span(s + r) == |s|
  {
    if s == [] {
      assert s + r == r;
    } else {
      assert (s + r)[1..] == s[1..] + r;
      SpanOf(s[1..], r);
    }
  }

  lemma {:induction false} NaturalLength(n: nat)
    ensures |Natural(n)| == 1 <==> n < 10
  {
  }

  lemma ReadsNatural(n: nat, r: string)
    requires Stops(r)
    ensures ReadNatural(Natural(n) + r) == Some((n, r))
  {
    var s := Natural(n);
    NaturalRead(n);
    NaturalLength(n);
    SpanOf(s, r);
    assert (s + r)[0] == s[0] && (s + r)[..|s|] == s && (s + r)[|s|..] == r;
    assert r != [] ==> (s + r)[|s|] == r[0];
  }

  lemma ReadsNegative(n: int, r: string)
    requires n < 0 && Stops(r)
    ensures ReadNumber(['-'] + Natural(-n) + r) == Some((Num(n), r))
  {
    var s := ['-'] + Natural(-n) + r;
    assert s[0] == '-' && s[1..] == Natural(-n) + r;
    ReadsNatural(-n, r);
  }

  lemma ReadsPositive(n: nat, r: string)
    requires Stops(r)
    ensures ReadNumber(Natural(n) + r) == Some((Num(n), r))
  {
    NaturalRead(n);
    assert (Natural(n) + r)[0] == Natural(n)[0];
    ReadsNatural(n, r);
  }

  lemma ReadsNumber(n: int, r: string)
    requires Stops(r)
    ensures ReadNumber(Decimal(n) + r) == Some((Num(n), r))
  {
    if n < 0 { ReadsNegative(n, r); } else { ReadsPositive(n, r); }
  }

  lemma ReadsHex(d: int)
    requires 0 <= d < 16
    ensures HexValue(Digit(d)) == Some(d)
  {
  }

  /** Every character is read back from the way it is printed. */
  lemma ReadsCharacter(c: char, x: string)
    ensures ReadString(Escape(c) + x) == Prepend(c, ReadString(x))
  {
    var s := Escape(c) + x;
    var n := c as int;
    assert s[0] == Escape(c)[0] && s[|Escape(c)|..] == x;
    if |Escape(c)| >= 2 {
      assert s[1] == Escape(c)[1];
      if |Escape(c)| == 6 {
        assert s[2] == '0' && s[3] == '0' && s[4] == Digit(n / 16) && s[5] == Digit(n % 16);
        ReadsHex(n / 16);
        ReadsHex(n % 16);
        assert ReadEscape(s) == Some((c, 6));
      } else {
        assert ReadEscape(s) == Some((c, 2));
      }
    }
  }

  lemma Regroup(a: string, b: string, c: string)
    ensures (a + b) + c == a + (b + c)
  {
  }

  lemma {:induction false} ReadsString(s: string, r: string)
    ensures ReadString(Quoted(s) + r) == Some((s, r))
    decreases s
  {
    if s == [] {
      assert (Quoted(s) + r)[1..] == r;
    } else {
      Regroup(Escape(s[0]), Quoted(s[1..]), r);
      ReadsCharacter(s[0], Quoted(s[1..]) + r);
      ReadsString(s[1..], r);
      assert s == [s[0]] + s[1..];
    }
  }

  // ---------------------------------------------------------------------------------------
  // Values are read back.
  // ---------------------------------------------------------------------------------------

  /** The text of an array after its opening bracket, and of an object after its opening brace. */
  function InArray(items: seq<Json>): string {
    if items == [] then [']'] else Print(items[0]) + MoreItems(items[1..])
  }

  function InObject(fields: seq<Field>): string {
    if fields == [] then ['}'] else PrintField(fields[0]) + MoreFields(fields[1..])
  }

  lemma FirstCharacter(v: Json)
    requires Accepted(v)
    ensures Print(v) != [] && Print(v)[0] != ']'
    ensures v.Num? ==> Print(v)[0] == '-' || IsDigit(Print(v)[0])
  {
    if v.Num? {
      NaturalRead(if v.n < 0 then -v.n else v.n);
    }
  }

  lemma MoreStops(vs: seq<Json>, fs: seq<Field>, r: string)
    ensures Stops(MoreItems(vs) + r) && Stops(MoreFields(fs) + r)
  {
    assert (MoreItems(vs) + r)[0] == MoreItems(vs)[0] && (MoreFields(fs) + r)[0] == MoreFields(fs)[0];
  }

  /** What the reader does with the text of a value depends on its first character only, words apart. */
  lemma ReadsWord(v: Json, r: string)
    requires v.Null? || v.Bool?
    ensures ReadValue(Print(v) + r) == Some((v, r))
  {
    var s := Print(v) + r;
    assert s[..|Print(v)|] == Print(v) && s[|Print(v)|..] == r;
    assert s[0] == Print(v)[0];
    assert s[..4][0] == s[0] && (|s| >= 5 ==> s[..5][0] == s[0]);
  }

  lemma NoWord(s: string)
    requires s != [] && s[0] != 'n' && s[0] != 't' && s[0] != 'f'
    ensures !Starts(s, ['n', 'u', 'l', 'l']) && !Starts(s, ['t', 'r', 'u', 'e']) && !Starts(s, ['f', 'a', 'l', 's', 'e'])
  {
    assert |s| >= 4 ==> s[..4][0] == s[0];
    assert |s| >= 5 ==> s[..5][0] == s[0];
  }

  lemma NoEmptyPair(s: string, a: char, b: char)
    requires s != [] && (s[0] != a || (|s| > 1 && s[1] != b))
    ensures !Starts(s, [a, b])
  {
    assert |s| >= 2 ==> s[..2][0] == s[0] && s[..2][1] == s[1];
  }

  lemma ReadsNumberValue(n: int, r: string)
    requires Accepted(Num(n)) && Stops(r)
    ensures ReadValue(Decimal(n) + r) == Some((Num(n), r))
  {
    var s := Decimal(n) + r;
    FirstCharacter(Num(n));
    assert s[0] == Decimal(n)[0];
    NoWord(s);
    NoEmptyPair(s, '[', ']');
    NoEmptyPair(s, '{', '}');
    ReadsNumber(n, r);
  }

  lemma ReadsStringValue(t: string, r: string)
    ensures ReadValue(['\"'] + Quoted(t) + r) == Some((Str(t), r))
  {
    var s := ['\"'] + Quoted(t) + r;
    assert s[0] == '\"' && s[1..] == Quoted(t) + r;
    NoWord(s);
    ReadsString(t, r);
  }

  lemma ReadsEmpty(r: string)
    ensures ReadValue(['[', ']'] + r) == Some((Arr([]), r)) && ReadValue(['{', '}'] + r) == Some((Obj([]), r))
  {
    var s, t := ['[', ']'] + r, ['{', '}'] + r;
    assert s[0] == '[' && s[..2] == ['[', ']'] && s[2..] == r;
    assert t[0] == '{' && t[..2] == ['{', '}'] && t[2..] == r;
    NoWord(s);
    NoWord(t);
    NoEmptyPair(t, '[', ']');
  }

  /** Reading an opening bracket, or brace, hands the rest to the list reader. */
  lemma ReadsOpened(s: string)
    requires s != []
    ensures var t := ReadItems(s);
      s[0] != ']' ==> ReadValue(['['] + s) == (if t.None? then None else Some((Arr(t.value.0), t.value.1)))
    ensures var t := ReadFields(s);
      s[0] != '}' ==> ReadValue(['{'] + s) == (if t.None? then None else Some((Obj(t.value.0), t.value.1)))
  {
    var a, o := ['['] + s, ['{'] + s;
    assert a[0] == '[' && a[1] == s[0] && a[1..] == s;
    assert o[0] == '{' && o[1] == s[0] && o[1..] == s;
    NoWord(a);
    NoWord(o);
    NoEmptyPair(o, '[', ']');
    if s[0] != ']' { NoEmptyPair(a, '[', ']'); }
    if s[0] != '}' { NoEmptyPair(o, '{', '}'); }
  }

  /** A printed value that is followed by nothing, a comma or a closing bracket is read back, up to exactly there. */
  lemma {:induction false} ReadsValue(v: Json, r: string)
    requires Accepted(v) && Stops(r)
    ensures ReadValue(Print(v) + r) == Some((v, r))
    decreases v, 0
  {
    match v
    case Num(n) => ReadsNumberValue(n, r);
    case Str(s) => ReadsStringValue(s, r);
    case Arr(items) =>
      if items == [] {
        assert Print(v) == ['[', ']'];
        ReadsEmpty(r);
      } else {
        Regroup(['['], InArray(items), r);
        FirstCharacter(items[0]);
        assert (InArray(items) + r)[0] == Print(items[0])[0];
        ReadsOpened(InArray(items) + r);
        ReadsItems(items, r);
      }
    case Obj(fields) =>
      if fields == [] {
        assert Print(v) == ['{', '}'];
        ReadsEmpty(r);
      } else {
        Regroup(['{'], InObject(fields), r);
        assert (InObject(fields) + r)[0] == '\"';
        ReadsOpened(InObject(fields) + r);
        ReadsFields(fields, r);
      }
    case _ => ReadsWord(v, r);
  }

  lemma {:induction false} ReadsItems(items: seq<Json>, r: string)
    requires items != [] && Accepted(Arr(items))
    ensures ReadItems(InArray(items) + r) == Some((items, r))
    decreases items, 1
  {
    var more := MoreItems(items[1..]) + r;
    Regroup(Print(items[0]), MoreItems(items[1..]), r);
    MoreStops(items[1..], [], r);
    ReadsValue(items[0], more);
    if items[1..] == [] {
      assert more[1..] == r;
      assert items == [items[0]];
    } else {
      Regroup([','], InArray(items[1..]), r);
      MoreIsMoreItems(items[1..]);
      assert more[1..] == InArray(items[1..]) + r;
      ReadsItems(items[1..], r);
      assert items == [items[0]] + items[1..];
    }
  }

  lemma MoreIsMoreItems(items: seq<Json>)
    requires items != []
    ensures MoreItems(items) == [','] + InArray(items)
  {
    Regroup([','], Print(items[0]), MoreItems(items[1..]));
  }

  lemma {:induction false} ReadsField(f: Field, r: string)
    requires Accepted(f.value) && Stops(r)
    ensures ReadField(PrintField(f) + r) == Some((f, r))
    decreases f, 0
  {
    var x := [':'] + (Print(f.value) + r);
    FieldText(f, r);
    assert (PrintField(f) + r)[1..] == Quoted(f.key) + x;
    ReadsString(f.key, x);
    assert x[1..] == Print(f.value) + r;
    ReadsValue(f.value, r);
  }

  lemma FieldText(f: Field, r: string)
    ensures PrintField(f) + r == ['\"'] + (Quoted(f.key) + ([':'] + (Print(f.value) + r)))
  {
    Regroup(['\"'] + Quoted(f.key) + [':'], Print(f.value), r);
    Regroup(['\"'] + Quoted(f.key), [':'], Print(f.value) + r);
    Regroup(['\"'], Quoted(f.key), [':'] + (Print(f.value) + r));
  }

  lemma {:induction false} ReadsFields(fields: seq<Field>, r: string)
    requires fields != [] && Accepted(Obj(fields))
    ensures ReadFields(InObject(fields) + r) == Some((fields, r))
    decreases fields, 1
  {
    var more := MoreFields(fields[1..]) + r;
    Regroup(PrintField(fields[0]), MoreFields(fields[1..]), r);
    MoreStops([], fields[1..], r);
    ReadsField(fields[0], more);
    if fields[1..] == [] {
      assert more[1..] == r;
      assert fields == [fields[0]];
    } else {
      Regroup([','], InObject(fields[1..]), r);
      MoreIsMoreFields(fields[1..]);
      assert more[1..] == InObject(fields[1..]) + r;
      ReadsFields(fields[1..], r);
      assert fields == [fields[0]] + fields[1..];
    }
  }

  lemma MoreIsMoreFields(fields: seq<Field>)
    requires fields != []
    ensures MoreFields(fields) == [','] + InObject(fields)
  {
    Regroup([','], PrintField(fields[0]), MoreFields(fields[1..]));
  }

  // ---------------------------------------------------------------------------------------
  // UTF-8 (section 3 of RFC 3629).
  // ---------------------------------------------------------------------------------------

  type Byte = b: int | 0 <= b < 256

  function Utf8Of(c: char): (r: seq<Byte>)
    ensures r != []
  {
    var n := c as int;
    if n < 0x80 then [n]
    else if n < 0x800 then [0xC0 + n / 0x40, 0x80 + n % 0x40]
    else if n < 0x10000 then [0xE0 + n / 0x1000, 0x80 + n / 0x40 % 0x40, 0x80 + n % 0x40]
    else [0xF0 + n / 0x40000, 0x80 + n / 0x1000 % 0x40, 0x80 + n / 0x40 % 0x40, 0x80 + n % 0x40]
  }

  function Utf8(s: string): seq<Byte> {
    if s == [] then [] else Utf8Of(s[0]) + Utf8(s[1..])
  }

  /** How many bytes a character takes, by its first byte; 0 for a byte that starts none. */
  function Width(b: Byte): nat {
    if b < 0x80 then 1 else if b < 0xC0 then 0 else if b < 0xE0 then 2 else if b < 0xF0 then 3 else if b < 0xF8 then 4 else 0
  }

  /** The code point in the payload bits of a character's bytes. */
  function Payload(bs: seq<Byte>): int
    requires 1 <= |bs| <= 4
  {
    if |bs| == 1 then bs[0]
    else if |bs| == 2 then (bs[0] as int - 0xC0) * 0x40 + (bs[1] as int - 0x80)
    else if |bs| == 3 then (bs[0] as int - 0xE0) * 0x1000 + (bs[1] as int - 0x80) * 0x40 + (bs[2] as int - 0x80)
    else (bs[0] as int - 0xF0) * 0x40000 + (bs[1] as int - 0x80) * 0x1000 + (bs[2] as int - 0x80) * 0x40 + (bs[3] as int - 0x80)
  }

  /** The bytes of a character after its first. */
  predicate Continues(bs: seq<Byte>) {
    forall i | 0 <= i < |bs| :: 0x80 <= bs[i] < 0xC0
  }

  function ReadUtf8(bs: seq<Byte>): Option<string>
    decreases |bs|
  {
    if bs == [] then Some([])
    else
      var w := Width(bs[0]);
      if w == 0 || |bs| < w || !Continues(bs[1..w]) then None
      else
        var n := Payload(bs[..w]);
        var rest := ReadUtf8(bs[w..]);
        if rest.None? || !(0 <= n < 0xD800 || 0xE000 <= n < 0x110000) then None else Some([n as char] + rest.value)
  }

  lemma Sextets(n: int)
    requires n >= 0
    ensures n == n / 0x40 * 0x40 + n % 0x40
    ensures n / 0x40 == n / 0x1000 * 0x40 + n / 0x40 % 0x40
    ensures n / 0x1000 == n / 0x40000 * 0x40 + n / 0x1000 % 0x40
  {
  }

  lemma ReadsUtf8Of(c: char)
    ensures Width(Utf8Of(c)[0]) == |Utf8Of(c)| <= 4 && Payload(Utf8Of(c)) == c as int && Continues(Utf8Of(c)[1..])
  {
    Sextets(c as int);
  }

  lemma {:induction false} ReadsUtf8(s: string)
    ensures ReadUtf8(Utf8(s)) == Some(s)
  {
    if s != [] {
      var b := Utf8Of(s[0]);
      ReadsUtf8Of(s[0]);
      assert Utf8(s)[0] == b[0] && Utf8(s)[..|b|] == b && Utf8(s)[|b|..] == Utf8(s[1..]);
      assert Utf8(s)[1..|b|] == b[1..];
      ReadsUtf8(s[1..]);
      assert s == [s[0]] + s[1..];
    }
  }

  /** The value that bytes stand for, if they are exactly the text of one. */
  function Decode(bs: seq<Byte>): Option<Json> {
    var s := ReadUtf8(bs);
    if s.None? then None
    else
      var v := ReadValue(s.value);
      if v.Some? && v.value.1 == [] then Some(v.value.0) else None
  }

  /** Round trip: an accepted value is read back from its bytes. */
  lemma DecodesPrinted(v: Json)
    requires Accepted(v)
    ensures Decode(Utf8(Print(v))) == Some(v)
  {
    ReadsUtf8(Print(v));
    assert Print(v) + [] == Print(v);
    ReadsValue(v, []);
  }

  // ---------------------------------------------------------------------------------------
  // No other text of the value is shorter.
  // ---------------------------------------------------------------------------------------

  /** The length of a text in bytes. */
  function Size(s: string): nat {
    |Utf8(s)|
  }

  lemma {:induction false} SizeConcat(a: string, b: string)
    ensures Size(a + b) == Size(a) + Size(b)
  {
    if a == [] {
      assert a + b == b;
    } else {
      assert (a + b)[1..] == a[1..] + b;
      SizeConcat(a[1..], b);
    }
  }

  lemma SizeSplit(s: string, n: nat)
    requires n <= |s|
    ensures Size(s) == Size(s[..n]) + Size(s[n..])
  {
    assert s == s[..n] + s[n..];
    SizeConcat(s[..n], s[n..]);
  }

  lemma {:induction false} SizeBounds(s: string)
    ensures |s| <= Size(s) <= 4 * |s|
    ensures (forall c | c in s :: c as int < 0x80) ==> Size(s) == |s|
  {
    if s != [] {
      SizeBounds(s[1..]);
      assert s[0] in s && forall c | c in s[1..] :: c in s;
    }
  }

  lemma EscapeSize(c: char)
    ensures Size(Escape(c)) <= 6
    ensures c in ['\"', '\\', '/', 8 as char, 12 as char, 10 as char, 13 as char, 9 as char] ==> Size(Escape(c)) <= 2
    ensures c as int >= 32 && c != '\"' && c != '\\' ==> Escape(c) == [c]
  {
    SizeBounds(Escape(c));
    if |Escape(c)| == 6 {
      assert forall x | x in Escape(c) :: x as int < 0x80;
    }
  }

  lemma PrependSize(c: char, s: string)
    ensures Size(Quoted([c] + s)) == Size(Escape(c)) + Size(Quoted(s))
  {
    assert ([c] + s)[1..] == s;
    SizeConcat(Escape(c), Quoted(s));
  }

  /** One character of a string, however it is written, and the string after it. */
  lemma CharacterIsShort(s: string, n: nat, c: char)
    requires n <= |s| && Size(Escape(c)) <= Size(s[..n]) && ReadString(s[n..]).Some?
    requires var (t, x) := ReadString(s[n..]).value; Size(Quoted(t)) + Size(x) <= Size(s[n..])
    ensures var (t, x) := ReadString(s[n..]).value; Size(Quoted([c] + t)) + Size(x) <= Size(s)
  {
    SizeSplit(s, n);
    PrependSize(c, ReadString(s[n..]).value.0);
  }

  lemma EscapeIsShort(s: string)
    requires s != [] && s[0] == '\\' && ReadEscape(s).Some?
    ensures var (c, n) := ReadEscape(s).value; Size(Escape(c)) <= Size(s[..n])
  {
    var (c, n) := ReadEscape(s).value;
    SizeBounds(s[..n]);
    EscapeSize(c);
  }

  lemma {:induction false} StringIsShort(s: string)
    requires ReadString(s).Some?
    ensures Size(Quoted(ReadString(s).value.0)) + Size(ReadString(s).value.1) <= Size(s)
    decreases |s|
  {
    if s[0] == '\"' {
      SizeSplit(s, 1);
      assert s[..1] == ['\"'];
    } else if s[0] == '\\' {
      var (c, n) := ReadEscape(s).value;
      EscapeIsShort(s);
      StringIsShort(s[n..]);
      CharacterIsShort(s, n, c);
    } else {
      StringIsShort(s[1..]);
      EscapeSize(s[0]);
      assert s[..1] == [s[0]];
      CharacterIsShort(s, 1, s[0]);
    }
  }

  lemma {:induction false} NaturalIsShort(s: string)
    requires s != [] && AllDigits(s)
    ensures Value(s) >= 0 && |Natural(Value(s))| <= |s|
  {
    var n := |s| - 1;
    if n == 0 {
      assert s[..0] == [];
    } else {
      NaturalIsShort(s[..n]);
      assert IsDigit(s[n]);
    }
  }

  lemma {:induction false} NaturalSize(n: nat)
    ensures Size(Natural(n)) == |Natural(n)|
  {
    NaturalRead(n);
    SizeBounds(Natural(n));
  }

  lemma {:induction false} SpanIsDigits(s: string)
    ensures AllDigits(s[..Span(s)])
  {
    if s != [] && IsDigit(s[0]) {
      SpanIsDigits(s[1..]);
      assert s[..Span(s)] == [s[0]] + s[1..][..Span(s[1..])];
    }
  }

  lemma NumberIsShort(s: string)
    requires ReadNumber(s).Some?
    ensures Size(Print(ReadNumber(s).value.0)) + Size(ReadNumber(s).value.1) <= Size(s)
  {
    var negative := s != [] && s[0] == '-';
    var t := if negative then s[1..] else s;
    var n := Span(t);
    SpanIsDigits(t);
    NaturalIsShort(t[..n]);
    NaturalSize(Value(t[..n]));
    SizeSplit(t, n);
    SizeBounds(t[..n]);
    if negative {
      SizeSplit(s, 1);
      assert s[..1] == ['-'];
      SizeConcat(['-'], Natural(Value(t[..n])));
    }
  }

  /** A text that begins with the whole text of a value. */
  lemma WordIsShort(s: string, v: Json, rest: string)
    requires Starts(s, Print(v)) && rest == s[|Print(v)|..]
    ensures Size(Print(v)) + Size(rest) == Size(s)
  {
    SizeSplit(s, |Print(v)|);
  }

  lemma OpenedSize(s: string, first: char, inner: string, rest: string)
    requires s != [] && s[0] == first && Size(inner) + Size(rest) <= Size(s[1..])
    ensures Size([first] + inner) + Size(rest) <= Size(s)
  {
    SizeSplit(s, 1);
    assert s[..1] == [first];
    SizeConcat([first], inner);
  }

  lemma {:induction false} ArrayIsShort(s: string)
    requires ReadValue(s).Some? && ReadValue(s).value.0.Arr?
    ensures Size(Print(ReadValue(s).value.0)) + Size(ReadValue(s).value.1) <= Size(s)
    decreases |s|, 0
  {
    var (v, rest) := ReadValue(s).value;
    if v.items == [] {
      EmptyIsShort(s);
    } else {
      ItemsAreShort(s[1..]);
      OpenedSize(s, '[', InArray(v.items), rest);
    }
  }

  lemma {:induction false} ObjectIsShort(s: string)
    requires ReadValue(s).Some? && ReadValue(s).value.0.Obj?
    ensures Size(Print(ReadValue(s).value.0)) + Size(ReadValue(s).value.1) <= Size(s)
    decreases |s|, 0
  {
    var (v, rest) := ReadValue(s).value;
    if v.fields == [] {
      EmptyIsShort(s);
    } else {
      FieldsAreShort(s[1..]);
      OpenedSize(s, '{', InObject(v.fields), rest);
    }
  }

  /** Whatever text the reader takes for a value, the printed one is no longer, in bytes. */
  lemma {:induction false} ValueIsShort(s: string)
    requires ReadValue(s).Some?
    ensures Size(Print(ReadValue(s).value.0)) + Size(ReadValue(s).value.1) <= Size(s)
    decreases |s|, 1
  {
    var (v, rest) := ReadValue(s).value;
    match v
    case Null => WordIsShort(s, v, rest);
    case Bool(_) => WordIsShort(s, v, rest);
    case Str(t) =>
      StringIsShort(s[1..]);
      OpenedSize(s, '\"', Quoted(t), rest);
    case Arr(_) => ArrayIsShort(s);
    case Obj(_) => ObjectIsShort(s);
    case _ => NumberIsShort(s);
  }

  lemma EmptyIsShort(s: string)
    requires ReadValue(s).Some? && (ReadValue(s).value.0 == Arr([]) || ReadValue(s).value.0 == Obj([]))
    ensures Size(Print(ReadValue(s).value.0)) + Size(ReadValue(s).value.1) <= Size(s)
  {
    var (v, rest) := ReadValue(s).value;
    assert Print(v) == if v.Arr? then ['[', ']'] else ['{', '}'];
    WordIsShort(s, v, rest);
  }

  lemma {:induction false} ItemsAreShort(s: string)
    requires ReadItems(s).Some?
    ensures ReadItems(s).value.0 != []
    ensures Size(InArray(ReadItems(s).value.0)) + Size(ReadItems(s).value.1) <= Size(s)
    decreases |s|, 2
  {
    var (v, rest) := ReadValue(s).value;
    ValueIsShort(s);
    SizeSplit(rest, 1);
    assert rest[..1] == [rest[0]];
    if rest[0] == ']' {
      SizeConcat(Print(v), [']']);
      assert InArray([v]) == Print(v) + [']'];
    } else {
      ItemsAreShort(rest[1..]);
      var more := ReadItems(rest[1..]).value.0;
      MoreIsMoreItems(more);
      SizeConcat([','], InArray(more));
      SizeConcat(Print(v), MoreItems(more));
      assert ([v] + more)[1..] == more;
    }
  }

  lemma {:induction false} FieldIsShort(s: string)
    requires ReadField(s).Some?
    ensures Size(PrintField(ReadField(s).value.0)) + Size(ReadField(s).value.1) <= Size(s)
    decreases |s|, 2
  {
    var (key, rest) := ReadString(s[1..]).value;
    var v := ReadValue(rest[1..]).value.0;
    SizeSplit(s, 1);
    assert s[..1] == ['\"'];
    StringIsShort(s[1..]);
    SizeSplit(rest, 1);
    assert rest[..1] == [':'];
    ValueIsShort(rest[1..]);
    SizeConcat(['\"'], Quoted(key));
    SizeConcat(['\"'] + Quoted(key), [':']);
    SizeConcat(['\"'] + Quoted(key) + [':'], Print(v));
  }

  lemma {:induction false} FieldsAreShort(s: string)
    requires ReadFields(s).Some?
    ensures ReadFields(s).value.0 != []
    ensures Size(InObject(ReadFields(s).value.0)) + Size(ReadFields(s).value.1) <= Size(s)
    decreases |s|, 3
  {
    var (f, rest) := ReadField(s).value;
    FieldIsShort(s);
    SizeSplit(rest, 1);
    assert rest[..1] == [rest[0]];
    if rest[0] == '}' {
      SizeConcat(PrintField(f), ['}']);
      assert InObject([f]) == PrintField(f) + ['}'];
    } else {
      FieldsAreShort(rest[1..]);
      var more := ReadFields(rest[1..]).value.0;
      MoreIsMoreFields(more);
      SizeConcat([','], InObject(more));
      SizeConcat(PrintField(f), MoreFields(more));
      assert ([f] + more)[1..] == more;
    }
  }

  lemma WidthIsEnough(bs: seq<Byte>)
    requires bs != [] && Width(bs[0]) == |bs| && Continues(bs[1..])
    requires 0 <= Payload(bs) < 0xD800 || 0xE000 <= Payload(bs) < 0x110000
    ensures |Utf8Of(Payload(bs) as char)| <= |bs|
  {
    assert forall i | 1 <= i < |bs| :: bs[i] == bs[1..][i - 1];
  }

  lemma {:induction false} Utf8IsShort(bs: seq<Byte>)
    requires ReadUtf8(bs).Some?
    ensures Size(ReadUtf8(bs).value) <= |bs|
    decreases |bs|
  {
    if bs != [] {
      var w := Width(bs[0]);
      assert bs[..w][1..] == bs[1..w];
      WidthIsEnough(bs[..w]);
      Utf8IsShort(bs[w..]);
      var rest := ReadUtf8(bs[w..]).value;
      var c := Payload(bs[..w]) as char;
      assert ([c] + rest)[1..] == rest;
    }
  }

  /** The printed bytes of a value are the shortest that decode to it: no escape that is not needed, no spelling of a number but one. */
  lemma PrintedIsShortest(bs: seq<Byte>)
    requires Decode(bs).Some?
    ensures |Utf8(Print(Decode(bs).value))| <= |bs|
  {
    Utf8IsShort(bs);
    ValueIsShort(ReadUtf8(bs).value);
  }

  /** Where an escape needs hexadecimal digits they are in lower case. */
  lemma HexIsLower(c: char, i: nat)
    requires |Escape(c)| == 6 && 2 <= i < 6
    ensures IsDigit(Escape(c)[i]) || 'a' <= Escape(c)[i] <= 'f'
  {
  }
}
