/**
 * The PHP values the service works on: what `json_decode` (without the assoc flag)
 * produces, and the PHP operators the classifiers apply to them — property access,
 * `isset`, `empty`, `foreach`, the `(int)` and `(string)` casts, `strtolower` and the
 * `substr` that strips the "Service" suffix from a class name.
 */
module PhpValues {
  import opened Wrappers

  /** A decoded JSON value. An object keeps its properties in declaration order. */
  datatype Json =
    | Null
    | Bool(b: bool)
    | Int(i: int)
    | Str(s: string)
    | Arr(items: seq<Json>)
    | Obj(props: seq<(string, Json)>)

  /** `$v->name`: the named property of an object, null for a missing one or a non-object. */
  function Prop(v: Json, name: string): (r: Json)
    ensures !v.Obj? ==> r == Null
    ensures r != Null ==> v.Obj? && exists i :: 0 <= i < |v.props| && v.props[i] == (name, r)
  {
    if v.Obj? then Lookup(v.props, name) else Null
  }

  function Lookup(props: seq<(string, Json)>, name: string): (r: Json)
    ensures r != Null ==> exists i :: 0 <= i < |props| && props[i] == (name, r)
    ensures (forall i :: 0 <= i < |props| ==> props[i].0 != name) ==> r == Null
  {
    if props == [] then Null
    else if props[0].0 == name then props[0].1
    else Lookup(props[1..], name)
  }

  /** `$v->a->b->...`, following each name in turn. */
  function Path(v: Json, names: seq<string>): Json
    decreases |names|
  {
    if names == [] then v else Path(Prop(v, names[0]), names[1..])
  }

  /** Following names from a missing value stays missing. */
  lemma {:induction false} PathFromNull(names: seq<string>)
    ensures Path(Null, names) == Null
    decreases |names|
  {
    if names != [] {
      PathFromNull(names[1..]);
    }
  }

  /** PHP `isset`: the value exists and is not null. */
  predicate IsSet(v: Json) {
    !v.Null?
  }

  /** PHP `empty`: null, false, 0, "", "0" and the empty array; an object is never empty. */
  predicate Empty(v: Json) {
    match v
    case Null => true
    case Bool(b) => !b
    case Int(i) => i == 0
    case Str(s) => s == "" || s == "0"
    case Arr(items) => items == []
    case Obj(_) => false
  }

  /** The values a `foreach` visits: the items of an array, the property values of an
      object, nothing for a scalar (PHP warns and skips the loop). */
  function Elements(v: Json): (r: seq<Json>)
    ensures v.Arr? ==> r == v.items
    ensures v.Obj? ==> |r| == |v.props| && forall i :: 0 <= i < |r| ==> r[i] == v.props[i].1
    ensures !v.Arr? && !v.Obj? ==> r == []
  {
    match v
    case Arr(items) => items
    case Obj(props) => seq(|props|, i requires 0 <= i < |props| => props[i].1)
    case _ => []
  }

  // ---------------------------------------------------------------- decimal numerals

  predicate IsDigit(c: char) {
    '0' <= c <= '9'
  }

  function DigitChar(d: nat): (c: char)
    requires d < 10
    ensures IsDigit(c)
  {
    "0123456789"[d]
  }

  function DigitValue(c: char): (d: nat)
    requires IsDigit(c)
    ensures d < 10
  {
    (c as int - '0' as int) as nat
  }

  predicate AllDigits(s: string) {
    forall i :: 0 <= i < |s| ==> IsDigit(s[i])
  }

  /** The decimal numeral of `n` (PHP's `%d` and `(string)` of a non-negative int). */
  function Decimal(n: nat): (s: string)
    decreases n
  {
    if n < 10 then [DigitChar(n)] else Decimal(n / 10) + [DigitChar(n % 10)]
  }

  /** The value of a string of digits, most significant first. */
  function DigitsValue(s: string): nat
    requires AllDigits(s)
    decreases |s|
  {
    if s == [] then 0 else DigitsValue(s[..|s| - 1]) * 10 + DigitValue(s[|s| - 1])
  }

  /** A numeral is read back as its number: only digits, never empty, no leading zero. */
  lemma {:induction false} DecimalRoundTrip(n: nat)
    ensures |Decimal(n)| > 0 && AllDigits(Decimal(n))
    ensures Decimal(n)[0] == '0' ==> n == 0
    ensures DigitsValue(Decimal(n)) == n
    decreases n
  {
    if n >= 10 {
      DecimalRoundTrip(n / 10);
      var s := Decimal(n);
      assert s[..|s| - 1] == Decimal(n / 10);
    }
  }

  /** `(string) $i` for any int. */
  function IntToString(i: int): string {
    if i < 0 then "-" + Decimal(-i) else Decimal(i)
  }

  /** The longest prefix of `s` made of digits. */
  function LeadingDigits(s: string): (r: string)
    ensures |r| <= |s| && r == s[..|r|] && AllDigits(r)
    ensures |r| < |s| ==> !IsDigit(s[|r|])
  {
    if s != [] && IsDigit(s[0]) then [s[0]] + LeadingDigits(s[1..]) else []
  }

  lemma {:induction false} LeadingDigitsOfDigits(s: string, rest: string)
    requires AllDigits(s)
    requires rest == [] || !IsDigit(rest[0])
    ensures LeadingDigits(s + rest) == s
    decreases |s|
  {
    if s != [] {
      assert (s + rest)[1..] == s[1..] + rest;
      LeadingDigitsOfDigits(s[1..], rest);
    } else {
      assert s + rest == rest;
    }
  }

  /** `(int) $s`: an optional sign followed by the leading decimal digits; 0 when there are none. */
  function StringToInt(s: string): int {
    if s != [] && (s[0] == '-' || s[0] == '+') then
      var m: int := DigitsValue(LeadingDigits(s[1..]));
      if s[0] == '-' then -m else m
    else
      DigitsValue(LeadingDigits(s))
  }

  /** Casting an int to string and back gives the int. */
  lemma IntStringRoundTrip(i: int)
    ensures StringToInt(IntToString(i)) == i
  {
    var n: nat := if i < 0 then -i else i;
    DecimalRoundTrip(n);
    LeadingDigitsOfDigits(Decimal(n), []);
    assert Decimal(n) + [] == Decimal(n);
    if i < 0 {
      assert IntToString(i)[1..] == Decimal(n);
    } else {
      assert IntToString(i) == Decimal(n);
    }
  }

  /** PHP `(int)` of a decoded value (an object converts to 1, with a notice). */
  function ToInt(v: Json): int {
    match v
    case Null => 0
    case Bool(b) => if b then 1 else 0
    case Int(i) => i
    case Str(s) => StringToInt(s)
    case Arr(items) => if items == [] then 0 else 1
    case Obj(_) => 1
  }

  /** PHP `(string)` of a decoded value; None where an object cannot be converted to a
      string (a recoverable fatal error in PHP 7, a thrown Error in PHP 8). */
  function ToStr(v: Json): (r: Option<string>)
    ensures r.None? <==> v.Obj?
    ensures v.Str? ==> r == Some(v.s)
    ensures v.Int? ==> r.Some? && StringToInt(r.value) == v.i
  {
    match v
    case Null => Some("")
    case Bool(b) => Some(if b then "1" else "")
    case Int(i) => IntStringRoundTrip(i); Some(IntToString(i))
    case Str(s) => Some(s)
    case Arr(_) => Some("Array")
    case Obj(_) => None
  }

  // ---------------------------------------------------------------- strings

  function LowerChar(c: char): char {
    if 'A' <= c <= 'Z' then (c as int + 32) as char else c
  }

  /** `strtolower`, on ASCII letters. */
  function LowerAscii(s: string): (r: string)
    ensures |r| == |s|
    ensures forall i :: 0 <= i < |s| ==> r[i] == LowerChar(s[i])
  {
    seq(|s|, i requires 0 <= i < |s| => LowerChar(s[i]))
  }

  /** PHP `substr($s, 0, $length)`. A negative length omits that many characters from the
      end; when that omits all of them nothing is left (PHP 8 gives "", PHP 7 gives false,
      which every caller here casts to ""). */
  function PrefixSubstr(s: string, length: int): (r: string)
    ensures |r| <= |s| && r == s[..|r|]
    ensures length >= 0 ==> |r| == if length <= |s| then length else |s|
    ensures length < 0 ==> |r| == if |s| + length >= 0 then |s| + length else 0
  {
    if length >= 0 then (if length <= |s| then s[..length] else s)
    else if |s| + length >= 0 then s[..|s| + length] else ""
  }

  /** `substr($name, 0, strlen($name) - 7)`: a class short name without its last seven
      characters ("Service"). A name of 4 to 6 characters gets a negative length and keeps
      its first 2 * |name| - 7 characters; a name of at most 3 characters gives "". */
  function Stem(shortName: string): (r: string)
    ensures |r| <= |shortName| && r == shortName[..|r|]
    ensures |shortName| >= 7 ==> shortName == r + shortName[|shortName| - 7..]
    ensures |r| == if |shortName| >= 7 then |shortName| - 7
                   else if 2 * |shortName| >= 7 then 2 * |shortName| - 7
                   else 0
  {
    PrefixSubstr(shortName, |shortName| - 7)
  }

  /** A service class named `<name>Service` has the stem `<name>`. */
  lemma StemOfServiceName(name: string)
    ensures Stem(name + "Service") == name
  {
    var full := name + "Service";
    assert full[..|name|] == name;
  }

  /** Short names under seven characters: a negative length trims fewer characters. */
  lemma ShortNameStems()
    ensures Stem("Abcdef") == "Abcde" && Stem("Abcd") == "A" && Stem("Abc") == ""
  {
    assert "Abcdef"[..5] == "Abcde";
    assert "Abcd"[..1] == "A";
  }
}
