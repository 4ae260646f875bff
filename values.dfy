/** Python-level values and text helpers shared by every part of the model.

    The resources of the module exchange loosely typed dictionaries (the output
    of `struct_to_dict`, the dicts built for discovered objects and readings).
    `Value` is the subset of Python values that occurs there, and `Dict` a
    Python dict from string keys to such values. */
module Values {

  datatype Option<+T> = None | Some(value: T)

  datatype Result<+T, +E> = Ok(value: T) | Err(error: E)

  /** The outcome of one call into the BACnet library: it raised, or it returned a value. */
  datatype Reply<+T> = Failed | Got(value: T)

  datatype Value =
    | Null
    | Bool(b: bool)
    | Int(i: int)
    | Real(r: real)
    | Text(s: string)
    | Items(items: seq<Value>)
    | Record(fields: map<string, Value>)

  type Dict = map<string, Value>

  /** A value as a Python dict key: values that compare equal (`True`, `1` and `1.0`; equal
      strings) have the same key. */
  datatype Key = NoneKey | NumberKey(n: real) | TextKey(s: string)

  /** The key a value is stored under in a Python dict; None for a list or dict, which are not
      hashable. */
  function HashKey(v: Value): (k: Option<Key>)
    ensures k.None? <==> v.Items? || v.Record?
  {
    match v
    case Null => Some(NoneKey)
    case Bool(b) => Some(NumberKey(if b then 1.0 else 0.0))
    case Int(i) => Some(NumberKey(i as real))
    case Real(r) => Some(NumberKey(r))
    case Text(s) => Some(TextKey(s))
    case Items(_) => None
    case Record(_) => None
  }

  /** `d.get(key, default)` */
  function Get(d: Dict, key: string, default: Value): (v: Value)
    ensures key in d ==> v == d[key]
    ensures key !in d ==> v == default
  {
    if key in d then d[key] else default
  }

  /** `str(d.get(key, default))` */
  function GetText(d: Dict, key: string, default: Value): string
  {
    Str(Get(d, key, default))
  }

  /** Python truthiness (`not v` is `!Truthy(v)`). */
  predicate Truthy(v: Value)
  {
    match v
    case Null => false
    case Bool(b) => b
    case Int(i) => i != 0
    case Real(r) => r != 0.0
    case Text(s) => s != []
    case Items(xs) => xs != []
    case Record(m) => m != map[]
  }

  predicate IsDigit(c: char)
  {
    '0' <= c <= '9'
  }

  function DigitChar(d: nat): (c: char)
    requires d < 16
    ensures d < 10 ==> IsDigit(c)
  {
    "0123456789abcdef"[d]
  }

  /** The value of `c` as a digit of base 10 or 16 (either letter case), if it is one. */
  function DigitValue(c: char): (d: Option<nat>)
    ensures d.Some? ==> d.value < 16
    ensures d.Some? && d.value < 10 <==> IsDigit(c)
  {
    if '0' <= c <= '9' then Some(c as int - '0' as int)
    else if 'a' <= c <= 'f' then Some(c as int - 'a' as int + 10)
    else if 'A' <= c <= 'F' then Some(c as int - 'A' as int + 10)
    else None
  }

  lemma DigitValueOfDigitChar(d: nat)
    requires d < 16
    ensures DigitValue(DigitChar(d)) == Some(d)
  {
  }

  /** `n` written in `base` (10 or 16), most significant digit first, lower case, no prefix. */
  function NatText(n: nat, base: nat): (s: string)
    requires base == 10 || base == 16
    ensures |s| >= 1
    decreases n
  {
    if n < base then [DigitChar(n)] else NatText(n / base, base) + [DigitChar(n % base)]
  }

  /** `str(n)` for a Python int. */
  function IntText(i: int): string
  {
    if i < 0 then "-" + NatText(-i, 10) else NatText(i, 10)
  }

  /** `str(v)` for None, booleans, ints, strings and integral floats below 10**16 in magnitude;
      other floats, lists and dicts give a placeholder. */
  function Str(v: Value): string
  {
    match v
    case Null => "None"
    case Bool(b) => if b then "True" else "False"
    case Int(i) => IntText(i)
    case Real(r) => if r == r.Floor as real && -1.0e16 < r < 1.0e16 then IntText(r.Floor) + ".0" else "<float>"
    case Text(s) => s
    case Items(_) => "<list>"
    case Record(_) => "<dict>"
  }

  /** `str(ns)` for a Python list of ints: `[1, 2]`, `[]`. */
  function ListText(ns: seq<int>): string
  {
    "[" + JoinInts(ns) + "]"
  }

  function JoinInts(ns: seq<int>): string
  {
    if ns == [] then ""
    else if |ns| == 1 then IntText(ns[0])
    else IntText(ns[0]) + ", " + JoinInts(ns[1..])
  }

  predicate StartsWith(s: string, prefix: string)
  {
    |prefix| <= |s| && s[..|prefix|] == prefix
  }

  /** Python's `sub in s` for strings. */
  predicate Contains(s: string, sub: string)
  {
    exists i :: 0 <= i <= |s| - |sub| && OccursAt(s, sub, i)
  }

  predicate OccursAt(s: string, sub: string, i: int)
  {
    0 <= i <= |s| - |sub| && s[i..i + |sub|] == sub
  }

  /** `list(v)` for the attribute values a configuration can hold: a list gives its items and
      a string its characters; None, booleans and numbers are not iterable. A dict would give
      its keys in insertion order, which `Dict` does not keep, so it is refused here too. */
  function ListOf(v: Value): (r: Option<seq<Value>>)
    ensures v.Items? ==> r == Some(v.items)
    ensures v.Text? ==> r.Some? && |r.value| == |v.s| && forall i :: 0 <= i < |v.s| ==> r.value[i] == Text([v.s[i]])
    ensures v.Null? || v.Bool? || v.Int? || v.Real? || v.Record? ==> r.None?
  {
    match v
    case Items(xs) => Some(xs)
    case Text(s) => Some(seq(|s|, i requires 0 <= i < |s| => Text([s[i]])))
    case _ => None
  }

  /** `int(v)` truncates a float toward zero. */
  function Truncate(r: real): (i: int)
    ensures 0.0 <= r ==> i as real <= r < i as real + 1.0
    ensures r < 0.0 ==> i as real - 1.0 < r <= i as real
  {
    if r >= 0.0 then r.Floor else -((-r).Floor)
  }

  /** Python's `int(v)`: None when it raises (None, containers, text that is not a decimal integer). */
  function IntOf(v: Value): (r: Option<int>)
    ensures v.Int? ==> r == Some(v.i)
    ensures v.Null? || v.Items? || v.Record? ==> r.None?
  {
    match v
    case Null => None
    case Bool(b) => Some(if b then 1 else 0)
    case Int(i) => Some(i)
    case Real(r) => Some(Truncate(r))
    case Text(s) => ParseInt(s, 10)
    case Items(_) => None
    case Record(_) => None
  }

  /** The value of a non-empty run of digits, all below `base`; None if a character is not one. */
  function DigitsValue(s: string, base: nat): (r: Option<nat>)
    requires base == 10 || base == 16
    ensures r.Some? <==> forall k :: 0 <= k < |s| ==> DigitValue(s[k]).Some? && DigitValue(s[k]).value < base
    decreases |s|
  {
    if s == [] then Some(0)
    else
      var last := DigitValue(s[|s| - 1]);
      var init := DigitsValue(s[..|s| - 1], base);
      if last.None? || last.value >= base || init.None? then None
      else Some(init.value * base + last.value)
  }

  /** The C white space that `int()` and `float()` skip around a number: space, tab, the line
      and form feeds and carriage return. `str.isspace()` accepts more (the information
      separators U+001C..U+001F among them), but those make `int()` raise. */
  predicate IsSpace(c: char)
  {
    c == ' ' || c == '\t' || c == '\n' || c == '\r' || c == '\U{B}' || c == '\U{C}'
  }

  function StripStart(s: string): (t: string)
    ensures |t| <= |s| && (t != [] ==> !IsSpace(t[0]))
    decreases |s|
  {
    if s != [] && IsSpace(s[0]) then StripStart(s[1..]) else s
  }

  function StripEnd(s: string): (t: string)
    ensures |t| <= |s| && (t != [] ==> !IsSpace(t[|t| - 1]))
    decreases |s|
  {
    if s != [] && IsSpace(s[|s| - 1]) then StripEnd(s[..|s| - 1]) else s
  }

  /** The text without its leading and trailing white space. */
  function Strip(s: string): string
  {
    StripEnd(StripStart(s))
  }

  /** The text after an optional leading sign. */
  function Unsigned(s: string): string
  {
    if |s| >= 1 && (s[0] == '-' || s[0] == '+') then s[1..] else s
  }

  predicate HasHexPrefix(s: string, base: nat)
  {
    base == 16 && |s| >= 2 && s[0] == '0' && (s[1] == 'x' || s[1] == 'X')
  }

  /** For base 16, the text after an optional `0x`/`0X` prefix and the one `_` that may follow it. */
  function Unprefixed(s: string, base: nat): string
  {
    if HasHexPrefix(s, base) then (if |s| >= 3 && s[2] == '_' then s[3..] else s[2..]) else s
  }

  /** Underscores only between two other characters, never two in a row. */
  predicate Grouped(s: string)
  {
    forall i :: 0 <= i < |s| && s[i] == '_' ==> 0 < i < |s| - 1 && s[i + 1] != '_'
  }

  /** The text with its underscores removed. */
  function Ungrouped(s: string): (t: string)
    ensures '_' !in s ==> t == s
    decreases |s|
  {
    if s == [] then []
    else (if s[0] == '_' then [] else [s[0]]) + Ungrouped(s[1..])
  }

  /** Python's `int(s, base)` for base 10 and 16: surrounding white space, an optional sign, for
      base 16 an optional `0x`/`0X` prefix (which may be followed by one `_`), then digits of the
      base with single underscores allowed between them. */
  function ParseInt(s: string, base: nat): (r: Option<int>)
    requires base == 10 || base == 16
    ensures r.Some? ==> Strip(s) != []
  {
    var t := Strip(s);
    var body := Unprefixed(Unsigned(t), base);
    if body == [] || !Grouped(body) then None
    else match DigitsValue(Ungrouped(body), base)
      case None => None
      case Some(n) =>
        var v: int := if t[0] == '-' then -(n as int) else n;
        Some(v)
  }

  lemma DigitsValueSnoc(p: string, c: char, base: nat)
    requires base == 10 || base == 16
    ensures var d := DigitValue(c);
      DigitsValue(p + [c], base) ==
        if d.None? || d.value >= base || DigitsValue(p, base).None? then None
        else Some(DigitsValue(p, base).value * base + d.value)
  {
    assert (p + [c])[..|p|] == p;
  }

  lemma DivMod(n: nat, base: nat)
    requires base == 10 || base == 16
    ensures n == (n / base) * base + n % base
    ensures n % base < base
    ensures n >= base ==> n / base < n
  {
  }

  lemma SingleDigit(n: nat, base: nat)
    requires base == 10 || base == 16
    requires n < base
    ensures DigitsValue(NatText(n, base), base) == Some(n)
  {
    var c := DigitChar(n);
    assert NatText(n, base) == [] + [c];
    DigitValueOfDigitChar(n);
    assert DigitsValue([], base) == Some(0);
    SnocDigit([], c, base, 0, n);
  }

  /** The last digit of a number of two or more digits is its remainder. */
  lemma NatTextStep(n: nat, base: nat)
    requires base == 10 || base == 16
    requires n >= base
    ensures NatText(n, base) == NatText(n / base, base) + [DigitChar(n % base)]
    ensures n == (n / base) * base + n % base && n % base < base && n / base < n
  {
    DivMod(n, base);
  }

  lemma SnocDigit(p: string, c: char, base: nat, v: nat, d: nat)
    requires base == 10 || base == 16
    requires DigitsValue(p, base) == Some(v) && DigitValue(c) == Some(d) && d < base
    ensures DigitsValue(p + [c], base) == Some(v * base + d)
  {
    DigitsValueSnoc(p, c, base);
  }

  lemma {:induction false} DigitsValueOfNatText(n: nat, base: nat)
    requires base == 10 || base == 16
    ensures DigitsValue(NatText(n, base), base) == Some(n)
    decreases n
  {
    if n < base {
      SingleDigit(n, base);
    } else {
      var q, d := n / base, n % base;
      NatTextStep(n, base);
      DigitsValueOfNatText(q, base);
      DigitValueOfDigitChar(d);
      SnocDigit(NatText(q, base), DigitChar(d), base, q, d);
    }
  }

  /** `int(hex(n), 16) == n`: the hexadecimal digits of `n` behind a `0x` prefix, as `hex()`
      writes them, parse back to `n`. */
  lemma ParseIntOfPrefixedHex(n: nat)
    ensures ParseInt("0x" + NatText(n, 16), 16) == Some(n)
  {
    var hex := NatText(n, 16);
    DigitsValueOfNatText(n, 16);
    DigitsHaveNoUnderscore(hex, 16);
    assert DigitValue(hex[|hex| - 1]).Some?;
    HexLiteral(hex);
    ParseIntOfUnsigned("0x" + hex, 16, n);
  }

  /** `"0x" + hex` needs no stripping, has no sign, and its digits are `hex`. */
  lemma HexLiteral(hex: string)
    requires hex != [] && hex[0] != '_' && DigitValue(hex[|hex| - 1]).Some?
    ensures var s := "0x" + hex;
      Strip(s) == s && s[0] != '-' && Unprefixed(Unsigned(s), 16) == hex
  {
    var s := "0x" + hex;
    assert s[|s| - 1] == hex[|hex| - 1];
    Unpadded(s);
    assert Unsigned(s) == s;
  }

  /** Text that, once stripped, has no minus sign and whose digits are grouped and worth `n`,
      is read as `n`. */
  lemma ParseIntOfUnsigned(s: string, base: nat, n: nat)
    requires base == 10 || base == 16
    requires Strip(s) != [] && Strip(s)[0] != '-'
    requires var body := Unprefixed(Unsigned(Strip(s)), base);
      body != [] && Grouped(body) && DigitsValue(Ungrouped(body), base) == Some(n)
    ensures ParseInt(s, base) == Some(n)
  {
  }

  /** The same for text whose stripped form starts with a minus sign: it is read as `-n`. */
  lemma ParseIntOfNegative(s: string, base: nat, n: nat)
    requires base == 10 || base == 16
    requires Strip(s) != [] && Strip(s)[0] == '-'
    requires var body := Unprefixed(Unsigned(Strip(s)), base);
      body != [] && Grouped(body) && DigitsValue(Ungrouped(body), base) == Some(n)
    ensures ParseInt(s, base) == Some(-(n as int))
  {
  }

  /** Text that neither starts nor ends with white space is left as it is by `strip()`. */
  lemma Unpadded(s: string)
    requires s != [] ==> !IsSpace(s[0]) && !IsSpace(s[|s| - 1])
    ensures Strip(s) == s
  {
  }

  /** A run of digits holds no underscore, so it is grouped and is its own ungrouped form. */
  lemma DigitsHaveNoUnderscore(s: string, base: nat)
    requires base == 10 || base == 16
    requires DigitsValue(s, base).Some?
    ensures '_' !in s && Grouped(s) && Ungrouped(s) == s
  {
  }

  /** The digits `1f` are worth 31. */
  lemma HexDigits1f()
    ensures DigitsValue("1f", 16) == Some(31) && Grouped("1f") && Ungrouped("1f") == "1f"
  {
    assert "1f"[..1] == "1" && "1"[..0] == [];
    DigitsHaveNoUnderscore("1f", 16);
  }

  /** `int()` strips the C white space around the text, and no other character: an
      information separator, which `str.isspace()` accepts, makes it raise. */
  lemma PaddedHexAccepted()
    ensures ParseInt(" 1f", 16) == Some(31)
    ensures ParseInt("0x1f\n", 16) == Some(31)
    ensures ParseInt("\U{1C}1f", 16).None?
  {
    HexDigits1f();
    assert Strip(" 1f") == "1f" by {
      assert " 1f"[1..] == "1f";
    }
    ParseIntOfUnsigned(" 1f", 16, 31);
    TrailingSpaceStripped();
    SeparatorNotStripped();
  }

  lemma SeparatorNotStripped()
    ensures ParseInt("\U{1C}1f", 16).None?
  {
    SeparatorLiteral();
    ParseIntOfBadDigits("\U{1C}1f", 16);
  }

  lemma SeparatorLiteral()
    ensures Strip("\U{1C}1f") == "\U{1C}1f"
    ensures Unprefixed(Unsigned("\U{1C}1f"), 16) == "\U{1C}1f"
    ensures Grouped("\U{1C}1f") && Ungrouped("\U{1C}1f") == "\U{1C}1f"
    ensures DigitsValue("\U{1C}1f", 16).None?
  {
    Unpadded("\U{1C}1f");
    assert DigitValue("\U{1C}1f"[0]).None?;
    assert '_' !in "\U{1C}1f";
  }

  /** Unsigned text whose body is grouped but holds a character that is not a digit of the
      base is refused. */
  lemma ParseIntOfBadDigits(s: string, base: nat)
    requires base == 10 || base == 16
    requires Strip(s) == s && s != []
    requires Grouped(Unprefixed(Unsigned(s), base))
    requires DigitsValue(Ungrouped(Unprefixed(Unsigned(s), base)), base).None?
    ensures ParseInt(s, base).None?
  {
  }

  lemma TrailingSpaceStripped()
    ensures ParseInt("0x1f\n", 16) == Some(31)
  {
    HexDigits1f();
    assert Strip("0x1f\n") == "0x1f" by {
      assert "0x1f\n"[..4] == "0x1f";
    }
    assert Unprefixed(Unsigned("0x1f"), 16) == "1f" by {
      assert "0x1f"[2..] == "1f";
    }
    ParseIntOfUnsigned("0x1f\n", 16, 31);
  }

  /** `int()` accepts one underscore between digits and one right after the `0x` prefix. */
  lemma GroupedHexAccepted()
    ensures ParseInt("1_f", 16) == Some(31)
    ensures ParseInt("-0x_1f", 16) == Some(-31)
  {
    UnderscoreBetweenDigits();
    NegativeGroupedHex();
  }

  lemma UnderscoreBetweenDigits()
    ensures ParseInt("1_f", 16) == Some(31)
  {
    HexDigits1f();
    OneUnderscoreF();
    ParseIntOfParts("1_f", "1_f", "1f", 16, 31);
  }

  lemma OneUnderscoreF()
    ensures Strip("1_f") == "1_f" && "1_f" != [] && "1_f"[0] != '-'
    ensures Unprefixed(Unsigned("1_f"), 16) == "1_f"
    ensures Grouped("1_f") && Ungrouped("1_f") == "1f"
  {
    Unpadded("1_f");
    assert "1_f"[1..] == "_f" && "_f"[1..] == "f" && "f"[1..] == [];
  }

  /** Unsigned text whose body groups the digits of `n` is read as `n`. */
  lemma ParseIntOfParts(s: string, body: string, digits: string, base: nat, n: nat)
    requires base == 10 || base == 16
    requires Strip(s) == s && s != [] && s[0] != '-'
    requires Unprefixed(Unsigned(s), base) == body && body != [] && Grouped(body)
    requires Ungrouped(body) == digits && DigitsValue(digits, base) == Some(n)
    ensures ParseInt(s, base) == Some(n)
  {
    ParseIntOfUnsigned(s, base, n);
  }

  lemma NegativeGroupedHex()
    ensures ParseInt("-0x_1f", 16) == Some(-31)
  {
    HexDigits1f();
    Unpadded("-0x_1f");
    assert Unprefixed(Unsigned("-0x_1f"), 16) == "1f" by {
      assert "-0x_1f"[1..] == "0x_1f" && "0x_1f"[3..] == "1f";
    }
    ParseIntOfNegative("-0x_1f", 16, 31);
  }

  /** `int()` refuses an underscore that leads, trails or doubles, and text without digits. */
  lemma MisgroupedHexRefused()
    ensures ParseInt("_1f", 16).None? && ParseInt("1__f", 16).None? && ParseInt("1f_", 16).None?
    ensures ParseInt("0x", 16).None? && ParseInt(" ", 10).None?
  {
    MisplacedUnderscores();
    NoDigits();
  }

  lemma MisplacedUnderscores()
    ensures ParseInt("_1f", 16).None? && ParseInt("1__f", 16).None? && ParseInt("1f_", 16).None?
  {
    Unpadded("_1f");
    assert !Grouped("_1f") by { assert "_1f"[0] == '_'; }
    Unpadded("1__f");
    assert !Grouped("1__f") by { assert "1__f"[1] == '_' && "1__f"[2] == '_'; }
    Unpadded("1f_");
    assert !Grouped("1f_") by { assert "1f_"[2] == '_'; }
  }

  lemma NoDigits()
    ensures ParseInt("0x", 16).None? && ParseInt(" ", 10).None?
  {
    Unpadded("0x");
    assert Unprefixed("0x", 16) == [];
    assert Strip(" ") == [] by {
      assert " "[1..] == [];
    }
  }

}
