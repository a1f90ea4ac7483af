/**
 * The values a template render can produce once the host's template engine has
 * parsed the rendered text into a native Python value, and the Python built-ins
 * the humidifier applies to them: `==` against literal tokens, `bool()`,
 * `float()`, `str()` and `str.strip()`.
 */
module TemplateValues {
  import opened Wrappers

  /**
   * A parsed render result. `VFloat` carries the float's value and its `str()`
   * text; `VOther` stands for any other object (list, dict, bytes, ...), which
   * compares unequal to every literal token, is taken to be rejected by
   * `float()` (Python does convert numeric bytes), and is described only by
   * its truthiness and its `str()` text.
   */
  datatype Value =
    | VBool(b: bool)
    | VInt(i: int)
    | VFloat(x: real, repr: string)
    | VStr(s: string)
    | VNone
    | VOther(truthy: bool, repr: string)

  /** The numeric tower: `bool` is a subclass of `int`, and ints compare equal to floats. */
  function Numeric(v: Value): (n: Option<real>)
    ensures n.Some? <==> v.VBool? || v.VInt? || v.VFloat?
  {
    match v
    case VBool(b) => Some(if b then 1.0 else 0.0)
    case VInt(i) => Some(i as real)
    case VFloat(x, _) => Some(x)
    case _ => None
  }

  /** Python's `==` between a render result and one literal token (never a container). */
  predicate EqualsLiteral(v: Value, token: Value) {
    if Numeric(v).Some? && Numeric(token).Some? then Numeric(v).value == Numeric(token).value
    else match (v, token)
      case (VStr(s), VStr(t)) => s == t
      case (VNone, VNone) => true
      case _ => false
  }

  /** Python's `v in (t0, t1, ...)` for a tuple of literal tokens. */
  predicate InLiterals(v: Value, tokens: seq<Value>) {
    exists t :: t in tokens && EqualsLiteral(v, t)
  }

  /** The host's STATE_ON and STATE_OFF constants. */
  const StateOn: string := "on"
  const StateOff: string := "off"

  /** The tuple of tokens the state template may yield for "on". */
  const OnLiterals: seq<Value> :=
    [VBool(true), VStr("True"), VStr("true"), VStr("on"), VStr("On"), VStr("ON"),
     VStr(StateOn), VInt(1), VStr("1")]

  /** The tuple of tokens the state template may yield for "off". */
  const OffLiterals: seq<Value> :=
    [VBool(false), VStr("False"), VStr("false"), VStr("off"), VStr("Off"), VStr("OFF"),
     VStr(StateOff), VInt(0), VStr("0")]

  /** Python's `bool(v)`. */
  predicate Truthy(v: Value)
    ensures Numeric(v).Some? ==> (Truthy(v) <==> Numeric(v).value != 0.0)
    ensures v.VNone? ==> !Truthy(v)
  {
    match v
    case VBool(b) => b
    case VInt(i) => i != 0
    case VFloat(x, _) => x != 0.0
    case VStr(s) => s != ""
    case VNone => false
    case VOther(t, _) => t
  }

  /**
   * The state template's coercion to on/off: an "on" token gives on, an "off"
   * token gives off, anything else is decided by truthiness.
   */
  function IsOn(v: Value): (on: bool)
    ensures InLiterals(v, OnLiterals) ==> on
    ensures InLiterals(v, OffLiterals) ==> !on
    ensures !InLiterals(v, OnLiterals) && !InLiterals(v, OffLiterals) ==> on == Truthy(v)
  {
    LiteralsDisjoint(v);
    if InLiterals(v, OnLiterals) then true
    else if InLiterals(v, OffLiterals) then false
    else Truthy(v)
  }

  /** The strings that read as "off" although they are non-empty. */
  const OffStrings: set<string> := {"False", "false", "off", "Off", "OFF", "0"}

  /**
   * An independent, per-type reading of the coercion: what the user sees
   * for each kind of render result.
   */
  function OnByKind(v: Value): bool {
    match v
    case VBool(b) => b
    case VInt(i) => i != 0
    case VFloat(x, _) => x != 0.0
    case VStr(s) => s != "" && s !in OffStrings
    case VNone => false
    case VOther(t, _) => t
  }

  /** Membership in the "on" tuple, by kind: True, 1, 1.0 or one of six strings. */
  lemma {:induction false} OnLiteralsByKind(v: Value)
    ensures InLiterals(v, OnLiterals) <==> match v
      case VBool(b) => b
      case VInt(i) => i == 1
      case VFloat(x, _) => x == 1.0
      case VStr(s) => s in {"True", "true", "on", "On", "ON", "1"}
      case _ => false
  {
    match v
    case VStr(s) =>
      if s in {"True", "true", "on", "On", "ON", "1"} {
        assert VStr(s) in OnLiterals && EqualsLiteral(v, VStr(s));
      }
    case VBool(b) =>
      if b { assert EqualsLiteral(v, OnLiterals[0]); }
    case VInt(i) =>
      if i == 1 { assert EqualsLiteral(v, OnLiterals[7]); }
    case VFloat(x, _) =>
      if x == 1.0 { assert EqualsLiteral(v, OnLiterals[7]); }
    case _ =>
  }

  /** Membership in the "off" tuple, by kind: False, 0, 0.0 or one of the off strings. */
  lemma {:induction false} OffLiteralsByKind(v: Value)
    ensures InLiterals(v, OffLiterals) <==> match v
      case VBool(b) => !b
      case VInt(i) => i == 0
      case VFloat(x, _) => x == 0.0
      case VStr(s) => s in OffStrings
      case _ => false
  {
    match v
    case VStr(s) =>
      if s in OffStrings {
        assert VStr(s) in OffLiterals && EqualsLiteral(v, VStr(s));
      }
    case VBool(b) =>
      if !b { assert EqualsLiteral(v, OffLiterals[0]); }
    case VInt(i) =>
      if i == 0 { assert EqualsLiteral(v, OffLiterals[7]); }
    case VFloat(x, _) =>
      if x == 0.0 { assert EqualsLiteral(v, OffLiterals[7]); }
    case _ =>
  }

  /** No value is both an "on" and an "off" token, so the order of the two tests does not matter. */
  lemma LiteralsDisjoint(v: Value)
    ensures !(InLiterals(v, OnLiterals) && InLiterals(v, OffLiterals))
  {
    OnLiteralsByKind(v);
    OffLiteralsByKind(v);
  }

  /** The coercion agrees with the per-type reading on every value. */
  lemma IsOnMatchesKind(v: Value)
    ensures IsOn(v) == OnByKind(v)
  {
    OnLiteralsByKind(v);
    OffLiteralsByKind(v);
  }

  /** The outcome of Python's `float(v)`: a number, or the exception it raises. */
  datatype FloatConversion = Converted(x: real) | ValueError | TypeError

  /**
   * Python's `float(v)`. Numbers (bools included) convert; a string converts
   * when the float parser accepts it and otherwise raises ValueError; None and
   * containers raise TypeError.
   */
  function ToFloat(v: Value, parse: string -> Option<real>): (c: FloatConversion)
    ensures Numeric(v).Some? ==> c == Converted(Numeric(v).value)
    ensures v.VStr? ==> (c.Converted? <==> parse(v.s).Some?) && (c.Converted? ==> c.x == parse(v.s).value)
    ensures c.ValueError? <==> v.VStr? && parse(v.s).None?
    ensures c.TypeError? <==> v.VNone? || v.VOther?
  {
    match v
    case VStr(s) => if parse(s).Some? then Converted(parse(s).value) else ValueError
    case VNone => TypeError
    case VOther(_, _) => TypeError
    case _ => Converted(Numeric(v).value)
  }

  /** A decimal digit character. */
  function Digit(d: nat): (c: char)
    requires d < 10
    ensures '0' <= c <= '9' && (c as int) - ('0' as int) == d
  {
    (('0' as int) + d) as char
  }

  /** The value of a string of decimal digits. */
  function DigitsValue(s: string): nat
    requires forall k :: 0 <= k < |s| ==> '0' <= s[k] <= '9'
  {
    if s == [] then 0 else 10 * DigitsValue(s[..|s| - 1]) + ((s[|s| - 1] as int) - ('0' as int))
  }

  /** Python's `str(n)` for a natural number: its digits, without leading zeros. */
  function NatToDecimal(n: nat): (r: string)
    ensures |r| > 0 && forall k :: 0 <= k < |r| ==> '0' <= r[k] <= '9'
    ensures |r| > 1 ==> r[0] != '0'
    ensures DigitsValue(r) == n
    decreases n
  {
    if n < 10 then [Digit(n)]
    else
      var r := NatToDecimal(n / 10) + [Digit(n % 10)];
      assert r[..|r| - 1] == NatToDecimal(n / 10);
      r
  }

  /** Python's `str(i)` for an integer. */
  function IntToDecimal(i: int): (r: string)
    ensures |r| > 0
    ensures r[0] == '-' <==> i < 0
    ensures i < 0 ==> r[1..] == NatToDecimal(-i)
    ensures i >= 0 ==> r == NatToDecimal(i)
  {
    if i < 0 then "-" + NatToDecimal(-i) else NatToDecimal(i)
  }

  /** Python's `str(v)`. */
  function PyStr(v: Value): (r: string)
    ensures v.VBool? ==> r == (if v.b then "True" else "False")
    ensures v.VInt? ==> r == IntToDecimal(v.i) && (r[0] == '-' <==> v.i < 0)
    ensures v.VStr? ==> r == v.s
    ensures v.VNone? ==> r == "None"
    ensures v.VFloat? || v.VOther? ==> r == v.repr
  {
    match v
    case VBool(b) => if b then "True" else "False"
    case VInt(i) => IntToDecimal(i)
    case VFloat(_, repr) => repr
    case VStr(s) => s
    case VNone => "None"
    case VOther(_, repr) => repr
  }

  /** Python's `str.isspace()` for one character: the 29 Unicode white-space code points. */
  predicate IsSpace(c: char) {
    || ('\t' <= c <= '\r')                  // tab, line feed, vertical tab, form feed, carriage return
    || ('\U{1C}' <= c <= '\U{1F}')          // file, group, record and unit separators
    || c == ' ' || c == '\U{85}' || c == '\U{A0}' || c == '\U{1680}'
    || ('\U{2000}' <= c <= '\U{200A}')
    || c == '\U{2028}' || c == '\U{2029}' || c == '\U{202F}' || c == '\U{205F}' || c == '\U{3000}'
  }

  /** Every character of the string is white space. */
  predicate AllSpace(s: string) {
    forall k :: 0 <= k < |s| ==> IsSpace(s[k])
  }

  /** The string without its leading white space. */
  function TrimStart(s: string): (r: string)
    ensures |r| <= |s| && r == s[|s| - |r|..]
    ensures AllSpace(s[..|s| - |r|])
    ensures r != [] ==> !IsSpace(r[0])
    decreases |s|
  {
    if s != [] && IsSpace(s[0]) then
      var r := TrimStart(s[1..]);
      assert forall k :: 1 <= k < |s| - |r| ==> s[k] == s[1..][k - 1];
      r
    else s
  }

  /** The string without its trailing white space. */
  function TrimEnd(s: string): (r: string)
    ensures |r| <= |s| && r == s[..|r|]
    ensures AllSpace(s[|r|..])
    ensures r != [] ==> !IsSpace(r[|r| - 1])
    decreases |s|
  {
    if s != [] && IsSpace(s[|s| - 1]) then
      var r := TrimEnd(s[..|s| - 1]);
      assert s[|r|..] == s[..|s| - 1][|r|..] + [s[|s| - 1]];
      r
    else s
  }

  /**
   * `r` is the slice `s[i..i + |r|]`, everything before and after it is white
   * space, and `r` itself neither starts nor ends with white space.
   */
  predicate IsStrippedSlice(s: string, r: string, i: int) {
    && 0 <= i <= |s| - |r|
    && r == s[i..i + |r|]
    && AllSpace(s[..i])
    && AllSpace(s[i + |r|..])
    && (r != [] ==> !IsSpace(r[0]) && !IsSpace(r[|r| - 1]))
  }

  /** Python's `str.strip()`: leading and trailing white space removed. */
  function Strip(s: string): (r: string)
    ensures |r| <= |s|
    ensures r != [] ==> !IsSpace(r[0]) && !IsSpace(r[|r| - 1])
  {
    TrimEnd(TrimStart(s))
  }

  /** What `Strip` keeps is a stripped slice of its argument. */
  lemma StripIsStrippedSlice(s: string)
    ensures IsStrippedSlice(s, Strip(s), |s| - |TrimStart(s)|)
  {
    var t := TrimStart(s);
    var r := TrimEnd(t);
    TrimmedBothEnds(s, t, r, |s| - |t|);
  }

  /**
   * Cutting white space off the front of `s` at `i` and then off the back at
   * `|r|` leaves a stripped slice.
   */
  lemma TrimmedBothEnds(s: string, t: string, r: string, i: int)
    requires 0 <= i <= |s| && t == s[i..] && AllSpace(s[..i])
    requires |r| <= |t| && r == t[..|r|] && AllSpace(t[|r|..])
    requires t != [] ==> !IsSpace(t[0])
    requires r != [] ==> !IsSpace(r[|r| - 1])
    ensures IsStrippedSlice(s, r, i)
  {
    assert r != [] ==> r[0] == t[0];
    assert r == s[i..i + |r|];
    assert t[|r|..] == s[i + |r|..];
  }

  /** Two stripped slices of the same string are the same slice. */
  lemma StrippedSliceUnique(s: string, r1: string, i1: int, r2: string, i2: int)
    requires IsStrippedSlice(s, r1, i1) && IsStrippedSlice(s, r2, i2)
    ensures r1 == r2
  {
    if r1 != [] {
      assert s[i1] == r1[0] && s[i1 + |r1| - 1] == r1[|r1| - 1];
    }
    if r2 != [] {
      assert s[i2] == r2[0] && s[i2 + |r2| - 1] == r2[|r2| - 1];
    }
  }

  /** There is only one stripped slice of a string, so `Strip` is the whole of `str.strip()`. */
  lemma StripUnique(s: string, r: string, i: int)
    requires IsStrippedSlice(s, r, i)
    ensures r == Strip(s)
  {
    StripIsStrippedSlice(s);
    StrippedSliceUnique(s, r, i, Strip(s), |s| - |TrimStart(s)|);
  }

  /** Stripping is idempotent: a stripped mode stays the same when stripped again. */
  lemma StripIdempotent(s: string)
    ensures Strip(Strip(s)) == Strip(s)
  {
    var r := Strip(s);
    assert TrimStart(r) == r;
    assert TrimEnd(r) == r;
  }

  /** The decimal text of an integer contains no white space, so stripping leaves it alone. */
  lemma StripDecimal(i: int)
    ensures Strip(PyStr(VInt(i))) == PyStr(VInt(i))
  {
    var r := IntToDecimal(i);
    assert !IsSpace(r[0]) && !IsSpace(r[|r| - 1]);
    assert TrimStart(r) == r;
    assert TrimEnd(r) == r;
  }
}
