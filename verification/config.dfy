/** One entry of the mod's configuration (Config.java): the value it holds,
    how text typed by the user replaces that value, and the validators that
    decide which text an input field accepts. */
module Config {
  import opened Wrappers
  import JavaInt

  datatype ConfigType = Category | Boolean | Enum | Input | KeyBind

  datatype InputType = Any | Int | Float | HexColor | FolderPath

  /** The boxed Java objects a config value can be. Floating-point values are
      reals; integer kinds keep their Java range in the parsers below. */
  datatype Value =
    | Null
    | Str(s: string)
    | Bool(b: bool)
    | Int32(i: int)
    | Float32(f: real)
    | Long64(l: int)
    | Double64(d: real)
    | Byte8(b8: int)
    | Short16(s16: int)

  /** A translatable text built from a key (`FiguraText` is not part of this
      model; only the key it is built from matters here). */
  datatype Text = Text(key: string)

  // ---------------------------------------------------------------------
  // Characters and small string helpers
  // ---------------------------------------------------------------------

  predicate IsDigit(c: char) { '0' <= c <= '9' }

  predicate IsSign(c: char) { c == '-' || c == '+' }

  predicate IsHexDigit(c: char) { IsDigit(c) || 'a' <= c <= 'f' || 'A' <= c <= 'F' }

  predicate AllDigits(s: string) { forall i :: 0 <= i < |s| ==> IsDigit(s[i]) }

  predicate AllHexDigits(s: string) { forall i :: 0 <= i < |s| ==> IsHexDigit(s[i]) }

  /** An optional sign: the empty string or a single '+' or '-'. */
  predicate OptSign(p: string) { p == [] || (|p| == 1 && IsSign(p[0])) }

  function LowerAscii(c: char): char {
    if 'A' <= c <= 'Z' then (c as int - 'A' as int + 'a' as int) as char else c
  }

  /** `String.toLowerCase` on the ASCII names of the config constants. */
  function ToLowerAscii(s: string): (r: string)
    ensures |r| == |s| && forall i :: 0 <= i < |s| ==> r[i] == LowerAscii(s[i])
  {
    if s == [] then [] else [LowerAscii(s[0])] + ToLowerAscii(s[1..])
  }

  /** `String.equalsIgnoreCase` restricted to ASCII letters. */
  predicate EqualsIgnoreCase(a: string, b: string) {
    |a| == |b| && forall i :: 0 <= i < |a| ==> LowerAscii(a[i]) == LowerAscii(b[i])
  }

  /** The decimal digits of a natural number, as `"" + i` writes it. */
  function NatToString(n: nat): (s: string)
    ensures |s| > 0 && AllDigits(s)
  {
    if n < 10 then [('0' as int + n) as char]
    else NatToString(n / 10) + [('0' as int + n % 10) as char]
  }

  function DigitValue(c: char): nat
    requires IsDigit(c)
  {
    c as int - '0' as int
  }

  /** The number a string of decimal digits denotes. */
  function DecimalValue(s: string): nat
    requires AllDigits(s)
  {
    if s == [] then 0 else DecimalValue(s[..|s| - 1]) * 10 + DigitValue(s[|s| - 1])
  }

  lemma {:induction false} NatToStringRoundTrip(n: nat)
    ensures DecimalValue(NatToString(n)) == n
  {
    if n >= 10 {
      NatToStringRoundTrip(n / 10);
      var s := NatToString(n);
      assert s[..|s| - 1] == NatToString(n / 10);
    }
  }

  // ---------------------------------------------------------------------
  // Parsing typed text (the java.lang parsers setValue calls)
  // ---------------------------------------------------------------------

  /** The sign of a number: its first character when that is '+' or '-'. */
  function SignPart(text: string): (p: string)
    ensures OptSign(p) && p <= text
  {
    if |text| > 0 && IsSign(text[0]) then text[..1] else []
  }

  /** The text after an optional leading sign. */
  function Unsigned(text: string): string {
    text[|SignPart(text)|..]
  }

  /** `text` is an optional sign `p` followed by at least one digit `d`. */
  ghost predicate IntegerSplit(text: string, p: string, d: string) {
    text == p + d && OptSign(p) && |d| > 0 && AllDigits(d)
  }

  function SignedValue(p: string, d: string): int
    requires AllDigits(d)
  {
    if p == "-" then -(DecimalValue(d) as int) else DecimalValue(d)
  }

  lemma IntegerSplitUnique(text: string, p: string, d: string)
    requires IntegerSplit(text, p, d)
    ensures p == SignPart(text) && d == Unsigned(text)
  {
    if p == [] {
      assert text[0] == d[0];
    } else {
      assert text[0] == p[0];
      assert text[..1] == p;
    }
  }

  /** An integer text splits in exactly one way. */
  lemma IntegerSplitsOf(text: string)
    ensures forall p, d :: IntegerSplit(text, p, d) ==> p == SignPart(text) && d == Unsigned(text)
  {
    forall p, d | IntegerSplit(text, p, d)
      ensures p == SignPart(text) && d == Unsigned(text)
    {
      IntegerSplitUnique(text, p, d);
    }
  }

  /** `Integer.parseInt`, `Long.parseLong`, `Short.parseShort` and
      `Byte.parseByte` in base 10: an optional sign, at least one digit, and a
      value within [lo, hi]; anything else throws NumberFormatException. */
  function ParseInteger(text: string, lo: int, hi: int): (r: Option<int>)
    ensures r.Some? <==> exists p, d :: IntegerSplit(text, p, d) && lo <= SignedValue(p, d) <= hi
    ensures r.Some? ==> lo <= r.value <= hi
    ensures r.Some? ==> exists p, d :: IntegerSplit(text, p, d) && r.value == SignedValue(p, d)
  {
    var p, d := SignPart(text), Unsigned(text);
    assert text == p + d;
    IntegerSplitsOf(text);
    if d == [] || !AllDigits(d) then None
    else
      var v := SignedValue(p, d);
      if lo <= v <= hi then Some(v) else None
  }

  const LONG_MIN: int := -0x8000_0000_0000_0000
  const LONG_MAX: int := 0x7fff_ffff_ffff_ffff

  /** The value `setValue` computes for `text`, before the enum wrap, from the
      kind of the current value; `None` when the parser throws. Floats and
      doubles are parsed by the JDK (not part of this model): `floatParse` is
      what `Float.valueOf(text)` / `Double.valueOf(text)` yields. */
  function ParseAs(current: Value, text: string, floatParse: Option<real>): Option<Value>
    requires current != Null
  {
    match current
    case Str(_) => Some(Str(text))
    case Bool(_) => Some(Bool(EqualsIgnoreCase(text, "true")))
    case Int32(_) =>
      var n := ParseInteger(text, JavaInt.INT_MIN, JavaInt.INT_MAX);
      if n.Some? then Some(Int32(n.value)) else None
    case Float32(_) => if floatParse.Some? then Some(Float32(floatParse.value)) else None
    case Long64(_) =>
      var n := ParseInteger(text, LONG_MIN, LONG_MAX);
      if n.Some? then Some(Long64(n.value)) else None
    case Double64(_) => if floatParse.Some? then Some(Double64(floatParse.value)) else None
    case Byte8(_) =>
      var n := ParseInteger(text, -128, 127);
      if n.Some? then Some(Byte8(n.value)) else None
    case Short16(_) =>
      var n := ParseInteger(text, -32768, 32767);
      if n.Some? then Some(Short16(n.value)) else None
  }

  /** The enum wrap `((n % length) + length) % length` with Java's `%`. */
  function Wrap(n: int, length: int): (r: int)
    requires length > 0
    ensures 0 <= r < length
  {
    JavaInt.Rem(JavaInt.Rem(n, length) + length, length)
  }

  /** The wrap lands in [0, length) and agrees with the mathematical
      (Euclidean) remainder, also for negative n. */
  lemma WrapIsEuclideanRemainder(n: int, length: int)
    requires length > 0
    ensures 0 <= Wrap(n, length) < length
    ensures Wrap(n, length) == n % length
  {
    var r := JavaInt.Rem(n, length);
    if n >= 0 {
      JavaInt.ModUnique(r + length, length, 1, r);
    } else {
      var m := (-n) % length;
      var q := (-n) / length;
      assert -n == q * length + m;
      if m == 0 {
        JavaInt.ModUnique(n, length, -q, 0);
        JavaInt.ModUnique(r + length, length, 1, 0);
      } else {
        assert n == (-q - 1) * length + (length - m);
        JavaInt.ModUnique(n, length, -q - 1, length - m);
        JavaInt.ModUnique(r + length, length, 0, length - m);
      }
    }
  }

  /** The value `setValue(text)` leaves behind: the parsed value, wrapped into
      [0, length) when the config has an enum list, or the default when any
      parse throws (including `% 0` on an empty enum list). */
  function SetValueOutcome(current: Value, default: Value, enumLength: Option<nat>,
                           text: string, floatParse: Option<real>): (v: Value)
    requires current != Null
    ensures current.Str? && enumLength.None? ==> v == Str(text)
    ensures ParseAs(current, text, floatParse).None? ==> v == default
    ensures enumLength.Some? && enumLength.value > 0 && v != default ==>
              v.Int32? && 0 <= v.i < enumLength.value
  {
    var typed := ParseAs(current, text, floatParse);
    if typed.None? then default
    else if enumLength.None? then typed.value
    else
      var n := ParseInteger(text, JavaInt.INT_MIN, JavaInt.INT_MAX);
      if n.None? || enumLength.value == 0 then default
      else
        WrapIsEuclideanRemainder(n.value, enumLength.value);
        Int32(Wrap(n.value, enumLength.value))
  }

  /** The decimal text of an integer, with a leading '-' when negative. */
  function IntText(n: int): string {
    if n < 0 then "-" + NatToString(-n) else NatToString(n)
  }

  /** The decimal text of an int parses back to it. */
  lemma IntTextParses(n: int)
    requires JavaInt.InInt(n)
    ensures ParseInteger(IntText(n), JavaInt.INT_MIN, JavaInt.INT_MAX) == Some(n)
  {
    var d := NatToString(if n < 0 then -n else n);
    NatToStringRoundTrip(if n < 0 then -n else n);
    if n < 0 {
      assert IntegerSplit(IntText(n), "-", d);
      ParseSplit(IntText(n), "-", d, JavaInt.INT_MIN, JavaInt.INT_MAX);
    } else {
      assert IntText(n) == [] + d;
      ParseSplit(IntText(n), [], d, JavaInt.INT_MIN, JavaInt.INT_MAX);
    }
  }

  /** A text made of a sign and digits whose value is in range parses to
      that value. */
  lemma ParseSplit(text: string, p: string, d: string, lo: int, hi: int)
    requires IntegerSplit(text, p, d) && lo <= SignedValue(p, d) <= hi
    ensures ParseInteger(text, lo, hi) == Some(SignedValue(p, d))
  {
    IntegerSplitUnique(text, p, d);
  }

  /** An enum config given integer text n takes n modulo its length. */
  lemma EnumSetValueWraps(current: int, default: Value, length: nat, n: int)
    requires length > 0 && JavaInt.InInt(n)
    ensures SetValueOutcome(Int32(current), default, Some(length), IntText(n), None) == Int32(n % length)
  {
    IntTextParses(n);
    WrapIsEuclideanRemainder(n, length);
  }

  // ---------------------------------------------------------------------
  // Input validators
  // ---------------------------------------------------------------------

  /** The INT pattern `^[\-+]?[0-9]*$` as a split of the text. */
  ghost predicate MatchesIntPattern(s: string) {
    exists p, d :: s == p + d && OptSign(p) && AllDigits(d)
  }

  lemma IntPatternShape(s: string)
    ensures MatchesIntPattern(s) <==> AllDigits(Unsigned(s))
  {
    assert s == SignPart(s) + Unsigned(s);
    if MatchesIntPattern(s) {
      var p, d :| s == p + d && OptSign(p) && AllDigits(d);
      if p == [] && |s| > 0 {
        assert s[0] == d[0];
      } else if p != [] {
        assert s[0] == p[0];
        assert Unsigned(s) == d;
      }
    }
  }

  /** INT validator. */
  function IntValidator(s: string): (ok: bool)
    ensures ok <==> MatchesIntPattern(s)
  {
    IntPatternShape(s);
    AllDigits(Unsigned(s))
  }

  /** The HEX_COLOR pattern `^[#]?[0-9A-Fa-f]{0,6}$` as a split of the text. */
  ghost predicate MatchesHexPattern(s: string) {
    exists p, d :: s == p + d && (p == [] || p == "#") && |d| <= 6 && AllHexDigits(d)
  }

  /** The text after an optional leading '#'. */
  function Unhashed(s: string): string {
    if |s| > 0 && s[0] == '#' then s[1..] else s
  }

  lemma HexPatternShape(s: string)
    ensures MatchesHexPattern(s) <==> |Unhashed(s)| <= 6 && AllHexDigits(Unhashed(s))
  {
    if |s| > 0 && s[0] == '#' {
      assert s == "#" + Unhashed(s);
    } else {
      assert s == [] + Unhashed(s);
    }
    if MatchesHexPattern(s) {
      var p, d :| s == p + d && (p == [] || p == "#") && |d| <= 6 && AllHexDigits(d);
      if p == [] && |s| > 0 {
        assert s[0] == d[0];
      } else if p != [] {
        assert s[0] == p[0];
        assert Unhashed(s) == d;
      }
    }
  }

  /** HEX_COLOR validator. */
  function HexColorValidator(s: string): (ok: bool)
    ensures ok <==> MatchesHexPattern(s)
  {
    HexPatternShape(s);
    |Unhashed(s)| <= 6 && AllHexDigits(Unhashed(s))
  }

  /** An optional fraction `(\.[0-9]+)?`. */
  predicate OptFraction(f: string) {
    f == [] || (|f| >= 2 && f[0] == '.' && AllDigits(f[1..]))
  }

  /** The full-match pattern `[\-+]?[0-9]*(\.[0-9]+)?` as a split of the text. */
  ghost predicate MatchesFloatPattern(s: string) {
    exists p, d, f :: s == p + d + f && OptSign(p) && AllDigits(d) && OptFraction(f)
  }

  /** The length of the run of digits that starts `s`. */
  function DigitRun(s: string): (n: nat)
    ensures n <= |s| && AllDigits(s[..n]) && (n < |s| ==> !IsDigit(s[n]))
  {
    if s == [] || !IsDigit(s[0]) then 0
    else
      var k := DigitRun(s[1..]);
      assert s[..k + 1] == [s[0]] + s[1..][..k];
      k + 1
  }

  lemma {:induction false} DigitRunOfSplit(d: string, f: string)
    requires AllDigits(d) && (f == [] || !IsDigit(f[0]))
    ensures DigitRun(d + f) == |d|
    decreases |d|
  {
    if d == [] {
      assert d + f == f;
    } else {
      assert (d + f)[1..] == d[1..] + f;
      DigitRunOfSplit(d[1..], f);
    }
  }

  /** What follows the sign and the leading digits. */
  function AfterDigits(s: string): string {
    var u := Unsigned(s);
    u[DigitRun(u)..]
  }

  /** Any split of a text matching the FLOAT pattern leaves the same
      fraction: the sign and the run of digits are determined by the text. */
  lemma FloatSplitDetermined(s: string, p: string, d: string, f: string)
    requires s == p + d + f && OptSign(p) && AllDigits(d) && OptFraction(f)
    ensures AfterDigits(s) == f
  {
    if p == [] && |s| > 0 {
      if |d| > 0 {
        assert s[0] == d[0];
      } else {
        assert s[0] == f[0];
      }
      assert s == d + f;
    } else if p != [] {
      assert s[0] == p[0];
      assert s[1..] == d + f;
    }
    assert Unsigned(s) == d + f;
    DigitRunOfSplit(d, f);
  }

  lemma FloatPatternShape(s: string)
    ensures MatchesFloatPattern(s) <==> OptFraction(AfterDigits(s))
  {
    var p, u := SignPart(s), Unsigned(s);
    var k := DigitRun(u);
    assert s == p + u[..k] + u[k..];
    if MatchesFloatPattern(s) {
      var p', d', f' :| s == p' + d' + f' && OptSign(p') && AllDigits(d') && OptFraction(f');
      FloatSplitDetermined(s, p', d', f');
    }
  }

  /** FLOAT validator: the full pattern, or any text ending in '.', or the
      empty text. */
  function FloatValidator(s: string): (ok: bool)
    ensures ok <==> MatchesFloatPattern(s) || (|s| > 0 && s[|s| - 1] == '.') || s == []
  {
    FloatPatternShape(s);
    OptFraction(AfterDigits(s)) || (|s| > 0 && s[|s| - 1] == '.') || s == []
  }

  // ---------------------------------------------------------------------
  // The config entry
  // ---------------------------------------------------------------------

  /** A config constant. `name` is the constant's enum name. */
  class ConfigEntry {
    const kind: ConfigType
    const defaultValue: Value
    const inputType: Option<InputType>
    var value: Value
    var configValue: Value
    var name: Text
    var tooltip: Text
    var enumList: Option<seq<Text>>

    /** The number of entries in the enum list, if the config has one. */
    function EnumLength(): Option<nat>
      reads this
    {
      if enumList.Some? then Some(|enumList.value|) else None
    }

    /** The global constructor the five type constructors delegate to. */
    constructor (enumName: string, kind: ConfigType, value: Value, length: Option<int>,
                 inputType: Option<InputType>)
      ensures this.kind == kind && this.inputType == inputType
      ensures this.value == value && defaultValue == value && configValue == value
      ensures var key := "config." + ToLowerAscii(enumName);
              name == Text(key) && tooltip == Text(key + ".tooltip")
      ensures length.None? ==> enumList.None?
      ensures length.Some? ==>
        && enumList.Some?
        && |enumList.value| == (if length.value > 0 then length.value else 0)
        && forall i :: 0 <= i < |enumList.value| ==>
             enumList.value[i] == Text("config." + ToLowerAscii(enumName) + "." + NatToString(i + 1))
    {
      this.kind := kind;
      this.value := value;
      this.defaultValue := value;
      this.configValue := value;
      this.inputType := inputType;
      var key := "config." + ToLowerAscii(enumName);
      this.name := Text(key);
      this.tooltip := Text(key + ".tooltip");
      if length.Some? {
        var labels: seq<Text> := [];
        var i := 1;
        while i <= length.value
          invariant 1 <= i <= (if length.value > 0 then length.value else 0) + 1
          invariant |labels| == i - 1
          invariant forall j :: 0 <= j < |labels| ==> labels[j] == Text(key + "." + NatToString(j + 1))
        {
          labels := labels + [Text(key + "." + NatToString(i))];
          i := i + 1;
        }
        this.enumList := Some(labels);
      } else {
        this.enumList := None;
      }
    }

    /** `setValue(text)`. On a category (whose value is null) the first line
        throws before anything changes; otherwise the new value is
        `SetValueOutcome` and `configValue` follows it. */
    method SetValue(text: string, floatParse: Option<real>) returns (ok: bool)
      modifies this`value, this`configValue
      ensures ok <==> old(value) != Null
      ensures ok ==> value == SetValueOutcome(old(value), defaultValue, EnumLength(), text, floatParse)
      ensures ok ==> configValue == value
      ensures !ok ==> value == old(value) && configValue == old(configValue)
    {
      if value == Null {
        return false;
      }
      var threw := false;
      var parsed := ParseAs(value, text, floatParse);
      if parsed.None? {
        threw := true;
      } else {
        value := parsed.value;
        if enumList.Some? {
          var length := |enumList.value|;
          var n := ParseInteger(text, JavaInt.INT_MIN, JavaInt.INT_MAX);
          if n.None? || length == 0 {
            threw := true;
          } else {
            value := Int32(Wrap(n.value, length));
          }
        }
      }
      if threw {
        value := defaultValue;
      }
      configValue := value;
      ok := true;
    }
  }
}
