// Shared vocabulary: optional values, trade sides, and a model of the loosely
// typed Python values that broker records, ticks and signal dictionaries carry.

module Base {

  datatype Option<T> = None | Some(value: T) {
    function GetOr(default: T): (r: T)
      ensures Some? ==> r == value
      ensures None? ==> r == default
    {
      if Some? then value else default
    }
  }

  /** A Python call either returns a value or raises. */
  datatype Try<T> = Ok(value: T) | Raised

  /** Side of a position or of an order. */
  datatype Side = Buy | Sell

  function Opposite(s: Side): (o: Side)
    ensures o != s
  {
    if s == Buy then Sell else Buy
  }

  /** Decision label produced by the signal rules. */
  datatype Label = LBuy | LSell | LHold

  function LabelOfSide(s: Side): (l: Label)
    ensures l != LHold
  {
    if s == Buy then LBuy else LSell
  }

  // ---------------------------------------------------------------------
  // Python values
  // ---------------------------------------------------------------------

  /**
   * A value read out of a broker record: None, a bool, an int, a float,
   * a string, a datetime (its wall-clock reading in seconds since the epoch,
   * and its UTC offset in seconds when it is timezone-aware), or anything
   * else (an object float()/int() refuse).
   */
  datatype Value = VNone | VBool(b: bool) | VInt(i: int) | VReal(r: real) | VStr(s: string)
                 | VTime(wall: real, offset: Option<real>) | VOther

  /**
   * A record is either a dict (looked up by key) or an object (looked up by
   * attribute).  `getattr` sees only the attributes of an object: a dict has none.
   */
  datatype Record = Dict(entries: map<string, Value>) | Obj(attrs: map<string, Value>) {
    function Fields(): map<string, Value> {
      if Dict? then entries else attrs
    }
  }

  /** `getattr(r, name, None)`. */
  function GetAttr(r: Record, name: string): (v: Value)
    ensures r.Dict? ==> v == VNone
    ensures r.Obj? && name in r.attrs ==> v == r.attrs[name]
    ensures r.Obj? && name !in r.attrs ==> v == VNone
  {
    match r
    case Dict(_) => VNone
    case Obj(a) => if name in a then a[name] else VNone
  }

  /** Python truthiness. */
  predicate Truthy(v: Value) {
    match v
    case VNone => false
    case VBool(b) => b
    case VInt(i) => i != 0
    case VReal(r) => r != 0.0
    case VStr(s) => s != ""
    case VTime(_, _) => true
    case VOther => true
  }

  /** Outcome of `float(v) if v not in (None, "") else None`. */
  datatype Conv = Missing | Parsed(x: real) | Invalid

  function FloatOrNone(v: Value): (c: Conv)
    ensures c == Missing <==> (v == VNone || v == VStr(""))
    ensures v.VReal? ==> c == Parsed(v.r)
    ensures v.VInt? ==> c == Parsed(v.i as real)
  {
    match v
    case VNone => Missing
    case VBool(b) => Parsed(if b then 1.0 else 0.0)
    case VInt(i) => Parsed(i as real)
    case VReal(r) => Parsed(r)
    case VStr(s) =>
      if s == "" then Missing
      else (match ParseDecimal(s) case Some(x) => Parsed(x) case None => Invalid)
    case VTime(_, _) => Invalid
    case VOther => Invalid
  }

  /** `float(v)`: None where Python raises (None, "" and anything unparsable). */
  function FloatOf(v: Value): (r: Option<real>)
    ensures r.Some? <==> FloatOrNone(v).Parsed?
    ensures r.Some? ==> r.value == FloatOrNone(v).x
  {
    match FloatOrNone(v)
    case Parsed(x) => Some(x)
    case _ => None
  }

  /**
   * The number a raw attribute value compares as (`x <= 0.0` on it): None is
   * reported as Missing, bools and numbers compare numerically, anything else
   * makes the comparison raise.
   */
  function RawNumber(v: Value): (c: Conv)
    ensures c == Missing <==> v == VNone
  {
    match v
    case VNone => Missing
    case VBool(b) => Parsed(if b then 1.0 else 0.0)
    case VInt(i) => Parsed(i as real)
    case VReal(r) => Parsed(r)
    case VStr(_) => Invalid
    case VTime(_, _) => Invalid
    case VOther => Invalid
  }

  /** `int(x)` on a float: truncation toward zero. */
  function Trunc(r: real): (i: int)
    ensures 0.0 <= r ==> i as real <= r < i as real + 1.0
    ensures r < 0.0 ==> i as real - 1.0 < r <= i as real
  {
    if r >= 0.0 then r.Floor else -((-r).Floor)
  }

  /** `int(v)` for a non-string value; None where Python raises. */
  function IntOf(v: Value): (r: Option<int>)
    ensures v.VInt? ==> r == Some(v.i)
    ensures v.VNone? || v.VOther? || v.VStr? || v.VTime? ==> r.None?
  {
    match v
    case VBool(b) => Some(if b then 1 else 0)
    case VInt(i) => Some(i)
    case VReal(x) => Some(Trunc(x))
    case _ => None
  }

  // ---------------------------------------------------------------------
  // Strings
  // ---------------------------------------------------------------------

  predicate IsSpace(c: char) {
    c == ' ' || c == '\t' || c == '\n' || c == '\r' || c == '\U{000B}' || c == '\U{000C}'
  }

  predicate IsDigit(c: char) {
    '0' <= c <= '9'
  }

  /** `s.lower()` on ASCII letters. */
  function Lower(s: string): (r: string)
    ensures |r| == |s|
    ensures forall i :: 0 <= i < |s| ==> !('A' <= r[i] <= 'Z')
  {
    if s == [] then []
    else
      var c := s[0];
      [if 'A' <= c <= 'Z' then (c as int + 32) as char else c] + Lower(s[1..])
  }

  function StripLeft(s: string): (r: string)
    ensures |r| <= |s| && r == s[|s| - |r|..]
    ensures r == [] || !IsSpace(r[0])
  {
    if s != [] && IsSpace(s[0]) then StripLeft(s[1..]) else s
  }

  function StripRight(s: string): (r: string)
    ensures |r| <= |s| && r == s[..|r|]
    ensures r == [] || !IsSpace(r[|r| - 1])
  {
    if s != [] && IsSpace(s[|s| - 1]) then StripRight(s[..|s| - 1]) else s
  }

  /** `s.strip()`. */
  function Strip(s: string): (r: string)
    ensures |r| <= |s|
    ensures r == [] || (!IsSpace(r[0]) && !IsSpace(r[|r| - 1]))
  {
    StripRight(StripLeft(s))
  }

  function DigitChar(d: nat): char
    requires d < 10
  {
    ('0' as int + d) as char
  }

  function DigitOf(c: char): nat
    requires IsDigit(c)
  {
    c as int - '0' as int
  }

  /** Digits carry no surrounding white space. */
  lemma StripOfDigits(s: string)
    ensures AllDigits(s) ==> Strip(s) == s
  {
    if AllDigits(s) && s != [] {
      assert StripLeft(s) == s;
    }
  }

  /** Decimal rendering of a natural number, as `str(n)` prints it. */
  function NatToString(n: nat): (s: string)
    ensures |s| > 0
    ensures forall i :: 0 <= i < |s| ==> IsDigit(s[i])
    decreases n
  {
    if n < 10 then [DigitChar(n)] else NatToString(n / 10) + [DigitChar(n % 10)]
  }

  /** `str(i)` for an int. */
  function IntToString(i: int): (s: string)
    ensures |s| > 0
  {
    if i < 0 then "-" + NatToString(-i) else NatToString(i)
  }

  predicate AllDigits(s: string) {
    forall i :: 0 <= i < |s| ==> IsDigit(s[i])
  }

  function DigitsValue(s: string): nat
    requires AllDigits(s)
  {
    if s == [] then 0 else DigitsValue(s[..|s| - 1]) * 10 + DigitOf(s[|s| - 1])
  }

  function Pow10(n: nat): (p: nat)
    ensures p >= 1
  {
    if n == 0 then 1 else 10 * Pow10(n - 1)
  }

  /** Index of the first '.' in s, or |s| when there is none. */
  function DotIndex(s: string): (k: nat)
    ensures k <= |s|
    ensures forall i :: 0 <= i < k ==> s[i] != '.'
    ensures k < |s| ==> s[k] == '.'
  {
    if s == [] then 0 else if s[0] == '.' then 0 else 1 + DotIndex(s[1..])
  }

  /** Unsigned decimal literal: digits, optionally one '.', at least one digit. */
  function ParseUnsigned(t: string): (r: Option<real>)
    ensures r.Some? ==> r.value >= 0.0
  {
    var k := DotIndex(t);
    var whole := t[..k];
    var frac := if k < |t| then t[k + 1..] else [];
    if AllDigits(whole) && AllDigits(frac) && |whole| + |frac| > 0 then
      Some(DigitsValue(whole) as real + DigitsValue(frac) as real / Pow10(|frac|) as real)
    else None
  }

  /**
   * `float(s)` for a decimal literal surrounded by optional white space and
   * preceded by an optional sign; None where Python raises ValueError.
   */
  function ParseDecimal(s: string): (r: Option<real>)
    ensures AllDigits(s) && s != [] ==> r == Some(DigitsValue(s) as real)
  {
    StripOfDigits(s);
    var t := Strip(s);
    if |t| > 0 && t[0] == '-' then
      (match ParseUnsigned(t[1..]) case Some(x) => Some(-x) case None => None)
    else if |t| > 0 && t[0] == '+' then ParseUnsigned(t[1..])
    else ParseUnsigned(t)
  }

  lemma {:induction false} DigitsValueOfNatToString(n: nat)
    ensures DigitsValue(NatToString(n)) == n
    decreases n
  {
    var s := NatToString(n);
    if n >= 10 {
      DigitsValueOfNatToString(n / 10);
      assert s[..|s| - 1] == NatToString(n / 10);
    }
  }

  /** `float(str(n)) == n` for every natural number: the round trip through text. */
  lemma ParseDecimalOfNatToString(n: nat)
    ensures ParseDecimal(NatToString(n)) == Some(n as real)
  {
    DigitsValueOfNatToString(n);
  }
}
