/** JavaScript values as the server and client code observe them, and the
    language's own coercions that the code relies on: truthiness, `??`,
    optional property access, `String.prototype.trim` and `Number(...)`. */
module Js {
  import opened Wrappers

  /** A JavaScript number. Finite numbers are exact reals: IEEE rounding is not
      part of the model. */
  datatype Num = Fin(v: real) | NaN | Inf(positive: bool)

  /** A JavaScript value as it arrives from `JSON.parse`, a request body or an
      upstream reply. Objects are maps from their own keys to values. */
  datatype Value =
    | Undefined
    | Null
    | Bool(b: bool)
    | Number(n: Num)
    | Str(s: string)
    | Arr(items: seq<Value>)
    | Obj(fields: map<string, Value>)

  /** `null` or `undefined`: the values `??` replaces and `?.` stops at. */
  predicate Nullish(v: Value) {
    v.Undefined? || v.Null?
  }

  /** The values that `if (v)` accepts: everything except `undefined`, `null`,
      `false`, `0`, `NaN` and the empty string. */
  predicate Truthy(v: Value) {
    match v
    case Undefined => false
    case Null => false
    case Bool(b) => b
    case Number(n) => n != NaN && n != Fin(0.0)
    case Str(s) => s != ""
    case Arr(_) => true
    case Obj(_) => true
  }

  /** `v ?? d` */
  function Coalesce(v: Value, d: Value): (r: Value)
    ensures Nullish(v) ==> r == d
    ensures !Nullish(v) ==> r == v
  {
    if Nullish(v) then d else v
  }

  /** `v?.key` (and `v.key` where `v` is known not to be nullish) for the keys
      this code reads, none of which is an array index or `length`: only an
      object's own key yields a value, anything else is `undefined`. */
  function Get(v: Value, key: string): (r: Value)
    ensures r != Undefined ==> v.Obj? && key in v.fields && r == v.fields[key]
  {
    if v.Obj? && key in v.fields then v.fields[key] else Undefined
  }

  /** `Number.isFinite(n)` for a value that is already a number. */
  predicate IsFinite(n: Num) {
    n.Fin?
  }

  /** `a < b` on numbers: false whenever either side is NaN. */
  predicate Lt(a: Num, b: Num) {
    match (a, b)
    case (Fin(x), Fin(y)) => x < y
    case (Fin(_), Inf(p)) => p
    case (Inf(p), Fin(_)) => !p
    case (Inf(p), Inf(q)) => !p && q
    case _ => false
  }

  /** `a <= b` on numbers: false whenever either side is NaN. */
  predicate Le(a: Num, b: Num) {
    !a.NaN? && !b.NaN? && !Lt(b, a)
  }

  /** `Math.max(a, b)` on numbers. */
  function Max(a: Num, b: Num): (r: Num)
    ensures r.NaN? <==> a.NaN? || b.NaN?
    ensures !r.NaN? ==> Le(a, r) && Le(b, r) && (r == a || r == b)
  {
    if a.NaN? || b.NaN? then NaN else if Lt(a, b) then b else a
  }

  /** `Math.min(a, b)` on numbers. */
  function Min(a: Num, b: Num): (r: Num)
    ensures r.NaN? <==> a.NaN? || b.NaN?
    ensures !r.NaN? ==> Le(r, a) && Le(r, b) && (r == a || r == b)
  {
    if a.NaN? || b.NaN? then NaN else if Lt(b, a) then b else a
  }

  /** The characters ECMAScript's `trim` removes: WhiteSpace (tab, vertical
      tab, form feed, no-break space, byte order mark and the Zs space
      separators) and LineTerminator (LF, CR, U+2028, U+2029). */
  predicate IsWhitespace(c: char) {
    c == '\t' || c == '\n' || c == '\U{000B}' || c == '\U{000C}' || c == '\r' ||
    c == ' ' || c == '\U{00A0}' || c == '\U{1680}' || ('\U{2000}' <= c <= '\U{200A}') ||
    c == '\U{2028}' || c == '\U{2029}' || c == '\U{202F}' || c == '\U{205F}' ||
    c == '\U{3000}' || c == '\U{FEFF}'
  }

  /** The first index at or after `i` that does not hold whitespace, or `|s|`. */
  function SkipLeading(s: string, i: nat): (r: nat)
    requires i <= |s|
    ensures i <= r <= |s|
    ensures forall k :: i <= k < r ==> IsWhitespace(s[k])
    ensures r < |s| ==> !IsWhitespace(s[r])
    decreases |s| - i
  {
    if i < |s| && IsWhitespace(s[i]) then SkipLeading(s, i + 1) else i
  }

  /** The end of `s[lo..j]` once its trailing whitespace is dropped. */
  function SkipTrailing(s: string, lo: nat, j: nat): (r: nat)
    requires lo <= j <= |s|
    ensures lo <= r <= j
    ensures forall k :: r <= k < j ==> IsWhitespace(s[k])
    ensures r > lo ==> !IsWhitespace(s[r - 1])
    decreases j
  {
    if j > lo && IsWhitespace(s[j - 1]) then SkipTrailing(s, lo, j - 1) else j
  }

  /** `s.trim()`: the slice of `s` between its leading and its trailing
      whitespace. It neither starts nor ends with whitespace, and it is
      empty exactly when `s` is all whitespace. */
  function Trim(s: string): (r: string)
    ensures var i := SkipLeading(s, 0); var j := SkipTrailing(s, i, |s|);
      && r == s[i..j]
      && (forall k :: 0 <= k < i ==> IsWhitespace(s[k]))
      && (forall k :: j <= k < |s| ==> IsWhitespace(s[k]))
    ensures r != [] ==> !IsWhitespace(r[0]) && !IsWhitespace(r[|r| - 1])
    ensures (forall k :: 0 <= k < |s| ==> IsWhitespace(s[k])) <==> r == []
  {
    var i := SkipLeading(s, 0);
    var j := SkipTrailing(s, i, |s|);
    assert i < j ==> s[i..j][0] == s[i] && s[i..j][j - i - 1] == s[j - 1];
    assert i < |s| ==> i < j;
    s[i..j]
  }

  function DigitValue(c: char): (d: nat)
    requires '0' <= c <= '9'
    ensures d < 10
  {
    (c as int) - ('0' as int)
  }

  predicate AllDigits(s: string) {
    forall k :: 0 <= k < |s| ==> '0' <= s[k] <= '9'
  }

  /** The value of a string of decimal digits (0 for the empty string). */
  function DigitsValue(s: string): (n: nat)
    requires AllDigits(s)
  {
    if s == [] then 0 else 10 * DigitsValue(s[..|s| - 1]) + DigitValue(s[|s| - 1])
  }

  function Pow10(k: nat): (p: nat)
    ensures p >= 1
  {
    if k == 0 then 1 else 10 * Pow10(k - 1)
  }

  /** `s.indexOf(c)`: the first index of `c` in `s`, with `|s|` standing for
      the -1 returned when there is none. */
  function FirstIndex(s: string, c: char): (i: nat)
    ensures i <= |s|
    ensures i < |s| ==> s[i] == c
    ensures forall k :: 0 <= k < i ==> s[k] != c
  {
    if s == [] then 0 else if s[0] == c then 0 else 1 + FirstIndex(s[1..], c)
  }

  /** `s.lastIndexOf(c)`: the last index of `c` in `s`, or -1 when there is none. */
  function LastIndex(s: string, c: char): (i: int)
    ensures -1 <= i < |s|
    ensures i >= 0 ==> s[i] == c
    ensures forall k :: i < k < |s| ==> s[k] != c
  {
    if s == [] then -1 else if s[|s| - 1] == c then |s| - 1 else LastIndex(s[..|s| - 1], c)
  }

  /** An unsigned decimal literal: digits, optionally followed by `.` and more
      digits, with at least one digit in all (`"12"`, `"1.5"`, `"5."`, `".5"`). */
  function DecimalLiteral(t: string): (n: Num)
    ensures n.Fin? ==> n.v >= 0.0
  {
    var dot := FirstIndex(t, '.');
    var whole := t[..dot];
    var frac := if dot < |t| then t[dot + 1..] else "";
    if AllDigits(whole) && AllDigits(frac) && |whole| + |frac| > 0 then
      Fin(DigitsValue(whole) as real + DigitsValue(frac) as real / Pow10(|frac|) as real)
    else NaN
  }

  function Negate(n: Num): (r: Num) {
    match n
    case Fin(x) => Fin(-x)
    case Inf(p) => Inf(!p)
    case NaN => NaN
  }

  /** `Number(s)` for a string: surrounding whitespace is ignored, the empty
      string is 0, `Infinity` may be signed, and a decimal literal may carry
      one sign. */
  function StringToNumber(s: string): (n: Num)
    ensures (forall k :: 0 <= k < |s| ==> IsWhitespace(s[k])) ==> n == Fin(0.0)
    ensures var t := Trim(s); t != "" && AllDigits(t) ==> n == Fin(DigitsValue(t) as real)
    ensures var t := Trim(s); |t| > 1 && t[0] == '-' && AllDigits(t[1..]) ==>
      n == Fin(-(DigitsValue(t[1..]) as real))
    ensures var t := Trim(s); n.Fin? && n.v < 0.0 ==> t != "" && t[0] == '-'
  {
    var t := Trim(s);
    DigitsAreDecimal(t);
    if t == "" then Fin(0.0)
    else if t == "Infinity" || t == "+Infinity" then Inf(true)
    else if t == "-Infinity" then Inf(false)
    else if t[0] == '-' then DigitsAreDecimal(t[1..]); Negate(DecimalLiteral(t[1..]))
    else if t[0] == '+' then DecimalLiteral(t[1..])
    else DecimalLiteral(t)
  }

  /** An all-digit string has no `.`, so it reads as the whole number it spells. */
  lemma DigitsAreDecimal(t: string)
    ensures t != "" && AllDigits(t) ==> DecimalLiteral(t) == Fin(DigitsValue(t) as real)
  {
    if t != "" && AllDigits(t) {
      assert FirstIndex(t, '.') == |t|;
      assert t[..|t|] == t;
    }
  }

  /** `Number(v)`: the numeric coercion `Number(...)`, `Math.max` and `Math.min`
      apply. An array converts through its string form: the empty array is 0,
      a one-element array converts as its element does (`null` and
      `undefined` elements as the empty string), longer arrays are NaN. */
  function ToNumber(v: Value): (n: Num)
    ensures v.Number? ==> n == v.n
    ensures v.Null? ==> n == Fin(0.0)
    ensures v.Undefined? || v.Obj? ==> n == NaN
    ensures v.Bool? ==> n == Fin(if v.b then 1.0 else 0.0)
    ensures v.Str? ==> n == StringToNumber(v.s)
    ensures v.Arr? && v.items == [] ==> n == Fin(0.0)
    ensures v.Arr? && |v.items| == 1 && v.items[0].Str? ==> n == StringToNumber(v.items[0].s)
    ensures v.Arr? && |v.items| > 1 ==> n == NaN
  {
    match v
    case Undefined => NaN
    case Null => Fin(0.0)
    case Bool(b) => if b then Fin(1.0) else Fin(0.0)
    case Number(n) => n
    case Str(s) => StringToNumber(s)
    case Arr(items) =>
      if |items| == 0 then Fin(0.0)
      else if |items| == 1 then
        (if Nullish(items[0]) then Fin(0.0) else if items[0].Bool? then NaN else ToNumber(items[0]))
      else NaN
    case Obj(_) => NaN
  }
}
