/** How the filter records read their query-string fields: `parseInt(value, 10)` for page numbers and sizes,
    validator's numeric-string check for prices, and the `SortOrder` enumeration. */
module QueryValues {
  import opened Outcomes

  /** `SortOrder` of both filter records: `'asc'` or `'desc'`. */
  datatype SortOrder = Asc | Desc

  function SortOrderText(o: SortOrder): string {
    match o
    case Asc => "asc"
    case Desc => "desc"
  }

  /** `@IsEnum(SortOrder)`: only the two enumeration values are accepted. */
  function ParseSortOrder(s: string): (r: Option<SortOrder>)
    ensures r.Some? <==> s == "asc" || s == "desc"
    ensures r.Some? ==> SortOrderText(r.value) == s
  {
    if s == "asc" then Some(Asc) else if s == "desc" then Some(Desc) else None
  }

  predicate IsDigit(c: char) {
    '0' <= c <= '9'
  }

  predicate AllDigits(s: string) {
    forall i :: 0 <= i < |s| ==> IsDigit(s[i])
  }

  function DigitValue(c: char): nat
    requires IsDigit(c)
  {
    c as int - '0' as int
  }

  /** The number a string of decimal digits denotes. */
  function DigitsValue(s: string): nat
    requires AllDigits(s)
  {
    if s == [] then 0 else 10 * DigitsValue(s[..|s| - 1]) + DigitValue(s[|s| - 1])
  }

  /** Length of the run of digits at the start of `s`. */
  function DigitRun(s: string): (n: nat)
    ensures n <= |s| && AllDigits(s[..n])
    ensures n < |s| ==> !IsDigit(s[n])
  {
    if s != [] && IsDigit(s[0]) then
      var n := 1 + DigitRun(s[1..]);
      assert s[..n] == [s[0]] + s[1..][..n - 1];
      n
    else 0
  }

  /** The white space `parseInt` skips before the number: ECMAScript's StrWhiteSpaceChar, that is tab,
      vertical tab, form feed, the byte-order mark, the four line terminators and every space separator
      (Unicode category Zs). */
  predicate IsLeadingSpace(c: char) {
    || c == '\t' || c == '\n' || c == '\U{000B}' || c == '\U{000C}' || c == '\r'
    || c == '\U{FEFF}' || c == '\U{2028}' || c == '\U{2029}'
    || c == ' ' || c == '\U{00A0}' || c == '\U{1680}' || '\U{2000}' <= c <= '\U{200A}'
    || c == '\U{202F}' || c == '\U{205F}' || c == '\U{3000}'
  }

  /** What is left of `s` once its leading white space is skipped. */
  function SkipSpace(s: string): (t: string)
    ensures |t| <= |s| && t == s[|s| - |t|..]
    ensures t != [] ==> !IsLeadingSpace(t[0])
  {
    if s != [] && IsLeadingSpace(s[0]) then SkipSpace(s[1..]) else s
  }

  /** What `SkipSpace` skips is white space. */
  lemma {:induction false} SkippedIsSpace(s: string)
    ensures AllSpace(s[..|s| - |SkipSpace(s)|])
  {
    if s != [] && IsLeadingSpace(s[0]) {
      SkippedIsSpace(s[1..]);
      var k := |s| - |SkipSpace(s)|;
      assert s[..k] == [s[0]] + s[1..][..k - 1];
    }
  }

  /** `parseInt(s, 10)`: leading white space is skipped, an optional sign is read, then the longest run of
      digits; anything after it is ignored. Without a digit the result is NaN, here `None`. */
  function ParseIntBase10(s: string): (r: Option<int>)
  {
    var t := SkipSpace(s);
    var negative := t != [] && t[0] == '-';
    var u := if t != [] && (t[0] == '-' || t[0] == '+') then t[1..] else t;
    var n := DigitRun(u);
    if n == 0 then None
    else
      var magnitude: int := DigitsValue(u[..n]);
      Some(if negative then -magnitude else magnitude)
  }

  predicate AllSpace(s: string) {
    forall m :: 0 <= m < |s| ==> IsLeadingSpace(s[m])
  }

  /** `s` reads as `v` under `parseInt`: it is white space, then an optional sign, then a non-empty run of
      digits that the rest does not continue, and `v` is the signed value of those digits. */
  predicate ReadsAs(s: string, space: string, sign: string, digits: string, rest: string, v: int) {
    && s == space + (sign + (digits + rest))
    && AllSpace(space)
    && (sign == "" || sign == "+" || sign == "-")
    && digits != [] && AllDigits(digits)
    && (rest != [] ==> !IsDigit(rest[0]))
    && v == (if sign == "-" then -(DigitsValue(digits) as int) else DigitsValue(digits))
  }

  lemma {:induction false} SkipSpaceOver(space: string, t: string)
    requires AllSpace(space) && t != [] && !IsLeadingSpace(t[0])
    ensures SkipSpace(space + t) == t
  {
    if space != [] {
      assert (space + t)[1..] == space[1..] + t;
      SkipSpaceOver(space[1..], t);
    } else {
      assert space + t == t;
    }
  }

  lemma {:induction false} DigitRunOver(digits: string, rest: string)
    requires AllDigits(digits) && (rest != [] ==> !IsDigit(rest[0]))
    ensures DigitRun(digits + rest) == |digits|
  {
    if digits != [] {
      assert (digits + rest)[1..] == digits[1..] + rest;
      DigitRunOver(digits[1..], rest);
    } else {
      assert digits + rest == rest;
    }
  }

  /** `ParseIntBase10` once the text after the white space and the digit run after the sign are known. */
  lemma ParseIntSteps(s: string, t: string, u: string, n: nat, v: int)
    requires SkipSpace(s) == t && t != []
    requires u == if t[0] == '-' || t[0] == '+' then t[1..] else t
    requires DigitRun(u) == n && n > 0
    requires v == if t[0] == '-' then -(DigitsValue(u[..n]) as int) else DigitsValue(u[..n])
    ensures ParseIntBase10(s) == Some(v)
  {
  }

  /** How a sign and a digit run start the text after the white space. */
  lemma {:induction false} JoinParts(sign: string, digits: string, rest: string)
    requires (sign == "" || sign == "+" || sign == "-") && digits != [] && AllDigits(digits)
    ensures var t := sign + (digits + rest);
            && t != [] && !IsLeadingSpace(t[0])
            && (t[0] == '-' <==> sign == "-")
            && (if t[0] == '-' || t[0] == '+' then t[1..] else t) == digits + rest
            && (digits + rest)[..|digits|] == digits
  {
    var u := digits + rest;
    var t := sign + u;
    assert u[0] == digits[0] && IsDigit(digits[0]);
    if sign == "" {
      assert t == u;
    } else {
      assert t[0] == sign[0];
      assert t[1..] == u;
    }
    assert u[..|digits|] == digits;
  }

  /** Every layout `ReadsAs` describes is read by `ParseIntBase10` with its number. */
  lemma ReadsAsParsed(s: string, space: string, sign: string, digits: string, rest: string, v: int)
    requires ReadsAs(s, space, sign, digits, rest, v)
    ensures ParseIntBase10(s) == Some(v)
  {
    JoinParts(sign, digits, rest);
    SkipSpaceOver(space, sign + (digits + rest));
    DigitRunOver(digits, rest);
    ParseIntSteps(s, sign + (digits + rest), digits + rest, |digits|, v);
  }

  /** How `ParseIntBase10` cuts the sign off the text after the white space. */
  lemma SignSplit(t: string)
    requires t != []
    ensures var sign := if t[0] == '-' || t[0] == '+' then t[..1] else [];
            && t == sign + (if t[0] == '-' || t[0] == '+' then t[1..] else t)
            && (sign == "" || sign == "+" || sign == "-")
            && (sign == "-" <==> t[0] == '-')
  {
    if t[0] == '-' || t[0] == '+' {
      assert t == t[..1] + t[1..];
      assert t[..1] == [t[0]];
    } else {
      assert t == [] + t;
    }
  }

  /** The layout `ParseIntBase10` finds: the skipped white space, the sign it strips and the digit run. */
  lemma StepsLayout(s: string, k: nat, t: string, u: string, n: nat, v: int)
    requires k <= |s| && t == s[k..] && AllSpace(s[..k]) && t != []
    requires u == if t[0] == '-' || t[0] == '+' then t[1..] else t
    requires n <= |u| && AllDigits(u[..n]) && (n < |u| ==> !IsDigit(u[n])) && n > 0
    requires v == if t[0] == '-' then -(DigitsValue(u[..n]) as int) else DigitsValue(u[..n])
    ensures ReadsAs(s, s[..k], if t[0] == '-' || t[0] == '+' then t[..1] else [], u[..n], u[n..], v)
  {
    SplitAt(s, k);
    SignSplit(t);
    SplitAt(u, n);
  }

  lemma SplitAt(u: string, n: nat)
    requires n <= |u|
    ensures u == u[..n] + u[n..]
    ensures n < |u| ==> u[n..][0] == u[n]
  {
  }

  /** Whatever `ParseIntBase10` reads has a layout `ReadsAs` describes: the one returned here. */
  lemma ParsedReadsAs(s: string) returns (space: string, sign: string, digits: string, rest: string)
    requires ParseIntBase10(s).Some?
    ensures ReadsAs(s, space, sign, digits, rest, ParseIntBase10(s).value)
  {
    var t := SkipSpace(s);
    var u := if t != [] && (t[0] == '-' || t[0] == '+') then t[1..] else t;
    var n := DigitRun(u);
    var v := if t[0] == '-' then -(DigitsValue(u[..n]) as int) else DigitsValue(u[..n]);
    ParseIntSteps(s, t, u, n, v);
    SkippedIsSpace(s);
    StepsLayout(s, |s| - |t|, t, u, n, v);
    space, sign, digits, rest := s[..|s| - |t|], if t[0] == '-' || t[0] == '+' then t[..1] else [], u[..n], u[n..];
  }

  /** Decimal text of a natural number, without leading zeros. */
  function NatText(n: nat): (s: string)
    ensures |s| >= 1 && AllDigits(s)
  {
    if n < 10 then [('0' as int + n) as char] else NatText(n / 10) + [('0' as int + n % 10) as char]
  }

  lemma {:induction false} NatTextValue(n: nat)
    ensures DigitsValue(NatText(n)) == n
  {
    var s := NatText(n);
    if n >= 10 {
      NatTextValue(n / 10);
      assert s[..|s| - 1] == NatText(n / 10);
    }
  }

  /** `parseInt` reads back the decimal text of every natural number. */
  lemma ParseNatText(n: nat)
    ensures ParseIntBase10(NatText(n)) == Some(n)
  {
    var s := NatText(n);
    NatTextValue(n);
    assert s == [] + ([] + (s + []));
    ReadsAsParsed(s, [], [], s, [], n);
  }

  /** Page number or page size: an absent field keeps the default; a present one is passed through
      `parseInt(value, 10)`, and `@IsInt() @Min(1)` accept only an integer of at least 1 (NaN is refused). */
  function ParseCount(raw: Option<string>, default: int): (r: Option<int>)
    ensures raw.None? ==> r == Some(default)
    ensures raw.Some? ==> (r.Some? <==> ParseIntBase10(raw.value).Some? && ParseIntBase10(raw.value).value >= 1)
    ensures raw.Some? && r.Some? ==> r == ParseIntBase10(raw.value)
  {
    match raw
    case None => Some(default)
    case Some(s) =>
      match ParseIntBase10(s)
      case None => None
      case Some(v) => if v >= 1 then Some(v) else None
  }

  /** Every positive count written in decimal is accepted with its value. */
  lemma CountOfText(n: nat, default: int)
    requires n >= 1
    ensures ParseCount(Some(NatText(n)), default) == Some(n)
  {
    ParseNatText(n);
  }

  /** Index of the first `.` in `s`, or `|s|` when there is none. */
  function DotIndex(s: string): (k: nat)
    ensures k <= |s|
    ensures k < |s| ==> s[k] == '.'
    ensures forall i :: 0 <= i < k ==> s[i] != '.'
  {
    if s == [] then 0 else if s[0] == '.' then 0 else 1 + DotIndex(s[1..])
  }

  lemma NoDotInDigits(s: string)
    requires AllDigits(s)
    ensures DotIndex(s) == |s|
  {
    if DotIndex(s) < |s| {
      assert IsDigit(s[DotIndex(s)]);
    }
  }

  /** The digits of a numeric string after its optional sign. */
  function Unsigned(s: string): string {
    if s != [] && (s[0] == '+' || s[0] == '-') then s[1..] else s
  }

  /** validator's `isNumeric`, used by `@IsNumberString()`: an optional sign, optional integer digits with a
      `.`, then at least one digit (`12`, `-3`, `4.50`, `.5`; not `5.`, `1e3` or the empty string). */
  predicate IsNumberString(s: string) {
    var u := Unsigned(s);
    var k := DotIndex(u);
    AllDigits(u[..k])
    && (if k == |u| then k >= 1 else k + 1 < |u| && AllDigits(u[k + 1..]))
  }

  function Pow10(n: nat): (p: nat)
    ensures p >= 1
  {
    if n == 0 then 1 else 10 * Pow10(n - 1)
  }

  /** The value of a numeric string, as the decimal price it is compared with. */
  function NumericValue(s: string): real
    requires IsNumberString(s)
  {
    var u := Unsigned(s);
    var k := DotIndex(u);
    var whole := DigitsValue(u[..k]) as real;
    var magnitude :=
      if k == |u| then whole
      else whole + (DigitsValue(u[k + 1..]) as real) / (Pow10(|u| - k - 1) as real);
    if s != [] && s[0] == '-' then -magnitude else magnitude
  }

  /** The decimal text of a natural number is a numeric string with that value. */
  lemma NumberStringOfNat(n: nat)
    ensures IsNumberString(NatText(n))
    ensures NumericValue(NatText(n)) == n as real
  {
    var s := NatText(n);
    assert Unsigned(s) == s by {
      assert IsDigit(s[0]);
    }
    assert DotIndex(s) == |s| by {
      NoDotInDigits(s);
    }
    assert s[..|s|] == s;
    NatTextValue(n);
  }

  /** A numeric string taken apart: its sign, the digits before the point, and the digits after it when
      there is a point (`dotted`); `[+-]?([0-9]*[.])?[0-9]+` in validator's terms. */
  predicate NumberLayout(s: string, sign: string, whole: string, fraction: string, dotted: bool) {
    && s == sign + (whole + (if dotted then "." + fraction else ""))
    && (sign == "" || sign == "+" || sign == "-")
    && AllDigits(whole) && AllDigits(fraction)
    && (if dotted then fraction != [] else whole != [] && fraction == [])
  }

  /** The signed decimal `whole.fraction`. */
  function LayoutValue(sign: string, whole: string, fraction: string): real
    requires AllDigits(whole) && AllDigits(fraction)
  {
    var magnitude := DigitsValue(whole) as real + (DigitsValue(fraction) as real) / (Pow10(|fraction|) as real);
    if sign == "-" then -magnitude else magnitude
  }

  /** Where `Unsigned` and `DotIndex` cut a layout. */
  lemma LayoutCuts(s: string, sign: string, whole: string, fraction: string, dotted: bool)
    requires NumberLayout(s, sign, whole, fraction, dotted)
    ensures Unsigned(s) == whole + (if dotted then "." + fraction else "")
    ensures (s != [] && s[0] == '-') <==> sign == "-"
  {
    var u := whole + (if dotted then "." + fraction else "");
    if sign != "" {
      assert s[0] == sign[0];
      assert s[1..] == u;
    } else if whole != [] {
      assert s[0] == whole[0] && IsDigit(whole[0]);
    } else {
      assert s[0] == '.';
    }
  }

  lemma DotAfterDigits(whole: string, fraction: string, dotted: bool)
    requires AllDigits(whole)
    ensures var u := whole + (if dotted then "." + fraction else "");
            && DotIndex(u) == |whole| && u[..|whole|] == whole
            && (dotted ==> |whole| < |u| && u[|whole| + 1..] == fraction)
            && (!dotted ==> |whole| == |u|)
  {
    var u := whole + (if dotted then "." + fraction else "");
    assert forall i :: 0 <= i < |whole| ==> u[i] == whole[i];
    assert u[..|whole|] == whole;
    if dotted {
      assert u[|whole|] == '.';
      assert u[|whole| + 1..] == fraction;
    }
  }

  /** `isNumeric` and the value once the cuts are known. */
  lemma NumberFromCuts(s: string, u: string, sign: string, whole: string, fraction: string, dotted: bool)
    requires Unsigned(s) == u && DotIndex(u) == |whole| && u[..|whole|] == whole
    requires dotted ==> |whole| < |u| && u[|whole| + 1..] == fraction
    requires !dotted ==> |whole| == |u|
    requires AllDigits(whole) && AllDigits(fraction)
    requires if dotted then fraction != [] else whole != [] && fraction == []
    requires (s != [] && s[0] == '-') <==> sign == "-"
    ensures IsNumberString(s) && NumericValue(s) == LayoutValue(sign, whole, fraction)
  {
  }

  /** Every layout `NumberLayout` describes passes `isNumeric`, with the value of its parts. */
  lemma LayoutIsNumber(s: string, sign: string, whole: string, fraction: string, dotted: bool)
    requires NumberLayout(s, sign, whole, fraction, dotted)
    ensures IsNumberString(s) && NumericValue(s) == LayoutValue(sign, whole, fraction)
  {
    LayoutCuts(s, sign, whole, fraction, dotted);
    DotAfterDigits(whole, fraction, dotted);
    NumberFromCuts(s, whole + (if dotted then "." + fraction else ""), sign, whole, fraction, dotted);
  }

  /** The cuts `isNumeric` makes, read as a layout. */
  lemma CutsAreLayout(s: string, u: string, k: nat, sign: string, whole: string, fraction: string, dotted: bool)
    requires sign == (if s != [] && (s[0] == '+' || s[0] == '-') then s[..1] else "")
    requires u == (if s != [] && (s[0] == '+' || s[0] == '-') then s[1..] else s)
    requires k <= |u| && whole == u[..k] && dotted == (k < |u|) && (dotted ==> u[k] == '.')
    requires fraction == (if dotted then u[k + 1..] else "")
    requires AllDigits(whole) && AllDigits(fraction) && (if dotted then fraction != [] else whole != [])
    ensures NumberLayout(s, sign, whole, fraction, dotted)
    ensures (s != [] && s[0] == '-') <==> sign == "-"
  {
    if sign != "" {
      assert s == sign + u;
      assert sign == [s[0]];
    } else {
      assert s == u;
    }
    if dotted {
      assert u == whole + ("." + fraction);
    } else {
      assert u == whole;
    }
  }

  /** Whatever passes `isNumeric` has a layout `NumberLayout` describes, with the same value: the one
      returned here. */
  lemma NumberLayoutOf(s: string) returns (sign: string, whole: string, fraction: string, dotted: bool)
    requires IsNumberString(s)
    ensures NumberLayout(s, sign, whole, fraction, dotted)
    ensures NumericValue(s) == LayoutValue(sign, whole, fraction)
  {
    var u := Unsigned(s);
    var k := DotIndex(u);
    sign := if s != [] && (s[0] == '+' || s[0] == '-') then s[..1] else "";
    whole := u[..k];
    dotted := k < |u|;
    fraction := if dotted then u[k + 1..] else "";
    CutsAreLayout(s, u, k, sign, whole, fraction, dotted);
    NumberFromCuts(s, u, sign, whole, fraction, dotted);
  }
}
