/** The C library string routines the core relies on: `strtol`/`strtoul`
    (base 10), `atoi`, `index`, together with the decimal rendering used to
    state their round trip. A C string is the sequence of its characters up
    to (not including) the terminating NUL. */
module CString {
  import opened Results

  /** `isspace` in the "C" locale. */
  predicate IsSpace(c: char) {
    c == ' ' || c == '\t' || c == '\n' || c == '\U{000B}' || c == '\U{000C}' || c == '\r'
  }

  predicate IsDigit(c: char) {
    '0' <= c <= '9'
  }

  predicate AllDigits(s: string) {
    forall i :: 0 <= i < |s| ==> IsDigit(s[i])
  }

  function DigitValue(c: char): (d: nat)
    requires IsDigit(c)
    ensures d < 10
  {
    c as int - '0' as int
  }

  function DigitChar(d: nat): (c: char)
    requires d < 10
    ensures IsDigit(c) && DigitValue(c) == d
  {
    ('0' as int + d) as char
  }

  /** Length of the longest prefix of `s[i..]` made of white space. */
  function SpaceRun(s: string, i: nat): (j: nat)
    requires i <= |s|
    ensures i <= j <= |s|
    ensures forall k :: i <= k < j ==> IsSpace(s[k])
    ensures j < |s| ==> !IsSpace(s[j])
    decreases |s| - i
  {
    if i < |s| && IsSpace(s[i]) then SpaceRun(s, i + 1) else i
  }

  /** End of the longest run of decimal digits of `s` starting at `i`. */
  function DigitRun(s: string, i: nat): (j: nat)
    requires i <= |s|
    ensures i <= j <= |s|
    ensures forall k :: i <= k < j ==> IsDigit(s[k])
    ensures j < |s| ==> !IsDigit(s[j])
    decreases |s| - i
  {
    if i < |s| && IsDigit(s[i]) then DigitRun(s, i + 1) else i
  }

  /** The number a non-empty string of decimal digits denotes. */
  function DigitsValue(d: string): nat
    requires AllDigits(d)
  {
    if |d| == 0 then 0 else 10 * DigitsValue(d[..|d| - 1]) + DigitValue(d[|d| - 1])
  }

  /** What `strtol(s, &end, 10)` computes: `value` is the converted number and
      `end` the index `end` points at (0 when no digit was found, as the C
      library then stores the start of the string in `end`). */
  datatype Conversion = Conversion(value: int, end: nat)

  /** `strtol`/`strtoul` in base 10: optional leading white space, an optional
      sign, then one or more decimal digits. Overflow is not modelled; for
      `strtoul` a '-' sign yields the negated value once the unsigned result is
      stored in a signed `long`, as the caller in util-affinity.c does. */
  function StrToL(s: string): (r: Conversion)
    ensures r.end <= |s|
    ensures r.end == 0 ==> r.value == 0
    ensures r.end > 0 ==> IsDigit(s[r.end - 1]) && (r.end == |s| || !IsDigit(s[r.end]))
  {
    var ws := SpaceRun(s, 0);
    var sign := if ws < |s| && (s[ws] == '+' || s[ws] == '-') then 1 else 0;
    var stop := DigitRun(s, ws + sign);
    if stop == ws + sign then
      Conversion(0, 0)
    else
      var magnitude: int := DigitsValue(s[ws + sign..stop]);
      Conversion(if sign == 1 && s[ws] == '-' then -magnitude else magnitude, stop)
  }

  /** The white space of `s` from `i` ends at `j`. */
  lemma SpaceRunIs(s: string, i: nat, j: nat)
    requires i <= j <= |s|
    requires forall k :: i <= k < j ==> IsSpace(s[k])
    requires j < |s| ==> !IsSpace(s[j])
    ensures SpaceRun(s, i) == j
  {
  }

  /** The digits of `s` from `i` end at `j`. */
  lemma DigitRunIs(s: string, i: nat, j: nat)
    requires i <= j <= |s|
    requires forall k :: i <= k < j ==> IsDigit(s[k])
    requires j < |s| ==> !IsDigit(s[j])
    ensures DigitRun(s, i) == j
  {
  }

  /** White space followed by a character that is not white space. */
  lemma SpaceThenOther(blanks: string, u: string)
    requires forall k :: 0 <= k < |blanks| ==> IsSpace(blanks[k])
    requires u != [] && !IsSpace(u[0])
    ensures SpaceRun(blanks + u, 0) == |blanks|
  {
    var s := blanks + u;
    assert forall k :: 0 <= k < |blanks| ==> s[k] == blanks[k];
    assert s[|blanks|] == u[0];
    SpaceRunIs(s, 0, |blanks|);
  }

  /** Digits followed by something that does not start with a digit. */
  lemma DigitsThenOther(digits: string, rest: string)
    requires AllDigits(digits)
    requires rest == [] || !IsDigit(rest[0])
    ensures DigitRun(digits + rest, 0) == |digits|
    ensures (digits + rest)[..|digits|] == digits
  {
    var t := digits + rest;
    assert forall k :: 0 <= k < |digits| ==> t[k] == digits[k];
    assert |digits| < |t| ==> t[|digits|] == rest[0];
    DigitRunIs(t, 0, |digits|);
  }

  /** A run of digits in `s == p + t` from inside `t` is the run in `t`. */
  lemma {:induction false} DigitRunShift(s: string, p: string, t: string, i: nat, j: nat)
    requires s == p + t && i <= |t| && j == |p| + i
    ensures DigitRun(s, j) == |p| + DigitRun(t, i)
    decreases |t| - i
  {
    if i < |t| {
      assert s[j] == t[i];
      if IsDigit(t[i]) {
        DigitRunShift(s, p, t, i + 1, j + 1);
      }
    }
  }

  lemma Regroup(a: string, b: string, c: string)
    ensures a + b + c == a + (b + c)
  {
  }

  lemma SliceShift(p: string, t: string, n: nat)
    requires n <= |t|
    ensures (p + t)[|p|..|p| + n] == t[..n]
  {
  }

  /** `strtol` once the white space, the sign and the digits of `s` are known. */
  lemma StrToLRuns(s: string, w: nat, b: nat, e: nat, negative: bool, digits: string)
    requires SpaceRun(s, 0) == w && w <= b
    requires b == if w < |s| && (s[w] == '+' || s[w] == '-') then w + 1 else w
    requires DigitRun(s, b) == e && b < e && s[b..e] == digits && AllDigits(digits)
    requires negative == (b == w + 1 && s[w] == '-')
    ensures StrToL(s) == Conversion(if negative then -(DigitsValue(digits) as int) else DigitsValue(digits), e)
  {
  }

  /** `strtol` on optional white space, an optional sign, decimal digits and
      then anything that is not a digit: the value is the digits' number,
      negated by a '-', and the end is right after the digits. Leading zeros
      and a '+' are read as the C library reads them. */
  lemma StrToLNumber(blanks: string, sign: string, digits: string, rest: string)
    requires forall k :: 0 <= k < |blanks| ==> IsSpace(blanks[k])
    requires sign == "" || sign == "+" || sign == "-"
    requires AllDigits(digits) && digits != []
    requires rest == [] || !IsDigit(rest[0])
    ensures StrToL(blanks + sign + digits + rest) ==
      Conversion(if sign == "-" then -(DigitsValue(digits) as int) else DigitsValue(digits),
                 |blanks| + |sign| + |digits|)
  {
    var p, t := blanks + sign, digits + rest;
    Regroup(p, digits, rest);
    StrToLNumberAt(p + t, blanks, sign, p, t, digits, rest);
  }

  /** `StrToLNumber` with the string already split at the first digit. */
  lemma StrToLNumberAt(s: string, blanks: string, sign: string, p: string, t: string, digits: string, rest: string)
    requires s == p + t && p == blanks + sign && t == digits + rest
    requires forall k :: 0 <= k < |blanks| ==> IsSpace(blanks[k])
    requires sign == "" || sign == "+" || sign == "-"
    requires AllDigits(digits) && digits != []
    requires rest == [] || !IsDigit(rest[0])
    ensures StrToL(s) ==
      Conversion(if sign == "-" then -(DigitsValue(digits) as int) else DigitsValue(digits),
                 |blanks| + |sign| + |digits|)
  {
    var w, b, e := |blanks|, |p|, |p| + |digits|;
    NumberStart(s, blanks, sign, t, digits);
    DigitsAt(s, p, t, digits, rest);
    StrToLRuns(s, w, b, e, sign == "-", digits);
  }

  /** The digits at the start of `t` in `s == p + t`. */
  lemma DigitsAt(s: string, p: string, t: string, digits: string, rest: string)
    requires s == p + t && t == digits + rest
    requires AllDigits(digits)
    requires rest == [] || !IsDigit(rest[0])
    ensures DigitRun(s, |p|) == |p| + |digits|
    ensures s[|p|..|p| + |digits|] == digits
  {
    DigitsThenOther(digits, rest);
    DigitRunShift(s, p, t, 0, |p|);
    SliceShift(p, t, |digits|);
  }

  /** The white space ends at the sign, or at the first digit when there is none. */
  lemma NumberStart(s: string, blanks: string, sign: string, t: string, digits: string)
    requires AllDigits(digits) && digits != []
    requires s == blanks + sign + t && t != [] && t[0] == digits[0]
    requires forall k :: 0 <= k < |blanks| ==> IsSpace(blanks[k])
    requires sign == "" || sign == "+" || sign == "-"
    ensures SpaceRun(s, 0) == |blanks| < |s|
    ensures |blanks| + |sign| == if s[|blanks|] == '+' || s[|blanks|] == '-' then |blanks| + 1 else |blanks|
    ensures sign == "-" <==> |sign| == 1 && s[|blanks|] == '-'
  {
    var u := sign + t;
    Regroup(blanks, sign, t);
    assert u[0] == if sign == "" then digits[0] else sign[0];
    SpaceThenOther(blanks, u);
    assert s[|blanks|] == u[0];
  }


  /** `strtol` finds no number when no digit follows the white space and the
      sign: the value is 0 and the end is the start of the string. */
  lemma StrToLNoNumber(blanks: string, sign: string, rest: string)
    requires forall k :: 0 <= k < |blanks| ==> IsSpace(blanks[k])
    requires sign == "" || sign == "+" || sign == "-"
    requires rest == [] || !IsDigit(rest[0])
    requires sign == "" && rest != [] ==> !IsSpace(rest[0]) && rest[0] != '+' && rest[0] != '-'
    ensures StrToL(blanks + sign + rest) == Conversion(0, 0)
  {
    var s := blanks + sign + rest;
    var w := |blanks|;
    var b := w + |sign|;
    assert forall k :: 0 <= k < w ==> s[k] == blanks[k];
    assert sign != "" ==> s[w] == sign[0];
    assert b < |s| ==> s[b] == rest[0];
    SpaceRunIs(s, 0, w);
    DigitRunIs(s, b, b);
  }

  /** `atoi(s)`, which is `(int) strtol(s, NULL, 10)`. */
  function Atoi(s: string): int {
    StrToL(s).value
  }

  /** `index(s, c)`: the position of the first occurrence of `c`. */
  function Index(s: string, c: char): (r: Option<nat>)
    ensures r.None? <==> c !in s
    ensures r.Some? ==> r.value < |s| && s[r.value] == c && c !in s[..r.value]
  {
    if |s| == 0 then None
    else if s[0] == c then Some(0)
    else match Index(s[1..], c)
      case None => None
      case Some(k) =>
        assert s[1..][..k] == s[1..k + 1];
        Some(k + 1)
  }

  /** Shortest decimal rendering of `n`, as `printf("%d")` writes it. */
  function Decimal(n: nat): (d: string)
    ensures |d| > 0 && AllDigits(d)
  {
    if n < 10 then [DigitChar(n)] else Decimal(n / 10) + [DigitChar(n % 10)]
  }

  lemma {:induction false} DecimalValue(n: nat)
    ensures DigitsValue(Decimal(n)) == n
  {
    if n >= 10 {
      var d := Decimal(n);
      assert d[..|d| - 1] == Decimal(n / 10);
      DecimalValue(n / 10);
    }
  }

  /** Converting a rendered number stops right after its digits and returns it. */
  lemma StrToLDecimal(n: nat, rest: string)
    requires rest == [] || !IsDigit(rest[0])
    ensures StrToL(Decimal(n) + rest) == Conversion(n, |Decimal(n)|)
  {
    var d := Decimal(n);
    StrToLNumber("", "", d, rest);
    assert "" + "" + d + rest == d + rest;
    DecimalValue(n);
  }


  /** `atoi` inverts `Decimal`. */
  lemma AtoiDecimal(n: nat)
    ensures Atoi(Decimal(n)) == n
    ensures StrToL(Decimal(n)) == Conversion(n, |Decimal(n)|)
  {
    StrToLDecimal(n, []);
    assert Decimal(n) + [] == Decimal(n);
  }

  /** Converting a string with no digit at all consumes nothing and yields 0,
      whatever white space or sign it holds. */
  lemma StrToLNoDigits(s: string)
    requires forall i :: 0 <= i < |s| ==> !IsDigit(s[i])
    ensures StrToL(s) == Conversion(0, 0)
  {
  }

  /** A '-' before a rendered number negates it, whatever non-digit follows. */
  lemma StrToLNegated(n: nat, rest: string)
    requires rest == [] || !IsDigit(rest[0])
    ensures StrToL("-" + Decimal(n) + rest) == Conversion(-(n as int), 1 + |Decimal(n)|)
  {
    var d := Decimal(n);
    StrToLNumber("", "-", d, rest);
    assert "" + "-" + d + rest == "-" + d + rest;
    DecimalValue(n);
  }

}
