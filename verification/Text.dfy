/** Byte strings, and the text conversions the SQL code applies to them: `lpad`, `btrim`, `substr`,
    an integer printed in decimal, and a decimal field read back as INTEGER. */
module Text {

  type byte = x: int | 0 <= x < 256
  type Bytes = seq<byte>

  datatype Option<+T> = None | Some(value: T) {
    predicate IsFailure() { None? }

    function PropagateFailure<U>(): Option<U>
      requires None?
    {
      None
    }

    function Extract(): T
      requires Some?
    {
      value
    }
  }

  const SPACE: byte := 32
  const MINUS: byte := 45
  const PLUS: byte := 43
  const ZERO: byte := 48

  /** The largest value of the SQL type INTEGER. */
  const MAX_INTEGER := 2147483647

  /** The largest value of the SQL type BIGINT. */
  const MAX_BIGINT := 0x7FFF_FFFF_FFFF_FFFF

  function Spaces(n: nat): (s: Bytes)
    ensures |s| == n
    ensures forall i :: 0 <= i < n ==> s[i] == SPACE
  {
    seq(n, _ => SPACE)
  }

  /** `lpad(s, n, ' ')`: pads on the left, and cuts on the right when `s` is too long. */
  function LPad(s: Bytes, n: nat): (r: Bytes)
    ensures |r| == n
    ensures |s| <= n ==> r[n - |s|..] == s
    ensures |s| > n ==> r <= s
  {
    if |s| >= n then s[..n] else Spaces(n - |s|) + s
  }

  /** `substr(s, from, n)` with its one-based start; it stops at the end of `s`. */
  function Substr(s: Bytes, from: nat, n: nat): Bytes
    requires from >= 1
  {
    var start := from - 1;
    if start >= |s| then [] else if start + n >= |s| then s[start..] else s[start..start + n]
  }

  function DropLeading(s: Bytes): (r: Bytes)
    ensures |r| <= |s|
  {
    if s != [] && s[0] == SPACE then DropLeading(s[1..]) else s
  }

  function DropTrailing(s: Bytes): (r: Bytes)
    ensures |r| <= |s|
  {
    if s != [] && s[|s| - 1] == SPACE then DropTrailing(s[..|s| - 1]) else s
  }

  /** `btrim(s, ' ')`. */
  function BTrim(s: Bytes): Bytes {
    DropTrailing(DropLeading(s))
  }

  function Decimal(n: nat): Bytes {
    if n < 10 then [ZERO + n] else Decimal(n / 10) + [ZERO + n % 10]
  }

  /** `n::text`. */
  function IntText(n: int): Bytes {
    if n < 0 then [MINUS] + Decimal(-n) else Decimal(n)
  }

  predicate AllDigits(s: Bytes) {
    forall i :: 0 <= i < |s| ==> ZERO <= s[i] <= ZERO + 9
  }

  function DigitsValue(s: Bytes): nat
    requires AllDigits(s)
  {
    if s == [] then 0 else DigitsValue(s[..|s| - 1]) * 10 + (s[|s| - 1] - ZERO)
  }

  /** A number as SQL reads it: blanks around an optional sign and at least one digit. */
  function ParseNumber(s: Bytes): Option<int> {
    var t := BTrim(s);
    var signed := t != [] && (t[0] == MINUS || t[0] == PLUS);
    var digits := if signed then t[1..] else t;
    if digits == [] || !AllDigits(digits) then None
    else Some(if signed && t[0] == MINUS then 0 - DigitsValue(digits) else DigitsValue(digits))
  }

  /** `s::INTEGER`; None is the SQL error. */
  function ParseInt(s: Bytes): Option<int> {
    var v := ParseNumber(s);
    if v.Some? && -MAX_INTEGER - 1 <= v.value <= MAX_INTEGER then v else None
  }

  /** `s::BIGINT` */
  function ParseBigInt(s: Bytes): Option<int> {
    var v := ParseNumber(s);
    if v.Some? && -MAX_BIGINT - 1 <= v.value <= MAX_BIGINT then v else None
  }

  function Pow10(n: nat): (p: nat)
    ensures p >= 1
  {
    if n == 0 then 1 else 10 * Pow10(n - 1)
  }

  lemma {:induction false} DecimalValue(n: nat)
    ensures Decimal(n) != [] && AllDigits(Decimal(n)) && DigitsValue(Decimal(n)) == n
  {
    if n < 10 {
      assert DigitsValue([ZERO + n]) == DigitsValue([]) * 10 + n;
    } else {
      DecimalValue(n / 10);
      assert Decimal(n)[..|Decimal(n)| - 1] == Decimal(n / 10);
    }
  }

  /** A number takes at most `w` digits exactly when it is below 10^w. */
  lemma {:induction false} DecimalLength(n: nat, w: nat)
    requires w >= 1
    ensures |Decimal(n)| <= w <==> n < Pow10(w)
  {
    if n < 10 {
      Pow10Monotone(1, w);
      assert Pow10(1) == 10 * Pow10(0);
    } else if w == 1 {
      DecimalValue(n / 10);
      assert Pow10(1) == 10 * Pow10(0);
    } else {
      DecimalLength(n / 10, w - 1);
    }
  }

  lemma {:induction false} Pow10Monotone(a: nat, b: nat)
    requires a <= b
    ensures Pow10(a) <= Pow10(b)
  {
    if a < b { Pow10Monotone(a, b - 1); }
  }

  lemma {:induction false} DigitsBelow(s: Bytes)
    requires AllDigits(s)
    ensures DigitsValue(s) < Pow10(|s|)
  {
    if s != [] { DigitsBelow(s[..|s| - 1]); }
  }

  lemma {:induction false} DropLeadingPad(k: nat, s: Bytes)
    requires s != [] && s[0] != SPACE
    ensures DropLeading(Spaces(k) + s) == s
  {
    if k == 0 {
      assert Spaces(0) + s == s;
    } else {
      assert (Spaces(k) + s)[1..] == Spaces(k - 1) + s;
      DropLeadingPad(k - 1, s);
    }
  }

  lemma ParsePaddedDigits(k: nat, s: Bytes)
    requires s != [] && AllDigits(s)
    ensures ParseNumber(Spaces(k) + s) == Some(DigitsValue(s))
  {
    DropLeadingPad(k, s);
    assert BTrim(Spaces(k) + s) == s;
  }

  lemma ParsePaddedMinus(k: nat, s: Bytes)
    requires s != [] && AllDigits(s)
    ensures ParseNumber(Spaces(k) + ([MINUS] + s)) == Some(0 - DigitsValue(s))
  {
    var t := [MINUS] + s;
    DropLeadingPad(k, t);
    assert t[1..] == s;
    assert BTrim(Spaces(k) + t) == t;
  }

  /** A number printed into a blank-padded field of width `w` reads back as itself exactly when
      it fits the field; otherwise `lpad` has cut its last digits off. */
  lemma NumberRoundTrip(n: nat, w: nat)
    requires w >= 1
    ensures ParseNumber(LPad(IntText(n), w)) == Some(n) <==> n < Pow10(w)
  {
    var d := Decimal(n);
    DecimalValue(n);
    DecimalLength(n, w);
    if n < Pow10(w) {
      assert LPad(d, w) == Spaces(w - |d|) + d;
      ParsePaddedDigits(w - |d|, d);
    } else {
      var cut := d[..w];
      assert LPad(d, w) == cut;
      DigitsBelow(cut);
      assert Spaces(0) + cut == cut;
      ParsePaddedDigits(0, cut);
    }
  }

  /** So does a negative number, whose sign takes one more place. */
  lemma NegativeRoundTrip(n: nat, w: nat)
    requires n >= 1 && w >= 2
    ensures ParseNumber(LPad(IntText(0 - n), w)) == Some(0 - n) <==> n < Pow10(w - 1)
  {
    var d := Decimal(n);
    var t := [MINUS] + d;
    DecimalValue(n);
    DecimalLength(n, w - 1);
    if n < Pow10(w - 1) {
      assert LPad(t, w) == Spaces(w - |t|) + t;
      ParsePaddedMinus(w - |t|, d);
    } else {
      var cut := d[..w - 1];
      assert LPad(t, w) == [MINUS] + cut;
      DigitsBelow(cut);
      assert Spaces(0) + ([MINUS] + cut) == [MINUS] + cut;
      ParsePaddedMinus(0, cut);
    }
  }

  /** A leading plus is read over. */
  lemma PlusReads(n: nat)
    ensures ParseNumber([PLUS] + Decimal(n)) == Some(n)
  {
    DecimalValue(n);
    var t := [PLUS] + Decimal(n);
    assert t[1..] == Decimal(n);
    assert Spaces(0) + t == t;
    DropLeadingPad(0, t);
  }

  /** What is read is the trimmed text's digits, with its sign: any other character is an error. */
  lemma NumbersOnly(s: Bytes)
    ensures ParseNumber(s).Some? ==>
              var t := BTrim(s);
              t != [] && AllDigits(t[1..]) && (t[0] == MINUS || t[0] == PLUS || ZERO <= t[0] <= ZERO + 9)
  {
  }

  /** As an INTEGER it reads back exactly when it also is one; a number that fits the field and is none fails. */
  lemma FieldRoundTrip(n: nat, w: nat)
    requires w >= 1
    ensures ParseInt(LPad(IntText(n), w)) == Some(n) <==> n < Pow10(w) && n <= MAX_INTEGER
    ensures ParseBigInt(LPad(IntText(n), w)) == Some(n) <==> n < Pow10(w) && n <= MAX_BIGINT
    ensures n < Pow10(w) && n > MAX_INTEGER ==> ParseInt(LPad(IntText(n), w)) == None
  {
    hide ParseNumber, LPad, IntText;
    NumberRoundTrip(n, w);
  }

  lemma {:induction false} DropLeadingSplit(s: Bytes)
    ensures s == Spaces(|s| - |DropLeading(s)|) + DropLeading(s)
    ensures DropLeading(s) != [] ==> DropLeading(s)[|DropLeading(s)| - 1] == s[|s| - 1]
  {
    if s != [] && s[0] == SPACE {
      DropLeadingSplit(s[1..]);
      var k := |s| - |DropLeading(s)|;
      assert s == [SPACE] + s[1..];
      assert Spaces(k) == [SPACE] + Spaces(k - 1);
    } else {
      assert s == Spaces(0) + s;
    }
  }

  /** A blank-padded system name survives `lpad(btrim(name))`. */
  lemma LPadBTrim(name: Bytes)
    requires name != [] && name[|name| - 1] != SPACE
    ensures LPad(BTrim(name), |name|) == name
  {
    DropLeadingSplit(name);
  }

  lemma DropTrailingSplit(s: Bytes)
    ensures DropTrailing(s) <= s
    ensures DropTrailing(s) == [] || DropTrailing(s)[|DropTrailing(s)| - 1] != SPACE
    ensures s != [] && s[|s| - 1] == SPACE ==> |DropTrailing(s)| < |s|
    ensures DropTrailing(s) == [] ==> forall i :: 0 <= i < |s| ==> s[i] == SPACE
  {
  }

  /** Exactly the names that end in something else, and those that are all blank, survive. */
  lemma TrimExact(name: Bytes)
    requires name != []
    ensures LPad(BTrim(name), |name|) == name <==> name[|name| - 1] != SPACE || name == Spaces(|name|)
  {
    var lead := DropLeading(name);
    DropLeadingSplit(name);
    DropTrailingSplit(lead);
    if name[|name| - 1] != SPACE {
      LPadBTrim(name);
    } else if name == Spaces(|name|) {
      assert BTrim(name) == [] by { if lead != [] { AllBlank(name); } }
    } else {
      var t := BTrim(name);
      assert t != [] by { if t == [] { OnlyBlank(name); } }
      assert LPad(t, |name|)[|name| - 1] == t[|t| - 1] != SPACE;
    }
  }

  lemma {:induction false} AllBlank(s: Bytes)
    requires forall i :: 0 <= i < |s| ==> s[i] == SPACE
    ensures DropLeading(s) == []
  {
    if s != [] { AllBlank(s[1..]); }
  }

  lemma OnlyBlank(s: Bytes)
    requires BTrim(s) == []
    ensures s == Spaces(|s|)
  {
    DropLeadingSplit(s);
    DropTrailingSplit(DropLeading(s));
    assert forall i :: 0 <= i < |s| ==> s[i] == SPACE;
  }
}
