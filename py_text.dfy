/**
 * The parts of Python's text handling the slot keys are built from: `str()`
 * of a value, `str(int)`, `str.isalnum`, md5 hex digests and the host part
 * of a URL.  The last three come from libraries whose code is not part of
 * this model; they are the fields of `Runtime` and are constrained only by
 * `Runtime.Valid`.
 */
module PyText {
  import opened Wrappers
  import Orders

  /** A Python value as stored in a request's `meta` or `url`; `OtherValue` is any other object, given by its `str()`. */
  datatype Value = NoneValue | BoolValue(b: bool) | IntValue(i: int) | StrValue(s: string) | OtherValue(text: string)

  predicate AsciiAlnum(c: char) {
    ('0' <= c <= '9') || ('a' <= c <= 'z') || ('A' <= c <= 'Z')
  }

  predicate IsHexDigit(c: char) {
    ('0' <= c <= '9') || ('a' <= c <= 'f')
  }

  /** What `hashlib.md5(...).hexdigest()` returns: 32 lower-case hexadecimal digits. */
  ghost predicate IsHexDigest(h: string) {
    |h| == 32 && forall i :: 0 <= i < |h| ==> IsHexDigit(h[i])
  }

  /**
   * `isalnum`: `str.isalnum` on one character; `md5hex`: the md5 hex digest
   * of a string's UTF-8 bytes; `hostname`: `urlparse(url).hostname`, which
   * may be `None`.
   */
  datatype Runtime = Runtime(isalnum: char -> bool, md5hex: string -> string, hostname: Value -> Option<string>) {
    /** `str.isalnum` agrees with the ASCII letters and digits on ASCII, and digests are hex. */
    ghost predicate Valid() {
      && (forall c: char :: c as int < 128 ==> (isalnum(c) <==> AsciiAlnum(c)))
      && (forall s :: IsHexDigest(md5hex(s)))
    }
  }

  /** A character that may stand in a path: alphanumeric or one of `-._`. */
  predicate PathChar(rt: Runtime, c: char) {
    rt.isalnum(c) || c in "-._"
  }

  ghost predicate PathSafe(rt: Runtime, s: string) {
    forall i :: 0 <= i < |s| ==> PathChar(rt, s[i])
  }

  /** `"".join([c if c.isalnum() or c in '-._' else '_' for c in slot])`. */
  function Pathable(rt: Runtime, slot: string): (r: string)
    ensures |r| == |slot|
  {
    seq(|slot|, i requires 0 <= i < |slot| => if PathChar(rt, slot[i]) then slot[i] else '_')
  }

  /**
   * The sanitised slot is as long as the slot, keeps every character that
   * may stand in a path, replaces every other by `_`, and is itself path safe.
   */
  lemma PathableChars(rt: Runtime, slot: string)
    ensures |Pathable(rt, slot)| == |slot|
    ensures forall i :: 0 <= i < |slot| && PathChar(rt, slot[i]) ==> Pathable(rt, slot)[i] == slot[i]
    ensures forall i :: 0 <= i < |slot| && !PathChar(rt, slot[i]) ==> Pathable(rt, slot)[i] == '_'
    ensures PathSafe(rt, Pathable(rt, slot))
  {
  }

  /** Sanitising leaves a path-safe string as it is, so sanitising twice is sanitising once. */
  lemma PathableIdempotent(rt: Runtime, slot: string)
    ensures PathSafe(rt, slot) ==> Pathable(rt, slot) == slot
    ensures Pathable(rt, Pathable(rt, slot)) == Pathable(rt, slot)
  {
  }

  /** A hex digest is path safe. */
  lemma DigestPathSafe(rt: Runtime, s: string)
    requires rt.Valid()
    ensures PathSafe(rt, rt.md5hex(s))
  {
    var h := rt.md5hex(s);
    assert IsHexDigest(h);
    forall i | 0 <= i < |h| ensures PathChar(rt, h[i]) {
      assert IsHexDigit(h[i]);
      assert h[i] as int < 128;
    }
  }

  lemma PathSafeConcat(rt: Runtime, a: string, b: string)
    requires PathSafe(rt, a) && PathSafe(rt, b)
    ensures PathSafe(rt, a + b)
  {
    forall i | 0 <= i < |a + b| ensures PathChar(rt, (a + b)[i]) {
      if i >= |a| {
        assert (a + b)[i] == b[i - |a|];
      }
    }
  }

  // ---------------------------------------------------------------- decimal

  predicate IsDigit(c: char) { '0' <= c <= '9' }

  ghost predicate AllDigits(s: string) {
    forall i :: 0 <= i < |s| ==> IsDigit(s[i])
  }

  function DigitChar(d: nat): (c: char)
    requires d < 10
    ensures IsDigit(c)
  {
    (d + '0' as int) as char
  }

  function DigitValue(c: char): nat
    requires IsDigit(c)
  {
    c as int - '0' as int
  }

  /** `str(n)` for a natural number: its decimal digits, without leading zeros. */
  function NatToDecimal(n: nat): (s: string)
    ensures |s| > 0 && AllDigits(s)
  {
    if n < 10 then [DigitChar(n)] else NatToDecimal(n / 10) + [DigitChar(n % 10)]
  }

  /** `str(i)`: a minus sign, then the digits of the absolute value. */
  function IntToDecimal(i: int): string
  {
    if i < 0 then "-" + NatToDecimal(-i) else NatToDecimal(i)
  }

  /** `str(v)`. */
  function PyStr(v: Value): string
  {
    match v
    case NoneValue => "None"
    case BoolValue(b) => if b then "True" else "False"
    case IntValue(i) => IntToDecimal(i)
    case StrValue(s) => s
    case OtherValue(text) => text
  }

  function Pow10(k: nat): (p: nat)
    ensures p >= 1
  {
    if k == 0 then 1 else 10 * Pow10(k - 1)
  }

  /** The number a string of decimal digits denotes, most significant digit first. */
  function DigitsValue(s: string): nat
    requires AllDigits(s)
  {
    if s == [] then 0 else DigitValue(s[0]) * Pow10(|s| - 1) + DigitsValue(s[1..])
  }

  lemma MulMonotone(a: nat, b: nat, p: nat)
    requires a <= b
    ensures a * p <= b * p
  {
  }

  lemma {:induction false} DigitsValueBound(s: string)
    requires AllDigits(s)
    ensures DigitsValue(s) < Pow10(|s|)
  {
    if s != [] {
      DigitsValueBound(s[1..]);
      var d := DigitValue(s[0]);
      var p := Pow10(|s| - 1);
      assert DigitsValue(s) == d * p + DigitsValue(s[1..]);
      assert Pow10(|s|) == 10 * p;
      MulMonotone(d, 9, p);
    }
  }

  /** Appending a digit multiplies by ten and adds it. */
  lemma ShiftDigit(d: nat, p: nat, t: nat, e: nat)
    ensures d * (10 * p) + (t * 10 + e) == (d * p + t) * 10 + e
  {
  }

  lemma {:induction false} DigitsValueAppend(s: string, c: char)
    requires AllDigits(s) && IsDigit(c)
    ensures AllDigits(s + [c])
    ensures DigitsValue(s + [c]) == DigitsValue(s) * 10 + DigitValue(c)
  {
    if s != [] {
      assert (s + [c])[1..] == s[1..] + [c];
      DigitsValueAppend(s[1..], c);
      var d := DigitValue(s[0]);
      var p := Pow10(|s| - 1);
      var t := DigitsValue(s[1..]);
      assert (s + [c])[0] == s[0];
      assert DigitsValue(s + [c]) == d * Pow10(|s|) + (t * 10 + DigitValue(c));
      assert Pow10(|s|) == 10 * p;
      ShiftDigit(d, p, t, DigitValue(c));
    } else {
      assert s + [c] == [c];
    }
  }

  /** `str(n)` denotes `n`. */
  lemma {:induction false} NatToDecimalValue(n: nat)
    ensures DigitsValue(NatToDecimal(n)) == n
  {
    if n < 10 {
    } else {
      NatToDecimalValue(n / 10);
      DigitsValueAppend(NatToDecimal(n / 10), DigitChar(n % 10));
    }
  }

  /** `str(i)` tells integers apart: the sign and the digits give the value back. */
  lemma IntToDecimalInjective(a: int, b: int)
    ensures IntToDecimal(a) == IntToDecimal(b) <==> a == b
  {
    if IntToDecimal(a) == IntToDecimal(b) {
      assert (a < 0) == (IntToDecimal(a)[0] == '-');
      assert (b < 0) == (IntToDecimal(b)[0] == '-');
      if a < 0 {
        assert NatToDecimal(-a) == IntToDecimal(a)[1..] == IntToDecimal(b)[1..] == NatToDecimal(-b);
        NatToDecimalValue(-a);
        NatToDecimalValue(-b);
      } else {
        NatToDecimalValue(a);
        NatToDecimalValue(b);
      }
    }
  }

  /** A leading digit outweighs everything after it. */
  lemma LeadingDigit(da: nat, db: nat, ta: nat, tb: nat, p: nat)
    requires ta < p && tb < p
    ensures da * p + ta < db * p + tb <==> da < db || (da == db && ta < tb)
    ensures da * p + ta == db * p + tb <==> da == db && ta == tb
  {
    if da < db {
      MulMonotone(da + 1, db, p);
    } else if db < da {
      MulMonotone(db + 1, da, p);
    }
  }

  /**
   * Among digit strings of one length, string order is numeric order: the
   * first differing digit decides both.
   */
  lemma {:induction false} DigitsOrder(a: string, b: string)
    requires AllDigits(a) && AllDigits(b) && |a| == |b|
    ensures Orders.StrLess(a, b) <==> DigitsValue(a) < DigitsValue(b)
    ensures a == b <==> DigitsValue(a) == DigitsValue(b)
  {
    if a != [] {
      DigitsOrder(a[1..], b[1..]);
      DigitsValueBound(a[1..]);
      DigitsValueBound(b[1..]);
      LeadingDigit(DigitValue(a[0]), DigitValue(b[0]), DigitsValue(a[1..]), DigitsValue(b[1..]), Pow10(|a| - 1));
      assert a == [a[0]] + a[1..] && b == [b[0]] + b[1..];
    }
  }

  /** The digits of a number of at most `k` digits number at most `k`. */
  lemma {:induction false} NatToDecimalLength(n: nat, k: nat)
    requires 1 <= k && n < Pow10(k)
    ensures |NatToDecimal(n)| <= k
  {
    if n >= 10 {
      assert Pow10(1) == 10;
      assert n / 10 < Pow10(k - 1);
      NatToDecimalLength(n / 10, k - 1);
    }
  }

  /** `k` zeros. */
  function Zeros(k: nat): (z: string)
    ensures |z| == k && AllDigits(z)
  {
    if k == 0 then [] else ['0'] + Zeros(k - 1)
  }

  /** `s.zfill(width)` for a string of digits: zeros on the left up to `width` characters. */
  function ZFill(s: string, width: nat): string
  {
    if |s| < width then Zeros(width - |s|) + s else s
  }

  /** Leading zeros do not change the number a digit string denotes. */
  lemma {:induction false} LeadingZerosValue(k: nat, s: string)
    requires AllDigits(s)
    ensures AllDigits(Zeros(k) + s) && DigitsValue(Zeros(k) + s) == DigitsValue(s)
  {
    if k > 0 {
      LeadingZerosValue(k - 1, s);
      var t := Zeros(k - 1) + s;
      assert Zeros(k) + s == ['0'] + t;
      assert (['0'] + t)[1..] == t;
      assert DigitsValue(['0'] + t) == DigitValue('0') * Pow10(|t|) + DigitsValue(t);
    } else {
      assert Zeros(k) + s == s;
    }
  }

  /** `str(n).zfill(width)` for a number of at most `width` digits: exactly `width` digits denoting `n`. */
  lemma ZFillDecimal(n: nat, width: nat)
    requires 1 <= width && n < Pow10(width)
    ensures var z := ZFill(NatToDecimal(n), width);
            |z| == width && AllDigits(z) && DigitsValue(z) == n
  {
    var s := NatToDecimal(n);
    NatToDecimalLength(n, width);
    NatToDecimalValue(n);
    if |s| < width {
      LeadingZerosValue(width - |s|, s);
    }
  }

  /** A string of digits, possibly signed, is path safe. */
  lemma DecimalPathSafe(rt: Runtime, s: string)
    requires rt.Valid()
    requires AllDigits(s) || (|s| > 0 && s[0] == '-' && AllDigits(s[1..]))
    ensures PathSafe(rt, s)
  {
    forall i | 0 <= i < |s| ensures PathChar(rt, s[i]) {
      if !AllDigits(s) && i > 0 {
        assert s[i] == s[1..][i - 1];
      }
      if IsDigit(s[i]) {
        assert s[i] as int < 128;
      }
    }
  }
}
