/** Bytes as they go over the wire, and decimal numbers written in them. */
module Bytes {
  import opened Common

  type Byte = b: int | 0 <= b < 256

  const SOH: Byte := 1
  const EQUALS: Byte := 61

  predicate IsDigit(b: Byte) { 48 <= b <= 57 }

  /** Python's bytes.isdigit(): false of no bytes at all. */
  predicate AllDigits(s: seq<Byte>) {
    s != [] && forall i :: 0 <= i < |s| ==> IsDigit(s[i])
  }

  /** The first position of a byte from `lo` on and before `hi`, as bytes.find with bounds. */
  function FindIn(s: seq<Byte>, b: Byte, lo: nat, hi: nat): (r: Option<nat>)
    ensures r.Some? ==> lo <= r.value < hi && r.value < |s| && s[r.value] == b
    ensures r.Some? ==> forall j :: lo <= j < r.value ==> s[j] != b
    ensures r.None? ==> forall j :: lo <= j < hi && j < |s| ==> s[j] != b
    decreases hi - lo
  {
    if lo >= hi || lo >= |s| then None
    else if s[lo] == b then Some(lo)
    else FindIn(s, b, lo + 1, hi)
  }

  /** What is found is found in any longer input; what is not found in a window already full never is. */
  lemma FindIsStable(s: seq<Byte>, more: seq<Byte>, b: Byte, lo: nat, hi: nat)
    ensures FindIn(s, b, lo, hi).Some? ==> FindIn(s + more, b, lo, hi) == FindIn(s, b, lo, hi)
    ensures FindIn(s, b, lo, hi).None? && hi <= |s| ==> FindIn(s + more, b, lo, hi).None?
  {
    hide FindIn;
    var t := s + more;
    assert forall j :: 0 <= j < |s| ==> t[j] == s[j];
  }

  /** Where the search lands is decided by the bytes up to the first occurrence. */
  lemma FindLands(s: seq<Byte>, b: Byte, lo: nat, hi: nat, at: nat)
    requires lo <= at < hi && at < |s| && s[at] == b && forall j :: lo <= j < at ==> s[j] != b
    ensures FindIn(s, b, lo, hi) == Some(at)
  {
    hide FindIn;
    var r := FindIn(s, b, lo, hi);
  }

  // ----- Decimal numbers -----

  function Digits(n: nat): (s: seq<Byte>)
    ensures AllDigits(s)
  {
    if n < 10 then [48 + n] else Digits(n / 10) + [48 + n % 10]
  }

  /** The number digits stand for; other bytes count as whatever their code is above that of zero. */
  function ValueOf(s: seq<Byte>): int {
    if s == [] then 0 else ValueOf(s[..|s| - 1]) * 10 + (s[|s| - 1] as int - 48)
  }

  lemma {:induction false} ValueIsNatural(s: seq<Byte>)
    requires forall i :: 0 <= i < |s| ==> IsDigit(s[i])
    ensures ValueOf(s) >= 0
  {
    if s != [] { ValueIsNatural(s[..|s| - 1]); }
  }

  lemma {:induction false} DigitsRoundTrip(n: nat)
    ensures ValueOf(Digits(n)) == n
  {
    if n >= 10 {
      DigitsRoundTrip(n / 10);
      var s := Digits(n / 10);
      assert (s + [48 + n % 10])[..|s|] == s;
    } else {
      assert Digits(n)[..0] == [];
    }
  }

  lemma {:induction false} NoLeadingZero(n: nat)
    requires n > 0
    ensures Digits(n)[0] != 48
  {
    if n >= 10 { NoLeadingZero(n / 10); }
  }

  function Pow10(k: nat): nat { if k == 0 then 1 else 10 * Pow10(k - 1) }

  /** A number has at most `k` digits exactly when it is below the `k`th power of ten. */
  lemma {:induction false} DigitCount(n: nat, k: nat)
    requires k >= 1
    ensures |Digits(n)| <= k <==> n < Pow10(k)
  {
    if n < 10 {
      PowGrows(k);
    } else if k == 1 {
      assert Pow10(1) == 10 * Pow10(0);
    } else {
      DigitCount(n / 10, k - 1);
      assert n < 10 * Pow10(k - 1) <==> n / 10 < Pow10(k - 1);
    }
  }

  lemma {:induction false} PowGrows(k: nat)
    requires k >= 1
    ensures Pow10(k) >= 10
  {
    if k > 1 { PowGrows(k - 1); }
  }

  lemma {:induction false} LongerIsLarger(n: nat, m: nat)
    requires n <= m
    ensures |Digits(n)| <= |Digits(m)|
  {
    if m >= 10 && n >= 10 { LongerIsLarger(n / 10, m / 10); }
  }

  /** Cutting digits off the end of a number makes it smaller. */
  lemma {:induction false} FewerDigitsIsLess(n: nat, k: nat)
    requires k < |Digits(n)|
    ensures ValueOf(Digits(n)[..k]) < n || n == 0
  {
    if n >= 10 {
      var s := Digits(n / 10);
      assert Digits(n)[..k] == s[..k];
      if k < |s| {
        FewerDigitsIsLess(n / 10, k);
      } else {
        assert s[..k] == s;
        DigitsRoundTrip(n / 10);
      }
    } else {
      assert Digits(n)[..k] == [];
    }
  }

  // ----- CheckSum -----

  function Sum(s: seq<Byte>): nat {
    if s == [] then 0 else Sum(s[..|s| - 1]) + s[|s| - 1]
  }

  /** The FIX CheckSum: the byte sum modulo 256. */
  function Checksum(s: seq<Byte>): nat { Sum(s) % 256 }

  /** Three digits, padded with zeros. */
  function ThreeDigits(n: nat): (s: seq<Byte>)
    requires n < 1000
    ensures |s| == 3 && AllDigits(s)
  {
    [48 + n / 100] + [48 + n / 10 % 10] + [48 + n % 10]
  }

  lemma ValueOfAppend(s: seq<Byte>, b: Byte)
    ensures ValueOf(s + [b]) == ValueOf(s) * 10 + (b as int - 48)
  {
    assert (s + [b])[..|s|] == s;
  }

  lemma ThreeDigitsRoundTrip(n: nat)
    requires n < 1000
    ensures ValueOf(ThreeDigits(n)) == n
  {
    hide ValueOf;
    var a: Byte, b: Byte, c: Byte := 48 + n / 100, 48 + n / 10 % 10, 48 + n % 10;
    ValueOfNothing();
    assert [] + [a] == [a];
    ValueOfAppend([], a);
    ValueOfAppend([a], b);
    ValueOfAppend([a] + [b], c);
  }

  lemma ValueOfNothing()
    ensures ValueOf([]) == 0
  {
  }
}
