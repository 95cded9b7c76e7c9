/**
 * The index label of a company card: `String(index + 1).padStart(2, '0')`,
 * with `String` on a non-negative integer and ECMAScript's StringPad
 * (section 22.1.3.17.2 of ECMA-262, 2023 edition) written out.
 */
module CompanyCard {

  predicate IsDigit(c: char)
  {
    '0' <= c <= '9'
  }

  predicate AllDigits(s: string)
  {
    forall k :: 0 <= k < |s| ==> IsDigit(s[k])
  }

  function DigitChar(d: nat): (c: char)
    requires d < 10
    ensures IsDigit(c)
  {
    ('0' as int + d) as char
  }

  function DigitValue(c: char): (d: nat)
    requires IsDigit(c)
    ensures d < 10 && DigitChar(d) == c
  {
    c as int - '0' as int
  }

  /** `String(n)` for a non-negative integer: its decimal digits without leading zeros. */
  function Decimal(n: nat): (s: string)
    ensures |s| >= 1 && AllDigits(s)
    ensures n > 0 ==> s[0] != '0'
    ensures |s| == 1 <==> n < 10
  {
    if n < 10 then [DigitChar(n)] else Decimal(n / 10) + [DigitChar(n % 10)]
  }

  /** Reading a digit string as a decimal number. */
  function ParseDecimal(s: string): nat
    requires AllDigits(s)
  {
    if s == [] then 0 else ParseDecimal(s[..|s| - 1]) * 10 + DigitValue(s[|s| - 1])
  }

  /** `String` and reading back are inverse on non-negative integers. */
  lemma {:induction false} ParseDecimalOfDecimal(n: nat)
    ensures ParseDecimal(Decimal(n)) == n
  {
    var s := Decimal(n);
    if n < 10 {
      assert s[..0] == [];
      assert DigitValue(DigitChar(n)) == n;
    } else {
      ParseDecimalOfDecimal(n / 10);
      assert s[..|s| - 1] == Decimal(n / 10);
      assert DigitValue(DigitChar(n % 10)) == n % 10;
    }
  }

  /** Leading zeros do not change the value read. */
  lemma {:induction false} ParseDecimalLeadingZero(s: string)
    requires AllDigits(s)
    ensures AllDigits("0" + s) && ParseDecimal("0" + s) == ParseDecimal(s)
  {
    var t := "0" + s;
    if s == [] {
      assert t[..0] == [];
    } else {
      ParseDecimalLeadingZero(s[..|s| - 1]);
      assert t[..|t| - 1] == "0" + s[..|s| - 1];
      assert t[|t| - 1] == s[|s| - 1];
    }
  }

  lemma MulAwayFromZero(d: int, m: int)
    requires m > 0
    ensures d >= 1 ==> d * m >= m
    ensures d <= -1 ==> d * m <= -m
  {
    assert d * m == (d - 1) * m + m;
    assert d * m == (d + 1) * m - m;
  }

  /** Euclidean remainders are unique: any k = q * m + r with 0 <= r < m has k % m == r. */
  lemma ModUnique(k: int, m: int, q: int, r: int)
    requires m > 0 && 0 <= r < m && k == q * m + r
    ensures k % m == r
  {
    var q', r' := k / m, k % m;
    assert k == q' * m + r';
    assert (q - q') * m == r' - r;
    MulAwayFromZero(q - q', m);
  }

  /** Shifting by one period does not change the remainder. */
  lemma ModShift(k: int, m: int)
    requires m > 0 && k >= m
    ensures (k - m) % m == k % m
  {
    var q, r := (k - m) / m, (k - m) % m;
    assert k - m == q * m + r;
    assert k == (q + 1) * m + r;
    ModUnique(k, m, q + 1, r);
  }

  /** A prefix of at most one period of `fill` is `fill` read at k mod its length. */
  lemma RepeatBase(fill: string, n: nat)
    requires 0 < |fill| && n <= |fill|
    ensures forall k :: 0 <= k < n ==> fill[..n][k] == fill[k % |fill|]
  {
    forall k | 0 <= k < n ensures fill[..n][k] == fill[k % |fill|] {
      ModUnique(k, |fill|, 0, k);
    }
  }

  /** One more period in front of a repetition of `fill` is still a repetition of `fill`. */
  lemma RepeatStep(fill: string, rest: string)
    requires 0 < |fill|
    requires forall k :: 0 <= k < |rest| ==> rest[k] == fill[k % |fill|]
    ensures forall k :: 0 <= k < |fill + rest| ==> (fill + rest)[k] == fill[k % |fill|]
  {
    var m := |fill|;
    forall k | 0 <= k < |fill + rest| ensures (fill + rest)[k] == fill[k % m] {
      if k < m {
        ModUnique(k, m, 0, k);
      } else {
        ModShift(k, m);
        assert (fill + rest)[k] == rest[k - m];
      }
    }
  }

  /** StringPad's truncated filler: `fill` repeated and cut to n characters. */
  function Filler(fill: string, n: nat): (r: string)
    requires |fill| > 0
    ensures |r| == n
    ensures forall k :: 0 <= k < n ==> r[k] == fill[k % |fill|]
    decreases n
  {
    if n <= |fill| then
      RepeatBase(fill, n);
      fill[..n]
    else
      var rest := Filler(fill, n - |fill|);
      RepeatStep(fill, rest);
      fill + rest
  }

  /** `s.padStart(maxLength, fill)`: the truncated filler, then s. */
  function PadStart(s: string, maxLength: int, fill: string): (r: string)
    ensures maxLength <= |s| || fill == [] ==> r == s
    ensures maxLength > |s| && fill != [] ==> |r| == maxLength && r[maxLength - |s|..] == s
    ensures maxLength > |s| && fill != [] ==>
      forall k :: 0 <= k < maxLength - |s| ==> r[k] == fill[k % |fill|]
  {
    if maxLength <= |s| then s
    else if fill == [] then s
    else Filler(fill, maxLength - |s|) + s
  }

  /** The label shown on the card at list position `index`. */
  function IndexLabel(index: nat): (text: string)
    ensures var d := Decimal(index + 1);
      && |text| == (if |d| < 2 then 2 else |d|)
      && text[|text| - |d|..] == d
      && forall k :: 0 <= k < |text| - |d| ==> text[k] == '0'
  {
    PadStart(Decimal(index + 1), 2, "0")
  }

  /** Every label has at least two characters, all of them digits. */
  lemma IndexLabelDigits(index: nat)
    ensures |IndexLabel(index)| >= 2 && AllDigits(IndexLabel(index))
  {
    var d := Decimal(index + 1);
    if |d| < 2 {
      var l := IndexLabel(index);
      assert l == Filler("0", 1) + d;
      assert l[0] == '0' && l[1] == d[0];
    }
  }

  /** Positions 0 to 8 get a '0' followed by the one digit of index + 1. */
  lemma IndexLabelSingleDigit(index: nat)
    requires index < 9
    ensures IndexLabel(index) == ['0', DigitChar(index + 1)]
  {
    assert Decimal(index + 1) == [DigitChar(index + 1)];
    assert Filler("0", 1) == "0";
  }

  /** From position 9 on no padding is added: the label is `String(index + 1)`. */
  lemma IndexLabelNoPadding(index: nat)
    requires index >= 9
    ensures IndexLabel(index) == Decimal(index + 1)
  {
  }

  /** Reading a label back gives index + 1. */
  lemma IndexLabelRoundTrip(index: nat)
    ensures AllDigits(IndexLabel(index)) && ParseDecimal(IndexLabel(index)) == index + 1
  {
    var d := Decimal(index + 1);
    ParseDecimalOfDecimal(index + 1);
    if index < 9 {
      assert Filler("0", 1) == "0";
      assert IndexLabel(index) == "0" + d;
      ParseDecimalLeadingZero(d);
    }
  }
}
