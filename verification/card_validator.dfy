/** Card checks performed before a payment is recorded: separator stripping,
    the Luhn mod-10 checksum (ISO/IEC 7812-1, Annex B), brand detection by
    prefix, the ordered short-circuiting validator, and masking. */
module CardValidator {
  import opened Results

  // ---------------------------------------------------------------------------
  // Characters and normalisation
  // ---------------------------------------------------------------------------

  /** What the pattern `[\s-]` removes, restricted to ASCII: the dash and the
      whitespace characters tab, line feed, vertical tab, form feed, carriage
      return, the four information separators 0x1C-0x1F, and space. */
  predicate IsSeparator(c: char) {
    c == '-' || (9 <= c as int <= 13) || (28 <= c as int <= 32)
  }

  predicate IsDigit(c: char) {
    '0' <= c <= '9'
  }

  /** Every character is a decimal digit (the empty string qualifies). */
  predicate AllDigits(s: string) {
    forall i :: 0 <= i < |s| ==> IsDigit(s[i])
  }

  /** Python's `str.isdigit()`: non-empty and all digits. */
  predicate IsDigitString(s: string) {
    |s| > 0 && AllDigits(s)
  }

  function DigitValue(c: char): (d: nat)
    requires IsDigit(c)
    ensures d <= 9
  {
    c as int - '0' as int
  }

  /** Removes every separator, keeping the other characters in order. */
  function Normalize(s: string): (r: string)
    ensures |r| <= |s|
    ensures forall i :: 0 <= i < |r| ==> !IsSeparator(r[i])
  {
    if s == [] then []
    else (if IsSeparator(s[0]) then [] else [s[0]]) + Normalize(s[1..])
  }

  /** Normalisation distributes over concatenation, so it acts character by character. */
  lemma {:induction false} NormalizeConcat(a: string, b: string)
    ensures Normalize(a + b) == Normalize(a) + Normalize(b)
  {
    if a != [] {
      assert (a + b)[1..] == a[1..] + b;
      NormalizeConcat(a[1..], b);
    } else {
      assert a + b == b;
    }
  }

  /** A string without separators is its own normal form. */
  lemma {:induction false} NormalizeFixesClean(s: string)
    requires forall i :: 0 <= i < |s| ==> !IsSeparator(s[i])
    ensures Normalize(s) == s
  {
    if s != [] {
      NormalizeFixesClean(s[1..]);
      assert [s[0]] + s[1..] == s;
    }
  }

  /** Normalising twice is normalising once. */
  /** On a single character, normalisation drops a separator and keeps anything
      else; with NormalizeConcat this fixes the result on every string. */
  lemma NormalizeSingle(c: char)
    ensures Normalize([c]) == if IsSeparator(c) then [] else [c]
  {
    assert [c][1..] == [];
  }

  lemma NormalizeIdempotent(s: string)
    ensures Normalize(Normalize(s)) == Normalize(s)
  {
    NormalizeFixesClean(Normalize(s));
  }

  // ---------------------------------------------------------------------------
  // Luhn checksum
  // ---------------------------------------------------------------------------

  /** `digits_of`: the value of each character. */
  function Digits(s: string): (ds: seq<nat>)
    requires AllDigits(s)
    ensures |ds| == |s|
    ensures forall i :: 0 <= i < |s| ==> ds[i] == DigitValue(s[i]) && ds[i] <= 9
  {
    seq(|s|, i requires 0 <= i < |s| => DigitValue(s[i]))
  }

  /** `sum(digits_of(n))`: the sum of the decimal digits of n. */
  function DecimalDigitSum(n: nat): nat {
    if n < 10 then n else n % 10 + DecimalDigitSum(n / 10)
  }

  /** The slice `ds[-1::-2]`: every other element, starting from the last. */
  function EveryOtherFromRight(ds: seq<nat>): seq<nat>
    decreases |ds|
  {
    if |ds| == 0 then []
    else if |ds| == 1 then [ds[0]]
    else [ds[|ds| - 1]] + EveryOtherFromRight(ds[..|ds| - 2])
  }

  /** The slice `ds[-2::-2]`: every other element, starting from the second last. */
  function EveryOtherFromSecondRight(ds: seq<nat>): seq<nat> {
    if |ds| == 0 then [] else EveryOtherFromRight(ds[..|ds| - 1])
  }

  function Sum(xs: seq<nat>): nat {
    if xs == [] then 0 else xs[0] + Sum(xs[1..])
  }

  function SumOfDoubledDigitSums(xs: seq<nat>): nat {
    if xs == [] then 0 else DecimalDigitSum(2 * xs[0]) + SumOfDoubledDigitSums(xs[1..])
  }

  /** The checksum of `luhn_check`: the sum of the slice `[-1::-2]` (every other
      digit from the right, undoubled), plus the digit sums of the doubled slice
      `[-2::-2]`. */
  function LuhnChecksum(s: string): nat
    requires AllDigits(s)
  {
    var ds := Digits(s);
    Sum(EveryOtherFromRight(ds)) + SumOfDoubledDigitSums(EveryOtherFromSecondRight(ds))
  }

  /** `luhn_check`: the checksum is a multiple of ten, which is the Annex B
      check (proved below). */
  predicate LuhnCheck(s: string)
    requires AllDigits(s)
    ensures LuhnCheck(s) <==> AnnexBTotal(Digits(s), false) % 10 == 0
  {
    SlicesMatchAnnexB(Digits(s));
    LuhnChecksum(s) % 10 == 0
  }

  /** Annex B of ISO/IEC 7812-1 as a reference: walking from the right, a digit
      at an even offset counts as itself, a digit at an odd offset is doubled and
      reduced by nine when the product exceeds nine. */
  function AnnexBWeight(d: nat, doubled: bool): nat {
    if !doubled then d else if 2 * d > 9 then 2 * d - 9 else 2 * d
  }

  function AnnexBTotal(ds: seq<nat>, doubled: bool): nat {
    if ds == [] then 0
    else AnnexBWeight(ds[|ds| - 1], doubled) + AnnexBTotal(ds[..|ds| - 1], !doubled)
  }

  /** For a single digit, summing the digits of its double is subtracting nine
      from a two-digit double. */
  lemma DoubledDigitSum(d: nat)
    requires d <= 9
    ensures DecimalDigitSum(2 * d) == AnnexBWeight(d, true)
  {
    if 2 * d >= 10 {
      assert DecimalDigitSum(2 * d) == (2 * d) % 10 + DecimalDigitSum((2 * d) / 10);
    }
  }

  lemma {:induction false} SumOfDoubledPrepend(d: nat, xs: seq<nat>)
    ensures SumOfDoubledDigitSums([d] + xs) == DecimalDigitSum(2 * d) + SumOfDoubledDigitSums(xs)
  {
    assert ([d] + xs)[1..] == xs;
  }

  lemma {:induction false} SumPrepend(d: nat, xs: seq<nat>)
    ensures Sum([d] + xs) == d + Sum(xs)
  {
    assert ([d] + xs)[1..] == xs;
  }

  /** The slices `[-1::-2]` and `[-2::-2]` of `luhn_check` account for exactly
      the Annex B total. */
  lemma {:induction false} SlicesMatchAnnexB(ds: seq<nat>)
    requires forall i :: 0 <= i < |ds| ==> ds[i] <= 9
    ensures Sum(EveryOtherFromRight(ds)) + SumOfDoubledDigitSums(EveryOtherFromSecondRight(ds))
            == AnnexBTotal(ds, false)
  {
    var n := |ds|;
    if n == 0 {
    } else if n == 1 {
      assert ds[..0] == [];
      assert EveryOtherFromRight(ds) == [ds[0]];
      SumPrepend(ds[0], []);
    } else {
      var rest := ds[..n - 2];
      var init := ds[..n - 1];
      assert init[..n - 2] == rest;
      assert ds[..n - 1][..n - 2] == rest;
      SlicesMatchAnnexB(rest);
      // the undoubled slice: the last digit, then the same slice of `rest`
      assert EveryOtherFromRight(ds) == [ds[n - 1]] + EveryOtherFromRight(rest);
      SumPrepend(ds[n - 1], EveryOtherFromRight(rest));
      // the doubled slice: the second-last digit, then the doubled slice of `rest`
      if n == 2 {
        assert EveryOtherFromRight(init) == [ds[0]];
        assert EveryOtherFromSecondRight(rest) == [];
      } else {
        assert EveryOtherFromRight(init) == [init[n - 2]] + EveryOtherFromRight(init[..n - 3]);
        assert init[..n - 3] == rest[..n - 3];
      }
      assert EveryOtherFromSecondRight(ds) == [ds[n - 2]] + EveryOtherFromSecondRight(rest);
      SumOfDoubledPrepend(ds[n - 2], EveryOtherFromSecondRight(rest));
      DoubledDigitSum(ds[n - 2]);
      assert AnnexBTotal(ds, false) == ds[n - 1] + AnnexBTotal(init, true);
      assert AnnexBTotal(init, true) == AnnexBWeight(ds[n - 2], true) + AnnexBTotal(rest, false);
    }
  }

  /** `luhn_check` agrees with the Annex B mod-10 check on every digit string. */
  lemma LuhnMatchesAnnexB(s: string)
    requires AllDigits(s)
    ensures LuhnCheck(s) <==> AnnexBTotal(Digits(s), false) % 10 == 0
  {
    SlicesMatchAnnexB(Digits(s));
  }

  /** The check digit that completes `payload` to a Luhn-valid number. */
  function CheckDigit(payload: string): (d: nat)
    requires AllDigits(payload)
    ensures d <= 9
  {
    (10 - AnnexBTotal(Digits(payload), true) % 10) % 10
  }

  lemma AllDigitsAppend(payload: string, c: char)
    requires AllDigits(payload) && IsDigit(c)
    ensures AllDigits(payload + [c])
    ensures Digits(payload + [c]) == Digits(payload) + [DigitValue(c)]
  {
    var s := payload + [c];
    forall i | 0 <= i < |s| ensures IsDigit(s[i]) {
      if i < |payload| { assert s[i] == payload[i]; }
    }
  }

  /** Among the digits 0..9, exactly one brings a total to a multiple of ten. */
  lemma CompletingDigit(d: nat, total: nat)
    requires d <= 9
    ensures (d + total) % 10 == 0 <==> d == (10 - total % 10) % 10
  {
    var q, r := total / 10, total % 10;
    assert total == 10 * q + r;
    assert (d + total) % 10 == (d + r) % 10 by {
      assert d + total == (d + r) + 10 * q;
    }
  }

  /** With every other digit fixed, exactly one last digit passes `luhn_check`. */
  lemma ExactlyOneCheckDigit(payload: string, c: char)
    requires AllDigits(payload) && IsDigit(c)
    ensures AllDigits(payload + [c])
    ensures LuhnCheck(payload + [c]) <==> DigitValue(c) == CheckDigit(payload)
  {
    AllDigitsAppend(payload, c);
    var ds := Digits(payload) + [DigitValue(c)];
    assert ds[..|ds| - 1] == Digits(payload);
    LuhnMatchesAnnexB(payload + [c]);
    CompletingDigit(DigitValue(c), AnnexBTotal(Digits(payload), true));
  }

  /** Appending two digits adds the undoubled last digit and the doubled one before it. */
  lemma AnnexBAppendPair(ds: seq<nat>, a: nat, b: nat)
    ensures AnnexBTotal(ds + [a, b], false) == b + AnnexBWeight(a, true) + AnnexBTotal(ds, false)
  {
    var s := ds + [a, b];
    assert s[..|s| - 1] == ds + [a];
    assert s[..|s| - 1][..|s| - 2] == ds;
  }

  /** The Annex B total of 4242424242424242. */
  lemma AnnexB4242()
    ensures AnnexBTotal([4, 2, 4, 2, 4, 2, 4, 2, 4, 2, 4, 2, 4, 2, 4, 2], false) == 80
  {
    AnnexBAppendPair([], 4, 2);
    assert [4, 2] == [] + [4, 2];
    AnnexBAppendPair([4, 2], 4, 2);
    assert [4, 2, 4, 2] == [4, 2] + [4, 2];
    AnnexBAppendPair([4, 2, 4, 2], 4, 2);
    assert [4, 2, 4, 2, 4, 2] == [4, 2, 4, 2] + [4, 2];
    AnnexBAppendPair([4, 2, 4, 2, 4, 2], 4, 2);
    assert [4, 2, 4, 2, 4, 2, 4, 2] == [4, 2, 4, 2, 4, 2] + [4, 2];
    AnnexBAppendPair([4, 2, 4, 2, 4, 2, 4, 2], 4, 2);
    assert [4, 2, 4, 2, 4, 2, 4, 2, 4, 2] == [4, 2, 4, 2, 4, 2, 4, 2] + [4, 2];
    AnnexBAppendPair([4, 2, 4, 2, 4, 2, 4, 2, 4, 2], 4, 2);
    assert [4, 2, 4, 2, 4, 2, 4, 2, 4, 2, 4, 2] == [4, 2, 4, 2, 4, 2, 4, 2, 4, 2] + [4, 2];
    AnnexBAppendPair([4, 2, 4, 2, 4, 2, 4, 2, 4, 2, 4, 2], 4, 2);
    assert [4, 2, 4, 2, 4, 2, 4, 2, 4, 2, 4, 2, 4, 2] == [4, 2, 4, 2, 4, 2, 4, 2, 4, 2, 4, 2] + [4, 2];
    AnnexBAppendPair([4, 2, 4, 2, 4, 2, 4, 2, 4, 2, 4, 2, 4, 2], 4, 2);
    assert [4, 2, 4, 2, 4, 2, 4, 2, 4, 2, 4, 2, 4, 2, 4, 2] == [4, 2, 4, 2, 4, 2, 4, 2, 4, 2, 4, 2, 4, 2] + [4, 2];
  }

  /** 4242424242424242 passes `luhn_check`. */
  lemma Luhn4242()
    ensures LuhnCheck("4242424242424242")
  {
    assert Digits("4242424242424242") == [4, 2, 4, 2, 4, 2, 4, 2, 4, 2, 4, 2, 4, 2, 4, 2];
    AnnexB4242();
    LuhnMatchesAnnexB("4242424242424242");
  }

  /** Corrupting the last digit of 4242424242424242 makes it fail. */
  lemma Luhn4241()
    ensures !LuhnCheck("4242424242424241")
  {
    Luhn4242();
    assert "4242424242424242" == "424242424242424" + ['2'];
    assert "4242424242424241" == "424242424242424" + ['1'];
    ExactlyOneCheckDigit("424242424242424", '2');
    ExactlyOneCheckDigit("424242424242424", '1');
  }
  /** The Annex B total of 4000000000000002. */
  lemma AnnexB0002()
    ensures AnnexBTotal([4, 0, 0, 0, 0, 0, 0, 0, 0, 0, 0, 0, 0, 0, 0, 2], false) == 10
  {
    AnnexBAppendPair([], 4, 0);
    assert [4, 0] == [] + [4, 0];
    AnnexBAppendPair([4, 0], 0, 0);
    assert [4, 0, 0, 0] == [4, 0] + [0, 0];
    AnnexBAppendPair([4, 0, 0, 0], 0, 0);
    assert [4, 0, 0, 0, 0, 0] == [4, 0, 0, 0] + [0, 0];
    AnnexBAppendPair([4, 0, 0, 0, 0, 0], 0, 0);
    assert [4, 0, 0, 0, 0, 0, 0, 0] == [4, 0, 0, 0, 0, 0] + [0, 0];
    AnnexBAppendPair([4, 0, 0, 0, 0, 0, 0, 0], 0, 0);
    assert [4, 0, 0, 0, 0, 0, 0, 0, 0, 0] == [4, 0, 0, 0, 0, 0, 0, 0] + [0, 0];
    AnnexBAppendPair([4, 0, 0, 0, 0, 0, 0, 0, 0, 0], 0, 0);
    assert [4, 0, 0, 0, 0, 0, 0, 0, 0, 0, 0, 0] == [4, 0, 0, 0, 0, 0, 0, 0, 0, 0] + [0, 0];
    AnnexBAppendPair([4, 0, 0, 0, 0, 0, 0, 0, 0, 0, 0, 0], 0, 0);
    assert [4, 0, 0, 0, 0, 0, 0, 0, 0, 0, 0, 0, 0, 0] == [4, 0, 0, 0, 0, 0, 0, 0, 0, 0, 0, 0] + [0, 0];
    AnnexBAppendPair([4, 0, 0, 0, 0, 0, 0, 0, 0, 0, 0, 0, 0, 0], 0, 2);
    assert [4, 0, 0, 0, 0, 0, 0, 0, 0, 0, 0, 0, 0, 0, 0, 2] == [4, 0, 0, 0, 0, 0, 0, 0, 0, 0, 0, 0, 0, 0] + [0, 2];
  }

  /** The Annex B total of 4000000000009995. */
  lemma AnnexB9995()
    ensures AnnexBTotal([4, 0, 0, 0, 0, 0, 0, 0, 0, 0, 0, 0, 9, 9, 9, 5], false) == 40
  {
    AnnexBAppendPair([], 4, 0);
    assert [4, 0] == [] + [4, 0];
    AnnexBAppendPair([4, 0], 0, 0);
    assert [4, 0, 0, 0] == [4, 0] + [0, 0];
    AnnexBAppendPair([4, 0, 0, 0], 0, 0);
    assert [4, 0, 0, 0, 0, 0] == [4, 0, 0, 0] + [0, 0];
    AnnexBAppendPair([4, 0, 0, 0, 0, 0], 0, 0);
    assert [4, 0, 0, 0, 0, 0, 0, 0] == [4, 0, 0, 0, 0, 0] + [0, 0];
    AnnexBAppendPair([4, 0, 0, 0, 0, 0, 0, 0], 0, 0);
    assert [4, 0, 0, 0, 0, 0, 0, 0, 0, 0] == [4, 0, 0, 0, 0, 0, 0, 0] + [0, 0];
    AnnexBAppendPair([4, 0, 0, 0, 0, 0, 0, 0, 0, 0], 0, 0);
    assert [4, 0, 0, 0, 0, 0, 0, 0, 0, 0, 0, 0] == [4, 0, 0, 0, 0, 0, 0, 0, 0, 0] + [0, 0];
    AnnexBAppendPair([4, 0, 0, 0, 0, 0, 0, 0, 0, 0, 0, 0], 9, 9);
    assert [4, 0, 0, 0, 0, 0, 0, 0, 0, 0, 0, 0, 9, 9] == [4, 0, 0, 0, 0, 0, 0, 0, 0, 0, 0, 0] + [9, 9];
    AnnexBAppendPair([4, 0, 0, 0, 0, 0, 0, 0, 0, 0, 0, 0, 9, 9], 9, 5);
    assert [4, 0, 0, 0, 0, 0, 0, 0, 0, 0, 0, 0, 9, 9, 9, 5] == [4, 0, 0, 0, 0, 0, 0, 0, 0, 0, 0, 0, 9, 9] + [9, 5];
  }

  // ---------------------------------------------------------------------------
  // Brand detection
  // ---------------------------------------------------------------------------

  datatype Brand = Card | Mastercard | Amex | Discover | Jcb | Unknown {
    function Name(): string {
      match this
      case Card => "card"
      case Mastercard => "mastercard"
      case Amex => "amex"
      case Discover => "discover"
      case Jcb => "jcb"
      case Unknown => "unknown"
    }
  }

  predicate StartsWith(s: string, prefix: string) {
    |prefix| <= |s| && s[..|prefix|] == prefix
  }

  predicate StartsWithAny(s: string, prefixes: seq<string>) {
    exists i :: 0 <= i < |prefixes| && StartsWith(s, prefixes[i])
  }

  /** The brand patterns written out as the literal prefixes they match, in the
      order they are tried. */
  const BrandTable: seq<(Brand, seq<string>)> := [
    (Card, ["4"]),
    (Mastercard, ["51", "52", "53", "54", "55", "22", "23", "24", "25", "26", "27"]),
    (Amex, ["34", "37"]),
    (Discover, ["6011", "65"]),
    (Jcb, ["35"])
  ]

  /** The first row of `table` one of whose prefixes starts `s`; Unknown if none does. */
  function FirstMatch(s: string, table: seq<(Brand, seq<string>)>): Brand {
    if table == [] then Unknown
    else if StartsWithAny(s, table[0].1) then table[0].0
    else FirstMatch(s, table[1..])
  }

  /** The patterns `^4`, `^5[1-5]|^2[2-7]`, `^3[47]`, `^6(?:011|5)` and `^35`,
      tried in that order on a normalised number `n`. */
  function BrandByPatterns(n: string): Brand {
    if |n| >= 1 && n[0] == '4' then Card
    else if |n| >= 2 && ((n[0] == '5' && '1' <= n[1] <= '5') || (n[0] == '2' && '2' <= n[1] <= '7')) then Mastercard
    else if |n| >= 2 && n[0] == '3' && (n[1] == '4' || n[1] == '7') then Amex
    else if (|n| >= 4 && n[..4] == "6011") || (|n| >= 2 && n[..2] == "65") then Discover
    else if |n| >= 2 && n[..2] == "35" then Jcb
    else Unknown
  }

  /** Each pattern matches exactly the prefixes its table row lists. */
  lemma BrandPatternRows(n: string)
    ensures StartsWithAny(n, BrandTable[0].1) <==> |n| >= 1 && n[0] == '4'
    ensures StartsWithAny(n, BrandTable[1].1)
            <==> |n| >= 2 && ((n[0] == '5' && '1' <= n[1] <= '5') || (n[0] == '2' && '2' <= n[1] <= '7'))
    ensures StartsWithAny(n, BrandTable[2].1) <==> |n| >= 2 && n[0] == '3' && (n[1] == '4' || n[1] == '7')
    ensures StartsWithAny(n, BrandTable[3].1) <==> (|n| >= 4 && n[..4] == "6011") || (|n| >= 2 && n[..2] == "65")
    ensures StartsWithAny(n, BrandTable[4].1) <==> |n| >= 2 && n[..2] == "35"
  {
    var mc := BrandTable[1].1;
    if |n| >= 2 && ((n[0] == '5' && '1' <= n[1] <= '5') || (n[0] == '2' && '2' <= n[1] <= '7')) {
      var i := if n[0] == '5' then n[1] as int - '1' as int else 5 + n[1] as int - '2' as int;
      assert StartsWith(n, mc[i]);
    }
    if |n| >= 2 && n[0] == '3' && (n[1] == '4' || n[1] == '7') {
      assert StartsWith(n, BrandTable[2].1[if n[1] == '4' then 0 else 1]);
    }
    if |n| >= 1 && n[0] == '4' {
      assert StartsWith(n, BrandTable[0].1[0]);
    }
    if |n| >= 4 && n[..4] == "6011" {
      assert StartsWith(n, BrandTable[3].1[0]);
    }
    if |n| >= 2 && n[..2] == "65" {
      assert StartsWith(n, BrandTable[3].1[1]);
    }
    if |n| >= 2 && n[..2] == "35" {
      assert StartsWith(n, BrandTable[4].1[0]);
    }
  }

  /** Trying the patterns in order picks the brand of the first table row that
      matches. */
  lemma BrandIsFirstMatch(n: string)
    ensures BrandByPatterns(n) == FirstMatch(n, BrandTable)
  {
    BrandPatternRows(n);
    var t := BrandTable;
    assert FirstMatch(n, t[4..]) == if StartsWithAny(n, t[4].1) then Jcb else Unknown by {
      assert t[4..][0] == t[4] && t[4..][1..] == [];
    }
    assert FirstMatch(n, t[3..]) == if StartsWithAny(n, t[3].1) then Discover else FirstMatch(n, t[4..]) by {
      assert t[3..][0] == t[3] && t[3..][1..] == t[4..];
    }
    assert FirstMatch(n, t[2..]) == if StartsWithAny(n, t[2].1) then Amex else FirstMatch(n, t[3..]) by {
      assert t[2..][0] == t[2] && t[2..][1..] == t[3..];
    }
    assert FirstMatch(n, t[1..]) == if StartsWithAny(n, t[1].1) then Mastercard else FirstMatch(n, t[2..]) by {
      assert t[1..][0] == t[1] && t[1..][1..] == t[2..];
    }
  }

  /** `get_card_brand`: the brand of the first row of the prefix table that the
      normalised number matches, or Unknown. */
  function GetCardBrand(number: string): (b: Brand)
    ensures b == FirstMatch(Normalize(number), BrandTable)
  {
    var n := Normalize(number);
    BrandIsFirstMatch(n);
    BrandByPatterns(n)
  }

  /** No number matches two rows, so the order of the table does not change the
      result: the brand is determined by its own row alone. */
  lemma BrandRowsDisjoint(number: string, i: nat, j: nat)
    requires i < j < |BrandTable|
    ensures !(StartsWithAny(Normalize(number), BrandTable[i].1) && StartsWithAny(Normalize(number), BrandTable[j].1))
  {
    BrandPatternRows(Normalize(number));
  }

  // ---------------------------------------------------------------------------
  // Validation
  // ---------------------------------------------------------------------------

  /** The current year and month, read from the clock by the caller. */
  datatype YearMonth = YearMonth(year: int, month: int)

  /** The card's expiry is before the current month: the pairs (year, month)
      compared lexicographically. */
  predicate IsExpired(expMonth: int, expYear: int, today: YearMonth)
    ensures 1 <= expMonth <= 12 && 1 <= today.month <= 12 ==>
              (IsExpired(expMonth, expYear, today) <==> expYear * 12 + expMonth < today.year * 12 + today.month)
  {
    expYear < today.year || (expYear == today.year && expMonth < today.month)
  }

  /** With months in 1..12, "expired" is "the expiry month's index precedes the
      current one", and a card expiring this month is not expired. */
  lemma ExpiryIsMonthOrder(expMonth: int, expYear: int, today: YearMonth)
    requires 1 <= expMonth <= 12 && 1 <= today.month <= 12
    ensures IsExpired(expMonth, expYear, today) <==> expYear * 12 + expMonth < today.year * 12 + today.month
    ensures !IsExpired(today.month, today.year, today)
  {
  }

  predicate IsValidCvc(cvc: string) {
    IsDigitString(cvc) && (|cvc| == 3 || |cvc| == 4)
  }

  /** Test numbers the issuer always declines. */
  const DeclinedTestCards: seq<string> := ["4000000000000002", "4000000000009995"]

  /** The reasons `validate_card` can give, one per check. */
  datatype Rejection = BadLength | NotAllDigits | BadChecksum | CardExpired | BadCvc | DeclinedByIssuer {
    function Reason(): string {
      match this
      case BadLength => "Invalid card number length"
      case NotAllDigits => "Card number must contain only digits"
      case BadChecksum => "Invalid card number"
      case CardExpired => "Card has expired"
      case BadCvc => "Invalid CVC"
      case DeclinedByIssuer => "Card declined by issuer"
    }
  }

  /** The checks in the order `validate_card` applies them. */
  const CheckOrder: seq<Rejection> := [BadLength, NotAllDigits, BadChecksum, CardExpired, BadCvc, DeclinedByIssuer]

  /** Whether the normalised number `n` and the other fields pass check `k`,
      each check stated on its own. */
  predicate Passes(k: Rejection, n: string, expMonth: int, expYear: int, cvc: string, today: YearMonth) {
    match k
    case BadLength => |n| == 15 || |n| == 16
    case NotAllDigits => IsDigitString(n)
    case BadChecksum => AllDigits(n) && LuhnCheck(n)
    case CardExpired => !IsExpired(expMonth, expYear, today)
    case BadCvc => IsValidCvc(cvc)
    case DeclinedByIssuer => n !in DeclinedTestCards
  }

  /** Every check passes, whatever their order. */
  predicate AllChecksPass(n: string, expMonth: int, expYear: int, cvc: string, today: YearMonth) {
    && Passes(BadLength, n, expMonth, expYear, cvc, today)
    && Passes(NotAllDigits, n, expMonth, expYear, cvc, today)
    && Passes(BadChecksum, n, expMonth, expYear, cvc, today)
    && Passes(CardExpired, n, expMonth, expYear, cvc, today)
    && Passes(BadCvc, n, expMonth, expYear, cvc, today)
    && Passes(DeclinedByIssuer, n, expMonth, expYear, cvc, today)
  }

  /** The first check of `checks` that fails, if any: the reference reading of
      "apply the checks in order and stop at the first failure". */
  function FirstFailing(checks: seq<Rejection>, n: string, expMonth: int, expYear: int, cvc: string, today: YearMonth): (r: Option<nat>)
    ensures r.None? <==> forall j :: 0 <= j < |checks| ==> Passes(checks[j], n, expMonth, expYear, cvc, today)
    ensures r.Some? ==> r.value < |checks| && !Passes(checks[r.value], n, expMonth, expYear, cvc, today)
    ensures r.Some? ==> forall j :: 0 <= j < r.value ==> Passes(checks[j], n, expMonth, expYear, cvc, today)
  {
    if checks == [] then None
    else if !Passes(checks[0], n, expMonth, expYear, cvc, today) then Some(0)
    else match FirstFailing(checks[1..], n, expMonth, expYear, cvc, today)
      case None => None
      case Some(i) => Some(i + 1)
  }

  /** `validate_card`: the checks in order, stopping at the first that fails;
      `(true, "")` when all pass. It never fails on malformed input. */
  function ValidateCard(number: string, expMonth: int, expYear: int, cvc: string, today: YearMonth): (r: (bool, string))
    ensures r.0 <==> AllChecksPass(Normalize(number), expMonth, expYear, cvc, today)
    ensures r.0 ==> r.1 == ""
    ensures !r.0 ==> r.1 != ""
  {
    var n := Normalize(number);
    assert n == Normalize(number);
    if !(|n| == 15 || |n| == 16) then
      (false, BadLength.Reason())
    else if !IsDigitString(n) then
      (false, NotAllDigits.Reason())
    else if !LuhnCheck(n) then
      (false, BadChecksum.Reason())
    else if IsExpired(expMonth, expYear, today) then
      (false, CardExpired.Reason())
    else if !IsValidCvc(cvc) then
      (false, BadCvc.Reason())
    else if n in DeclinedTestCards then
      (false, DeclinedByIssuer.Reason())
    else
      (true, "")
  }

  /** The reason `validate_card` gives is that of the first failing check in
      the order length, digits, checksum, expiry, CVC, deny-list. */
  lemma ValidateCardReportsFirstFailure(number: string, expMonth: int, expYear: int, cvc: string, today: YearMonth)
    ensures var r := ValidateCard(number, expMonth, expYear, cvc, today);
            match FirstFailing(CheckOrder, Normalize(number), expMonth, expYear, cvc, today)
            case None => r == (true, "")
            case Some(i) => r == (false, CheckOrder[i].Reason())
  {
    var n := Normalize(number);
    var f := FirstFailing(CheckOrder, n, expMonth, expYear, cvc, today);
    assert CheckOrder[0] == BadLength && CheckOrder[1] == NotAllDigits && CheckOrder[2] == BadChecksum;
    assert CheckOrder[3] == CardExpired && CheckOrder[4] == BadCvc && CheckOrder[5] == DeclinedByIssuer;
    if f.Some? {
      var i := f.value;
      assert i == 0 || i == 1 || i == 2 || i == 3 || i == 4 || i == 5;
    }
  }

  /** The six reasons are distinct, so the reason names the failing check. */
  lemma ReasonsDistinct(a: Rejection, b: Rejection)
    ensures a.Reason() == b.Reason() <==> a == b
  {
  }

  lemma LuhnDeclined0002()
    ensures AllDigits("4000000000000002") && LuhnCheck("4000000000000002")
  {
    assert Digits("4000000000000002") == [4, 0, 0, 0, 0, 0, 0, 0, 0, 0, 0, 0, 0, 0, 0, 2];
    AnnexB0002();
    LuhnMatchesAnnexB("4000000000000002");
  }

  lemma LuhnDeclined9995()
    ensures AllDigits("4000000000009995") && LuhnCheck("4000000000009995")
  {
    assert Digits("4000000000009995") == [4, 0, 0, 0, 0, 0, 0, 0, 0, 0, 0, 0, 9, 9, 9, 5];
    AnnexB9995();
    LuhnMatchesAnnexB("4000000000009995");
  }

  /** A separator-free number that clears every check is accepted. */
  lemma CleanNumberAccepted(number: string, expMonth: int, expYear: int, cvc: string, today: YearMonth)
    requires (|number| == 15 || |number| == 16) && AllDigits(number) && LuhnCheck(number)
    requires !IsExpired(expMonth, expYear, today) && IsValidCvc(cvc) && number !in DeclinedTestCards
    ensures ValidateCard(number, expMonth, expYear, cvc, today) == (true, "")
  {
    NormalizeFixesClean(number);
  }

  /** A deny-listed number that clears every earlier check is declined. */
  lemma DenyListIsLastCheck(number: string, expMonth: int, expYear: int, cvc: string, today: YearMonth)
    requires |number| == 16 && AllDigits(number) && LuhnCheck(number) && number in DeclinedTestCards
    requires !IsExpired(expMonth, expYear, today) && IsValidCvc(cvc)
    ensures ValidateCard(number, expMonth, expYear, cvc, today) == (false, "Card declined by issuer")
  {
    NormalizeFixesClean(number);
  }

  /** Both deny-listed numbers pass the checksum and are declined whenever the
      expiry and CVC are acceptable. */
  lemma DeclinedTestCardsDecline(number: string, expMonth: int, expYear: int, cvc: string, today: YearMonth)
    requires number in DeclinedTestCards
    requires !IsExpired(expMonth, expYear, today) && IsValidCvc(cvc)
    ensures AllDigits(number) && LuhnCheck(number)
    ensures ValidateCard(number, expMonth, expYear, cvc, today) == (false, "Card declined by issuer")
  {
    if number == "4000000000000002" {
      LuhnDeclined0002();
    } else {
      LuhnDeclined9995();
    }
    DenyListIsLastCheck(number, expMonth, expYear, cvc, today);
  }

  // ---------------------------------------------------------------------------
  // Masking
  // ---------------------------------------------------------------------------

  /** Python's `s[-4:]`: the last four characters, or all of a shorter string. */
  function LastFour(s: string): (r: string)
    ensures |r| == if |s| >= 4 then 4 else |s|
    ensures s == s[..|s| - |r|] + r
  {
    if |s| >= 4 then s[|s| - 4..] else s
  }

  function Stars(k: nat): (r: string)
    ensures |r| == k && forall i :: 0 <= i < k ==> r[i] == '*'
  {
    if k == 0 then [] else Stars(k - 1) + ['*']
  }

  /** `mask_card_number`: the normalised number with every character but the
      last four replaced by `*` (a number shorter than four is returned whole,
      since repeating a string a negative number of times gives the empty string). */
  function MaskCardNumber(number: string): (r: string)
    ensures var n := Normalize(number);
            && |r| == |n|
            && (forall i :: 0 <= i < |n| - 4 ==> r[i] == '*')
            && r[|r| - |LastFour(n)|..] == LastFour(n)
  {
    var n := Normalize(number);
    Stars(if |n| >= 4 then |n| - 4 else 0) + LastFour(n)
  }

  /** Masking an already masked number changes nothing: `*` is no separator. */
  lemma MaskIdempotent(number: string)
    ensures MaskCardNumber(MaskCardNumber(number)) == MaskCardNumber(number)
  {
    var m := MaskCardNumber(number);
    NormalizeFixesClean(m);
    var n := Normalize(number);
    if |n| >= 4 {
      assert forall i :: 0 <= i < |m| - 4 ==> m[i] == '*';
      assert m == Stars(|m| - 4) + LastFour(m);
    }
  }
}
