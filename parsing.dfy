/**
 * Number parsing as the screens use it: `String.toIntOrNull()` for the
 * `HH:mm` time fields and `String.toDoubleOrNull()` for the amount fields,
 * whose input filter admits only digits with at most one decimal point.
 */
module Parsing {
  import opened Wrappers
  import opened Strings
  import opened Ints

  /** `String.toIntOrNull()`: an optional sign and decimal digits, within Kotlin `Int`. */
  function ToIntOrNull(s: string): (r: Option<int>)
    ensures s == [] ==> r == None
    ensures r.Some? ==> -IntLimit <= r.value < IntLimit
    ensures AllDigits(s) && s != [] && DigitsValue(s) < IntLimit ==> r == Some(DigitsValue(s))
    ensures (exists i :: 0 <= i < |s| && !IsDigit(s[i]) && !(i == 0 && (s[0] == '-' || s[0] == '+'))) ==> r == None
  {
    if s == [] then None
    else
      var signed := s[0] == '-' || s[0] == '+';
      var body := if signed then s[1..] else s;
      if body == [] || !AllDigits(body) then
        assert signed ==> forall i :: 1 <= i < |s| ==> s[i] == body[i - 1];
        None
      else
        assert signed ==> forall i :: 1 <= i < |s| ==> s[i] == body[i - 1];
        var v := if s[0] == '-' then -(DigitsValue(body) as int) else DigitsValue(body) as int;
        if -IntLimit <= v < IntLimit then Some(v) else None
  }

  /** The amount filter `^\d*\.?\d*$`: digits with at most one decimal point. */
  predicate IsDecimalInput(s: string) {
    (forall i :: 0 <= i < |s| ==> IsDigit(s[i]) || s[i] == '.')
    && (forall i, j :: 0 <= i < j < |s| && s[i] == '.' ==> s[j] != '.')
  }

  function Pow10(n: nat): (p: nat)
    ensures p >= 1
  {
    if n == 0 then 1 else 10 * Pow10(n - 1)
  }

  /** The position of the decimal point, or the length when there is none. */
  function PointIndex(s: string): (k: nat)
    ensures k <= |s|
    ensures forall i :: 0 <= i < k ==> s[i] != '.'
    ensures k < |s| ==> s[k] == '.'
  {
    if s == [] then 0
    else if s[0] == '.' then 0
    else 1 + PointIndex(s[1..])
  }

  /**
   * `String.toDoubleOrNull()` on the texts an amount field can hold: digits
   * with at most one decimal point give their exact decimal value when there
   * is a digit (`"12."`, `".5"` and `"12.50"` all parse) and null otherwise;
   * any other text, in particular one with a decimal comma, gives null.
   */
  function ToDoubleOrNull(s: string): (r: Option<real>)
    ensures IsDecimalInput(s) ==> (r.Some? <==> exists i :: 0 <= i < |s| && IsDigit(s[i]))
    ensures ',' in s ==> r == None
    ensures r.Some? ==> r.value >= 0.0
  {
    if !IsDecimalInput(s) then None
    else
      var k := PointIndex(s);
      var whole := s[..k];
      var fraction := if k < |s| then s[k + 1..] else [];
      if whole == [] && fraction == [] then
        assert forall i :: 0 <= i < |s| ==> s[i] == '.';
        None
      else
        assert whole != [] ==> IsDigit(s[0]);
        assert whole == [] ==> IsDigit(s[k + 1]);
        Some(DigitsValue(whole) as real + DigitsValue(fraction) as real / Pow10(|fraction|) as real)
  }

  /**
   * The field filter `^\d*\.?\d*$` as the regular expression reads: digits up
   * to the first point, then, if there is a point, only digits after it.
   */
  predicate MatchesAmountPattern(s: string) {
    var k := PointIndex(s);
    AllDigits(s[..k]) && (k == |s| || AllDigits(s[k + 1..]))
  }

  /** The pattern admits exactly the digit strings with at most one decimal point. */
  lemma AmountPatternIsDecimalInput(s: string)
    ensures MatchesAmountPattern(s) <==> IsDecimalInput(s)
  {
    var k := PointIndex(s);
    if MatchesAmountPattern(s) {
      forall i | 0 <= i < |s|
        ensures IsDigit(s[i]) || s[i] == '.'
      {
        if i < k {
          assert s[..k][i] == s[i];
        } else if i > k {
          assert s[k + 1..][i - k - 1] == s[i];
        }
      }
      forall i, j | 0 <= i < j < |s| && s[i] == '.'
        ensures s[j] != '.'
      {
        assert k <= i;
        assert s[k + 1..][j - k - 1] == s[j];
      }
    }
    if IsDecimalInput(s) {
      assert AllDigits(s[..k]);
      if k < |s| {
        assert forall i :: k + 1 <= i < |s| ==> IsDigit(s[i]);
        assert AllDigits(s[k + 1..]);
      }
    }
  }

  /**
   * The `onValueChange` of a numeric field: the edit is taken when it is
   * empty or matches the pattern, and dropped otherwise.
   */
  function FilterEdit(current: string, edit: string): (next: string)
    ensures IsDecimalInput(edit) ==> next == edit
    ensures !IsDecimalInput(edit) ==> next == current
    ensures IsDecimalInput(current) ==> IsDecimalInput(next)
  {
    AmountPatternIsDecimalInput(edit);
    if edit == [] || MatchesAmountPattern(edit) then edit else current
  }

  /**
   * A number of hundredths printed with `Locale.US` and two decimals is an
   * amount the filter admits, and it parses back to exactly that amount.
   */
  lemma TwoDecimalsReadsBack(c: nat)
    ensures IsDecimalInput(TwoDecimals(c, '.'))
    ensures ToDoubleOrNull(TwoDecimals(c, '.')) == Some(c as real / 100.0)
  {
    var whole := NatToString(c / 100);
    var cents := Pad2(c % 100);
    DigitsAroundPoint(whole, cents);
    NatToStringValue(c / 100);
    HundredthsSplit(c);
  }

  /** A number of hundredths printed with `Locale.US` and two decimals passes the amount filter. */
  lemma TwoDecimalsFiltered(c: nat)
    ensures IsDecimalInput(TwoDecimals(c, '.'))
  {
    DigitsAroundPoint(NatToString(c / 100), Pad2(c % 100));
  }

  /** Digits, a point and digits: filtered text whose point splits it into the two runs. */
  lemma DigitsAroundPoint(whole: string, fraction: string)
    requires AllDigits(whole) && AllDigits(fraction)
    ensures var s := whole + ['.'] + fraction;
      IsDecimalInput(s) && PointIndex(s) == |whole|
      && s[..|whole|] == whole && s[|whole| + 1..] == fraction
  {
    var s := whole + ['.'] + fraction;
    assert forall i :: 0 <= i < |whole| ==> s[i] == whole[i];
    assert forall i :: |whole| < i < |s| ==> s[i] == fraction[i - |whole| - 1];
    assert s[|whole|] == '.';
    assert s[..|whole|] == whole && s[|whole| + 1..] == fraction;
  }

  lemma HundredthsSplit(c: nat)
    ensures (c / 100) as real + (c % 100) as real / Pow10(2) as real == c as real / 100.0
  {
    assert Pow10(2) == 100;
    assert c == (c / 100) * 100 + c % 100;
  }

  /** A filtered amount that parses is positive exactly when some digit is not zero. */
  lemma {:induction false} DigitsPositive(s: string)
    requires AllDigits(s)
    ensures DigitsValue(s) > 0 <==> HasNonZeroDigit(s)
    decreases |s|
  {
    if s != [] {
      var init := s[..|s| - 1];
      DigitsPositive(init);
      assert forall i :: 0 <= i < |init| ==> init[i] == s[i];
      if DigitsValue(s) > 0 && DigitValue(s[|s| - 1]) == 0 {
        assert DigitsValue(init) > 0;
      }
    }
  }

  /** A filtered amount parses to a positive number exactly when it holds a non-zero digit. */
  lemma ParsesPositive(s: string)
    requires IsDecimalInput(s)
    ensures (ToDoubleOrNull(s).Some? && ToDoubleOrNull(s).value > 0.0) <==> HasNonZeroDigit(s)
  {
    var k := PointIndex(s);
    var whole := s[..k];
    var fraction := if k < |s| then s[k + 1..] else [];
    DigitsPositive(whole);
    DigitsPositive(fraction);
    PositiveDecimal(DigitsValue(whole), DigitsValue(fraction), Pow10(|fraction|));
    if k < |s| {
      NonZeroDigitAroundPoint(s, k);
    } else {
      assert whole == s;
    }
  }

  ghost predicate HasNonZeroDigit(s: string) {
    exists i :: 0 <= i < |s| && '1' <= s[i] <= '9'
  }

  lemma PositiveDecimal(whole: nat, fraction: nat, scale: nat)
    requires scale >= 1
    ensures whole as real + fraction as real / scale as real > 0.0 <==> whole > 0 || fraction > 0
  {
  }

  lemma NonZeroDigitAroundPoint(s: string, k: nat)
    requires k < |s| && s[k] == '.'
    ensures HasNonZeroDigit(s) <==> HasNonZeroDigit(s[..k]) || HasNonZeroDigit(s[k + 1..])
  {
    if HasNonZeroDigit(s) {
      var i :| 0 <= i < |s| && '1' <= s[i] <= '9';
      if i < k {
        assert s[..k][i] == s[i];
      } else {
        assert s[k + 1..][i - k - 1] == s[i];
      }
    }
    if HasNonZeroDigit(s[..k]) {
      var i :| 0 <= i < k && '1' <= s[..k][i] <= '9';
      assert s[i] == s[..k][i];
    }
    if HasNonZeroDigit(s[k + 1..]) {
      var i :| 0 <= i < |s| - k - 1 && '1' <= s[k + 1..][i] <= '9';
      assert s[k + 1 + i] == s[k + 1..][i];
    }
  }
}
