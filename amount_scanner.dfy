/**
 * `extractAmounts`: the five money patterns of the receipt reader, each a
 * scanner over the text with the leftmost, non-overlapping search of
 * `Regex.findAll`, and the list they fill together. Amounts are integer
 * euro cents; every pattern yields either a whole number of euros or digits
 * followed by exactly two decimals, so cents are exact.
 */
module AmountScanner {
  import opened Wrappers
  import opened Strings

  /** 99999.99, the largest amount the final filter keeps, in cents. */
  const MaxCents: nat := 9999999

  datatype Pattern =
    | ItaWithThousands   // (\d{1,3})\.(\d{3}),(\d{2})
    | UsWithThousands    // (\d{1,3}),(\d{3})\.(\d{2})
    | ItaSimple          // (?<!\d[.,])(\d{1,4}),(\d{2})(?![.,]\d)
    | UsSimple           // (?<!\d[.,])(\d{1,4})\.(\d{2})(?![.,]\d)
    | EuroInt            // [€E][UR]*\s*(\d{1,4})(?![.,]\d), case-insensitive

  /** The amount a match denotes and the position just after it. */
  datatype Match = Match(cents: nat, end: nat)

  predicate IsSeparator(c: char) { c == '.' || c == ',' }

  /** `\s` of `java.util.regex`. */
  predicate IsRegexSpace(c: char) {
    c == ' ' || c == '\t' || c == '\n' || c == '\U{000B}' || c == '\U{000C}' || c == '\r'
  }

  /** `[€E]` under IGNORE_CASE. */
  predicate IsEuroLead(c: char) { c == '€' || c == 'E' || c == 'e' }

  /** `[UR]` under IGNORE_CASE. */
  predicate IsUR(c: char) { c == 'U' || c == 'u' || c == 'R' || c == 'r' }

  /** The length of the run of digits that starts at `i`. */
  function DigitRun(s: string, i: nat): (n: nat)
    requires i <= |s|
    ensures i + n <= |s| && AllDigits(s[i..i + n])
    ensures i + n < |s| ==> !IsDigit(s[i + n])
    decreases |s| - i
  {
    if i < |s| && IsDigit(s[i]) then 1 + DigitRun(s, i + 1) else 0
  }

  function URRun(s: string, i: nat): (n: nat)
    requires i <= |s|
    ensures i + n <= |s|
    ensures forall k :: i <= k < i + n ==> IsUR(s[k])
    ensures i + n < |s| ==> !IsUR(s[i + n])
    decreases |s| - i
  {
    if i < |s| && IsUR(s[i]) then 1 + URRun(s, i + 1) else 0
  }

  function SpaceRun(s: string, i: nat): (n: nat)
    requires i <= |s|
    ensures i + n <= |s|
    ensures forall k :: i <= k < i + n ==> IsRegexSpace(s[k])
    ensures i + n < |s| ==> !IsRegexSpace(s[i + n])
    decreases |s| - i
  {
    if i < |s| && IsRegexSpace(s[i]) then 1 + SpaceRun(s, i + 1) else 0
  }

  /** The lookbehind `(?<!\d[.,])`: position `i` does not follow a digit and a separator. */
  predicate NotAfterDigitSeparator(s: string, i: nat)
    requires i <= |s|
  {
    !(i >= 2 && IsDigit(s[i - 2]) && IsSeparator(s[i - 1]))
  }

  /** The lookahead `(?![.,]\d)`: position `e` is not a separator followed by a digit. */
  predicate NotBeforeSeparatorDigit(s: string, e: nat)
    requires e <= |s|
  {
    !(e + 1 < |s| && IsSeparator(s[e]) && IsDigit(s[e + 1]))
  }

  /**
   * A grouped amount at `i`: one to three digits, the group separator, three
   * digits, the decimal separator, two digits. The first group is the whole
   * digit run at `i`, since a shorter one would be followed by a digit.
   */
  function MatchGrouped(s: string, i: nat, group: char, decimal: char): (r: Option<Match>)
    requires i <= |s|
    ensures r.Some? ==> i < r.value.end <= |s| && r.value.cents <= 99999999
  {
    var n := DigitRun(s, i);
    if 1 <= n <= 3 && i + n + 7 <= |s| && s[i + n] == group && AllDigits(s[i + n + 1..i + n + 4])
       && s[i + n + 4] == decimal && AllDigits(s[i + n + 5..i + n + 7])
    then
      var a, b, c := DigitsValue(s[i..i + n]), DigitsValue(s[i + n + 1..i + n + 4]), DigitsValue(s[i + n + 5..i + n + 7]);
      DigitsBound(s[i..i + n]);
      DigitsBound(s[i + n + 1..i + n + 4]);
      DigitsBound(s[i + n + 5..i + n + 7]);
      assert a * 100000 <= 99900000 && b * 100 <= 99900;
      Some(Match(a * 100000 + b * 100 + c, i + n + 7))
    else None
  }

  /**
   * A simple amount at `i`: not after a digit and a separator, one to four
   * digits (the whole run), the decimal separator, two digits, and not
   * before a separator and a digit.
   */
  function MatchSimple(s: string, i: nat, decimal: char): (r: Option<Match>)
    requires i <= |s|
    ensures r.Some? ==> i < r.value.end <= |s| && r.value.cents <= 999999
    ensures r.Some? ==> NotAfterDigitSeparator(s, i) && NotBeforeSeparatorDigit(s, r.value.end)
  {
    var n := DigitRun(s, i);
    if NotAfterDigitSeparator(s, i) && 1 <= n <= 4 && i + n + 3 <= |s| && s[i + n] == decimal
       && IsDigit(s[i + n + 1]) && IsDigit(s[i + n + 2]) && NotBeforeSeparatorDigit(s, i + n + 3)
    then
      var a, c := DigitsValue(s[i..i + n]), DigitsValue(s[i + n + 1..i + n + 3]);
      DigitsBound(s[i..i + n]);
      DigitsBound(s[i + n + 1..i + n + 3]);
      assert a * 100 <= 999900;
      Some(Match(a * 100 + c, i + n + 3))
    else None
  }

  /**
   * A whole-euro amount at `i`: `€`, `E` or `e`, any run of U and R letters,
   * any regex spaces, then the digits that `EuroDigits` takes.
   */
  function MatchEuroInt(s: string, i: nat): (r: Option<Match>)
    requires i <= |s|
    ensures r.Some? ==> i < r.value.end <= |s| && r.value.cents <= 999900 && r.value.cents % 100 == 0
    ensures r.Some? ==> IsEuroLead(s[i]) && NotBeforeSeparatorDigit(s, r.value.end)
  {
    if i < |s| && IsEuroLead(s[i]) then
      var k := i + 1 + URRun(s, i + 1);
      EuroDigits(s, k + SpaceRun(s, k))
    else None
  }

  /**
   * The greedy `\d{1,4}` at `d` and its lookahead. When the lookahead rejects
   * the greedy digits the matcher gives one back, which then always passes,
   * as a digit is not a separator; a single rejected digit fails the match.
   */
  function EuroDigits(s: string, d: nat): (r: Option<Match>)
    requires d <= |s|
    ensures r.Some? ==> d < r.value.end <= |s| && r.value.end <= d + 4
    ensures r.Some? ==> r.value.cents <= 999900 && r.value.cents % 100 == 0
    ensures r.Some? ==> NotBeforeSeparatorDigit(s, r.value.end)
  {
    var run := DigitRun(s, d);
    var m := if run < 4 then run else 4;
    assert AllDigits(s[d..d + m]) by { assert s[d..d + m] == s[d..d + run][..m]; }
    if m >= 1 && NotBeforeSeparatorDigit(s, d + m) then
      DigitsBound(s[d..d + m]);
      Some(Match(DigitsValue(s[d..d + m]) * 100, d + m))
    else if m >= 2 then
      assert IsDigit(s[d + m - 1]) by { assert s[d..d + m][m - 1] == s[d + m - 1]; }
      assert AllDigits(s[d..d + m - 1]) by { assert s[d..d + m - 1] == s[d..d + m][..m - 1]; }
      DigitsBound(s[d..d + m - 1]);
      Some(Match(DigitsValue(s[d..d + m - 1]) * 100, d + m - 1))
    else None
  }

  /** At most four digits denote at most 9999. */
  lemma {:induction false} DigitsBound(s: string)
    requires AllDigits(s) && |s| <= 4
    ensures DigitsValue(s) <= 9999
    ensures |s| <= 3 ==> DigitsValue(s) <= 999
    ensures |s| <= 2 ==> DigitsValue(s) <= 99
    ensures |s| <= 1 ==> DigitsValue(s) <= 9
    decreases |s|
  {
    if s != [] {
      DigitsBound(s[..|s| - 1]);
    }
  }

  /** `Matcher.find` for one pattern, tried at position `i` only. */
  function MatchAt(p: Pattern, s: string, i: nat): (r: Option<Match>)
    requires i <= |s|
    ensures r.Some? ==> i < r.value.end <= |s|
  {
    match p
    case ItaWithThousands => MatchGrouped(s, i, '.', ',')
    case UsWithThousands => MatchGrouped(s, i, ',', '.')
    case ItaSimple => MatchSimple(s, i, ',')
    case UsSimple => MatchSimple(s, i, '.')
    case EuroInt => MatchEuroInt(s, i)
  }

  /** `findAll` from position `from`: the amounts of the leftmost non-overlapping matches, in order. */
  function FindAll(p: Pattern, s: string, from: nat): seq<nat>
    requires from <= |s|
    decreases |s| - from
  {
    if from == |s| then []
    else match MatchAt(p, s, from)
      case Some(m) => [m.cents] + FindAll(p, s, m.end)
      case None => FindAll(p, s, from + 1)
  }

  /** One `forEach` step: a positive amount is added, unless `dedupe` is set and it is already listed. */
  function Admit(acc: seq<nat>, x: nat, dedupe: bool): seq<nat> {
    if x > 0 && (!dedupe || x !in acc) then acc + [x] else acc
  }

  function Collect(acc: seq<nat>, found: seq<nat>, dedupe: bool): seq<nat>
    decreases |found|
  {
    if found == [] then acc else Collect(Admit(acc, found[0], dedupe), found[1..], dedupe)
  }

  /** The final `filter { it >= 0.01 && it <= 99999.99 }`. */
  function KeepInRange(xs: seq<nat>): (r: seq<nat>)
    ensures forall x :: x in r ==> 1 <= x <= MaxCents && x in xs
    ensures forall x :: x in xs && 1 <= x <= MaxCents ==> x in r
    decreases |xs|
  {
    if xs == [] then []
    else
      var last := xs[|xs| - 1];
      assert xs == xs[..|xs| - 1] + [last];
      KeepInRange(xs[..|xs| - 1]) + (if 1 <= last <= MaxCents then [last] else [])
  }

  /** What the five patterns contribute before the final filter. */
  function Unfiltered(text: string): seq<nat> {
    var a1 := Collect([], FindAll(ItaWithThousands, text, 0), false);
    var a2 := Collect(a1, FindAll(UsWithThousands, text, 0), true);
    var a3 := Collect(a2, FindAll(ItaSimple, text, 0), true);
    var a4 := Collect(a3, FindAll(UsSimple, text, 0), true);
    Collect(a4, FindAll(EuroInt, text, 0), true)
  }

  /** `extractAmounts`, as a function of the text. */
  function Amounts(text: string): seq<nat> {
    KeepInRange(Unfiltered(text))
  }

  /** One pattern's `findAll(text).forEach { … }`, adding to `acc`. */
  method AddMatches(p: Pattern, text: string, acc: seq<nat>, dedupe: bool) returns (r: seq<nat>)
    ensures r == Collect(acc, FindAll(p, text, 0), dedupe)
  {
    r := acc;
    var pos := 0;
    while pos < |text|
      invariant pos <= |text|
      invariant Collect(r, FindAll(p, text, pos), dedupe) == Collect(acc, FindAll(p, text, 0), dedupe)
      decreases |text| - pos
    {
      match MatchAt(p, text, pos)
      case Some(m) =>
        r := Admit(r, m.cents, dedupe);
        pos := m.end;
      case None =>
        pos := pos + 1;
    }
  }

  /** `extractAmounts`: fill the list pattern by pattern, then keep the amounts in range. */
  method ExtractAmounts(text: string) returns (amounts: seq<nat>)
    ensures amounts == Amounts(text)
    ensures forall x :: x in amounts ==> 1 <= x <= MaxCents
  {
    amounts := AddMatches(ItaWithThousands, text, [], false);
    amounts := AddMatches(UsWithThousands, text, amounts, true);
    amounts := AddMatches(ItaSimple, text, amounts, true);
    amounts := AddMatches(UsSimple, text, amounts, true);
    amounts := AddMatches(EuroInt, text, amounts, true);
    amounts := KeepInRange(amounts);
  }

  // ---------------------------------------------------------------- properties

  /** Every position from `k` on holds a value that no earlier position holds. */
  ghost predicate FreshFrom(xs: seq<nat>, k: nat) {
    k <= |xs| && forall i, j :: 0 <= i < j < |xs| && k <= j ==> xs[i] != xs[j]
  }

  lemma {:induction false} CollectKeepsPrefix(acc: seq<nat>, found: seq<nat>, dedupe: bool)
    ensures acc <= Collect(acc, found, dedupe)
    decreases |found|
  {
    if found != [] {
      CollectKeepsPrefix(Admit(acc, found[0], dedupe), found[1..], dedupe);
    }
  }

  /** A deduplicating pattern only appends values not yet listed. */
  lemma {:induction false} CollectFresh(acc: seq<nat>, found: seq<nat>, k: nat)
    requires FreshFrom(acc, k)
    ensures FreshFrom(Collect(acc, found, true), k)
    decreases |found|
  {
    if found != [] {
      var next := Admit(acc, found[0], true);
      assert FreshFrom(next, k) by {
        if next != acc {
          forall i, j | 0 <= i < j < |next| && k <= j ensures next[i] != next[j] {
            if j == |acc| {
              assert next[i] in acc;
            }
          }
        }
      }
      CollectFresh(next, found[1..], k);
    }
  }

  lemma {:induction false} KeepInRangePrefix(xs: seq<nat>, k: nat)
    requires k <= |xs|
    ensures KeepInRange(xs[..k]) <= KeepInRange(xs)
    decreases |xs|
  {
    if k < |xs| {
      KeepInRangePrefix(xs[..|xs| - 1], k);
      assert xs[..|xs| - 1][..k] == xs[..k];
    } else {
      assert xs[..k] == xs;
    }
  }

  lemma {:induction false} KeepInRangeFresh(xs: seq<nat>, k: nat)
    requires FreshFrom(xs, k)
    ensures FreshFrom(KeepInRange(xs), |KeepInRange(xs[..k])|)
    decreases |xs|
  {
    if |xs| == k {
      assert xs[..k] == xs;
    } else {
      var init := xs[..|xs| - 1];
      assert init[..k] == xs[..k];
      KeepInRangeFresh(init, k);
      KeepInRangePrefix(init, k);
      var r := KeepInRange(xs);
      var ri := KeepInRange(init);
      var last := xs[|xs| - 1];
      if 1 <= last <= MaxCents {
        assert last !in init by {
          forall i | 0 <= i < |init| ensures init[i] != last {
            assert xs[i] != xs[|xs| - 1];
          }
        }
        assert r == ri + [last];
        forall i, j | 0 <= i < j < |r| && |KeepInRange(xs[..k])| <= j ensures r[i] != r[j] {
          if j == |ri| {
            assert r[i] in ri;
          }
        }
      }
    }
  }

  /**
   * Duplicates can only come from the first, thousands-grouped European
   * pattern: the result starts with that pattern's amounts in range, and
   * every later amount differs from all amounts before it.
   */
  lemma DuplicatesOnlyFromFirstPattern(text: string)
    ensures var first := KeepInRange(Collect([], FindAll(ItaWithThousands, text, 0), false));
      first <= Amounts(text) && FreshFrom(Amounts(text), |first|)
  {
    var a1 := Collect([], FindAll(ItaWithThousands, text, 0), false);
    var a2 := Collect(a1, FindAll(UsWithThousands, text, 0), true);
    var a3 := Collect(a2, FindAll(ItaSimple, text, 0), true);
    var a4 := Collect(a3, FindAll(UsSimple, text, 0), true);
    var a5 := Collect(a4, FindAll(EuroInt, text, 0), true);
    var k := |a1|;
    CollectFresh(a1, FindAll(UsWithThousands, text, 0), k);
    CollectFresh(a2, FindAll(ItaSimple, text, 0), k);
    CollectFresh(a3, FindAll(UsSimple, text, 0), k);
    CollectFresh(a4, FindAll(EuroInt, text, 0), k);
    CollectKeepsPrefix(a1, FindAll(UsWithThousands, text, 0), true);
    CollectKeepsPrefix(a2, FindAll(ItaSimple, text, 0), true);
    CollectKeepsPrefix(a3, FindAll(UsSimple, text, 0), true);
    CollectKeepsPrefix(a4, FindAll(EuroInt, text, 0), true);
    assert a5[..k] == a1;
    KeepInRangeFresh(a5, k);
    KeepInRangePrefix(a5, k);
  }

  lemma {:induction false} CollectContents(acc: seq<nat>, found: seq<nat>, dedupe: bool)
    ensures forall x :: x in Collect(acc, found, dedupe) <==> x in acc || (x in found && x > 0)
    decreases |found|
  {
    if found != [] {
      CollectContents(Admit(acc, found[0], dedupe), found[1..], dedupe);
      assert found == [found[0]] + found[1..];
    }
  }

  /**
   * An amount is reported exactly when one of the five patterns matches it
   * and it lies in [0.01, 99999.99].
   */
  lemma AmountsContents(text: string)
    ensures forall x :: x in Amounts(text) <==>
      1 <= x <= MaxCents
      && (x in FindAll(ItaWithThousands, text, 0) || x in FindAll(UsWithThousands, text, 0)
          || x in FindAll(ItaSimple, text, 0) || x in FindAll(UsSimple, text, 0)
          || x in FindAll(EuroInt, text, 0))
  {
    var a1 := Collect([], FindAll(ItaWithThousands, text, 0), false);
    var a2 := Collect(a1, FindAll(UsWithThousands, text, 0), true);
    var a3 := Collect(a2, FindAll(ItaSimple, text, 0), true);
    var a4 := Collect(a3, FindAll(UsSimple, text, 0), true);
    CollectContents([], FindAll(ItaWithThousands, text, 0), false);
    CollectContents(a1, FindAll(UsWithThousands, text, 0), true);
    CollectContents(a2, FindAll(ItaSimple, text, 0), true);
    CollectContents(a3, FindAll(UsSimple, text, 0), true);
    CollectContents(a4, FindAll(EuroInt, text, 0), true);
  }

  // ------------------------------------------------- reading a printed price

  lemma {:induction false} DigitRunIs(s: string, i: nat, n: nat)
    requires i + n <= |s| && AllDigits(s[i..i + n])
    requires i + n < |s| ==> !IsDigit(s[i + n])
    ensures DigitRun(s, i) == n
    decreases n
  {
    if n > 0 {
      assert IsDigit(s[i]) by { assert s[i..i + n][0] == s[i]; }
      assert s[i + 1..i + n] == s[i..i + n][1..];
      DigitRunIs(s, i + 1, n - 1);
    }
  }

  /** A pattern that matches at no position from `from` on finds nothing. */
  lemma {:induction false} FindNothing(p: Pattern, s: string, from: nat)
    requires from <= |s|
    requires forall i :: from <= i <= |s| ==> MatchAt(p, s, i) == None
    ensures FindAll(p, s, from) == []
    decreases |s| - from
  {
    if from < |s| {
      FindNothing(p, s, from + 1);
    }
  }

  /** Positions where the pattern does not match are skipped. */
  lemma {:induction false} FindSkip(p: Pattern, s: string, from: nat, until: nat)
    requires from <= until <= |s|
    requires forall i :: from <= i < until ==> MatchAt(p, s, i) == None
    ensures FindAll(p, s, from) == FindAll(p, s, until)
    decreases until - from
  {
    if from < until {
      FindSkip(p, s, from + 1, until);
    }
  }

  /**
   * A price printed alone with two decimals, after a comma or a point, is
   * read back as exactly that amount, whichever of the two separators it uses.
   */
  lemma TwoDecimalsReadBack(c: nat, sep: char)
    requires sep == ',' || sep == '.'
    requires 1 <= c <= 999999
    ensures Amounts(TwoDecimals(c, sep)) == [c]
  {
    TwoDecimalsScans(c, sep);
    ReadsOneAmount(TwoDecimals(c, sep), c, sep == ',');
  }

  /** A text on which only one of the simple patterns finds anything, and once, yields that amount. */
  lemma ReadsOneAmount(s: string, c: nat, comma: bool)
    requires 1 <= c <= MaxCents
    requires FindAll(ItaWithThousands, s, 0) == [] && FindAll(UsWithThousands, s, 0) == []
    requires FindAll(EuroInt, s, 0) == []
    requires FindAll(ItaSimple, s, 0) == (if comma then [c] else [])
    requires FindAll(UsSimple, s, 0) == (if comma then [] else [c])
    ensures Amounts(s) == [c]
  {
    if comma {
      AmountsFromScans(s, [], [], [c], [], []);
    } else {
      AmountsFromScans(s, [], [], [], [c], []);
    }
    OneAmountList(c, comma);
  }

  lemma OneAmountList(c: nat, comma: bool)
    requires 1 <= c <= MaxCents
    ensures var f3: seq<nat> := if comma then [c] else [];
      var f4: seq<nat> := if comma then [] else [c];
      KeepInRange(Collect(Collect(Collect(Collect(Collect([], [], false), [], true), f3, true), f4, true), [], true)) == [c]
  {
    assert Collect([], [c], true) == [c] by {
      assert Admit([], c, true) == [c];
      assert [c][1..] == [];
    }
    assert Collect([c], [], true) == [c];
    assert KeepInRange([c]) == [c] by {
      assert [c][..0] == [];
    }
  }

  /** The printed price: at most four digits, the separator, two digits. */
  lemma TwoDecimalsShape(c: nat, sep: char)
    requires sep == ',' || sep == '.'
    requires c <= 999999
    ensures var s := TwoDecimals(c, sep); var n := |NatToString(c / 100)|;
      1 <= n <= 4 && n + 3 == |s| && s[n] == sep
      && (forall k :: 0 <= k < |s| && k != n ==> IsDigit(s[k]))
      && s[..n] == NatToString(c / 100) && s[n + 1..] == Pad2(c % 100)
  {
    var s := TwoDecimals(c, sep);
    var d := NatToString(c / 100);
    var e := Pad2(c % 100);
    var n := |d|;
    assert |d| <= 4 by {
      if |d| > 4 {
        NatToStringValue(c / 100);
        LongDigitsLarge(d);
      }
    }
    assert s == d + [sep] + e;
    forall k | 0 <= k < |s| && k != n
      ensures IsDigit(s[k])
    {
      if k < n { assert s[k] == d[k]; } else { assert s[k] == e[k - n - 1]; }
    }
    assert s[..n] == d && s[n + 1..] == e;
  }

  /** The simple pattern with the price's own separator matches the whole price. */
  lemma TwoDecimalsMatch(c: nat, sep: char)
    requires sep == ',' || sep == '.'
    requires c <= 999999
    ensures var s := TwoDecimals(c, sep);
      MatchSimple(s, 0, sep) == Some(Match(c, |s|))
  {
    var s := TwoDecimals(c, sep);
    var n := |NatToString(c / 100)|;
    TwoDecimalsShape(c, sep);
    assert !IsDigit(s[n]);
    assert AllDigits(s[0..n]) by { assert s[0..n] == s[..n]; }
    DigitRunIs(s, 0, n);
    NatToStringValue(c / 100);
    assert s[0..n] == NatToString(c / 100);
    assert s[n + 1..n + 3] == Pad2(c % 100);
  }

  /** What each of the five patterns finds in the printed price. */
  lemma TwoDecimalsScans(c: nat, sep: char)
    requires sep == ',' || sep == '.'
    requires 1 <= c <= 999999
    ensures var s := TwoDecimals(c, sep);
      FindAll(ItaWithThousands, s, 0) == [] && FindAll(UsWithThousands, s, 0) == []
      && FindAll(EuroInt, s, 0) == []
      && FindAll(ItaSimple, s, 0) == (if sep == ',' then [c] else [])
      && FindAll(UsSimple, s, 0) == (if sep == '.' then [c] else [])
  {
    var s := TwoDecimals(c, sep);
    var n := |NatToString(c / 100)|;
    TwoDecimalsShape(c, sep);
    TwoDecimalsMatch(c, sep);
    forall i | 0 <= i <= |s| ensures MatchAt(EuroInt, s, i) == None {
      if i < |s| { assert i == n || IsDigit(s[i]); }
    }
    FindNothing(EuroInt, s, 0);
    forall i | 0 <= i <= |s|
      ensures MatchGrouped(s, i, '.', ',') == None && MatchGrouped(s, i, ',', '.') == None
    {
      NoSecondSeparator(s, n, i);
    }
    FindNothing(ItaWithThousands, s, 0);
    FindNothing(UsWithThousands, s, 0);
    var other := if sep == ',' then '.' else ',';
    forall i | 0 <= i <= |s| ensures MatchSimple(s, i, other) == None {
      NoSecondSeparator(s, n, i);
    }
    if sep == ',' {
      FindNothing(UsSimple, s, 0);
      assert FindAll(ItaSimple, s, 0) == [c];
    } else {
      FindNothing(ItaSimple, s, 0);
      assert FindAll(UsSimple, s, 0) == [c];
    }
  }

  lemma {:induction false} LongDigitsLarge(d: string)
    requires AllDigits(d) && |d| > 4 && d[0] != '0'
    ensures DigitsValue(d) >= 10000
    decreases |d|
  {
    if |d| > 5 {
      LongDigitsLarge(d[..|d| - 1]);
    } else {
      var p := d[..|d| - 1];
      assert p[0] == d[0];
      LeadingDigitBound(p);
      assert Pow10(3) == 1000 by {
        assert Pow10(1) == 10;
        assert Pow10(2) == 100;
      }
    }
  }

  lemma {:induction false} LeadingDigitBound(d: string)
    requires AllDigits(d) && |d| >= 1 && d[0] != '0'
    ensures DigitsValue(d) >= Pow10(|d| - 1)
    decreases |d|
  {
    if |d| > 1 {
      var p := d[..|d| - 1];
      assert p[0] == d[0];
      LeadingDigitBound(p);
    }
  }

  function Pow10(k: nat): nat {
    if k == 0 then 1 else 10 * Pow10(k - 1)
  }

  /**
   * In a text of digits with a single separator at `n`, no pattern needing
   * two separators, or a separator other than the one at `n`, matches.
   */
  lemma NoSecondSeparator(s: string, n: nat, i: nat)
    requires n < |s| && i <= |s| && IsSeparator(s[n])
    requires forall k :: 0 <= k < |s| && k != n ==> IsDigit(s[k])
    ensures MatchGrouped(s, i, '.', ',') == None && MatchGrouped(s, i, ',', '.') == None
    ensures MatchSimple(s, i, if s[n] == ',' then '.' else ',') == None
  {
  }

  // ------------------------------------------------------- worked examples

  const EuroSample: string := "EUR 12,50"

  lemma NoPoint(s: string, i: nat)
    requires i <= |s| && '.' !in s
    ensures MatchGrouped(s, i, '.', ',') == None && MatchGrouped(s, i, ',', '.') == None
    ensures MatchSimple(s, i, '.') == None
  {
    var n := DigitRun(s, i);
    if i + n + 7 <= |s| { assert s[i + n] in s && s[i + n + 4] in s; }
    if i + n + 3 <= |s| { assert s[i + n] in s; }
  }

  lemma SampleIta()
    ensures FindAll(ItaSimple, EuroSample, 0) == [1250]
  {
    var s := EuroSample;
    SampleItaMatch();
    assert FindAll(ItaSimple, s, 9) == [];
    SampleItaPrefix();
  }

  /** The comma pattern matches "12,50" at position 4. */
  lemma SampleItaMatch()
    ensures MatchSimple(EuroSample, 4, ',') == Some(Match(1250, 9))
  {
    var s := EuroSample;
    assert DigitRun(s, 4) == 2 by { DigitRunIs(s, 4, 2); }
    assert DigitsValue(s[4..6]) == 12 by { TwoDigits(s[4..6]); }
    assert DigitsValue(s[7..9]) == 50 by { TwoDigits(s[7..9]); }
  }

  /** Before position 4 the comma pattern finds nothing: "EUR " holds no digit. */
  lemma SampleItaPrefix()
    ensures FindAll(ItaSimple, EuroSample, 0) == FindAll(ItaSimple, EuroSample, 4)
  {
    var s := EuroSample;
    assert MatchAt(ItaSimple, s, 0) == None by { assert DigitRun(s, 0) == 0; }
    assert MatchAt(ItaSimple, s, 1) == None by { assert DigitRun(s, 1) == 0; }
    assert MatchAt(ItaSimple, s, 2) == None by { assert DigitRun(s, 2) == 0; }
    assert MatchAt(ItaSimple, s, 3) == None by { assert DigitRun(s, 3) == 0; }
    FindSkip(ItaSimple, s, 0, 4);
  }

  lemma SampleEuro()
    ensures FindAll(EuroInt, EuroSample, 0) == [100]
  {
    SampleEuroMatch();
    SampleEuroTail();
  }

  /** At position 0 the currency pattern takes "EUR 1": "12" is refused by the lookahead. */
  lemma SampleEuroMatch()
    ensures MatchAt(EuroInt, EuroSample, 0) == Some(Match(100, 5))
  {
    var s := EuroSample;
    assert URRun(s, 1) == 2;
    assert SpaceRun(s, 3) == 1;
    assert DigitRun(s, 4) == 2 by { DigitRunIs(s, 4, 2); }
    assert DigitsValue(s[4..5]) == 1 by { OneDigit(s[4..5]); }
    assert EuroDigits(s, 4) == Some(Match(100, 5));
  }

  /** After "EUR 1" no `E` follows, so the currency pattern finds nothing more. */
  lemma SampleEuroTail()
    ensures FindAll(EuroInt, EuroSample, 5) == []
  {
    var s := EuroSample;
    assert MatchAt(EuroInt, s, 5) == None by { assert s[5] == '2'; }
    assert MatchAt(EuroInt, s, 6) == None by { assert s[6] == ','; }
    assert MatchAt(EuroInt, s, 7) == None by { assert s[7] == '5'; }
    assert MatchAt(EuroInt, s, 8) == None by { assert s[8] == '0'; }
    FindSkip(EuroInt, s, 5, 9);
  }

  lemma NoEuroLead(s: string, i: nat)
    requires i <= |s| && '€' !in s && 'E' !in s && 'e' !in s
    ensures MatchEuroInt(s, i) == None
  {
    if i < |s| { assert s[i] in s; }
  }

  lemma AmountsFromScans(text: string, f1: seq<nat>, f2: seq<nat>, f3: seq<nat>, f4: seq<nat>, f5: seq<nat>)
    requires FindAll(ItaWithThousands, text, 0) == f1 && FindAll(UsWithThousands, text, 0) == f2
    requires FindAll(ItaSimple, text, 0) == f3 && FindAll(UsSimple, text, 0) == f4
    requires FindAll(EuroInt, text, 0) == f5
    ensures Amounts(text)
            == KeepInRange(Collect(Collect(Collect(Collect(Collect([], f1, false), f2, true), f3, true), f4, true), f5, true))
  {
  }

  lemma SampleNoPoint()
    ensures FindAll(ItaWithThousands, EuroSample, 0) == [] && FindAll(UsWithThousands, EuroSample, 0) == []
    ensures FindAll(UsSimple, EuroSample, 0) == []
  {
    var s := EuroSample;
    forall i | 0 <= i <= |s|
      ensures MatchAt(ItaWithThousands, s, i) == None && MatchAt(UsWithThousands, s, i) == None
      ensures MatchAt(UsSimple, s, i) == None
    {
      NoPoint(s, i);
    }
    FindNothing(ItaWithThousands, s, 0);
    FindNothing(UsWithThousands, s, 0);
    FindNothing(UsSimple, s, 0);
  }

  /**
   * "EUR 12,50" yields 12.50 from the comma pattern and also 1.00 from the
   * currency pattern: its greedy "12" is refused by the lookahead (",5")
   * and the matcher settles for "1".
   */
  lemma EuroWithDecimals(s: string)
    requires s == EuroSample
    ensures Amounts(s) == [1250, 100]
  {
    SampleNoPoint();
    SampleIta();
    SampleEuro();
    AmountsFromScans(s, [], [], [1250], [], [100]);
    EuroLists();
  }

  lemma EuroLists()
    ensures KeepInRange(Collect(Collect(Collect(Collect(Collect([], [], false), [], true), [1250], true), [], true), [100], true))
            == [1250, 100]
  {
    assert Collect([], [1250], true) == [1250] by { assert [1250][1..] == []; }
    assert Collect([1250], [100], true) == [1250, 100] by { assert [100][1..] == []; }
    assert KeepInRange([1250, 100]) == [1250, 100] by {
      assert [1250, 100][..1] == [1250];
      assert [1250][..0] == [];
    }
  }

  const GroupedSample: string := "1.234,56"

  lemma GroupedIta()
    ensures FindAll(ItaWithThousands, GroupedSample, 0) == [123456]
  {
    var s := GroupedSample;
    assert DigitRun(s, 0) == 1 by { DigitRunIs(s, 0, 1); }
    assert DigitsValue(s[0..1]) == 1 by { OneDigit(s[0..1]); }
    assert DigitsValue(s[2..5]) == 234 by { ThreeDigits(s[2..5]); }
    assert DigitsValue(s[6..8]) == 56 by { TwoDigits(s[6..8]); }
    assert MatchGrouped(s, 0, '.', ',') == Some(Match(123456, 8));
  }

  lemma GroupedUs()
    ensures FindAll(UsWithThousands, GroupedSample, 0) == []
  {
    var s := GroupedSample;
    assert DigitRun(s, 0) == 1 by { DigitRunIs(s, 0, 1); }
    assert DigitRun(s, 1) == 0;
    forall i | 0 <= i <= |s| ensures MatchGrouped(s, i, ',', '.') == None {
    }
    FindNothing(UsWithThousands, s, 0);
  }

  lemma GroupedItaSimple()
    ensures FindAll(ItaSimple, GroupedSample, 0) == [3456]
  {
    GroupedItaSimpleMatch();
    assert FindAll(ItaSimple, GroupedSample, 8) == [];
    GroupedItaSimplePrefix();
  }

  /** The comma pattern matches "34,56" at position 3. */
  lemma GroupedItaSimpleMatch()
    ensures MatchSimple(GroupedSample, 3, ',') == Some(Match(3456, 8))
  {
    var s := GroupedSample;
    assert DigitRun(s, 3) == 2 by { DigitRunIs(s, 3, 2); }
    assert DigitsValue(s[3..5]) == 34 by { TwoDigits(s[3..5]); }
    assert DigitsValue(s[6..8]) == 56 by { TwoDigits(s[6..8]); }
  }

  /** At 0 the run "1" meets a point, at 1 there is no digit, at 2 the lookbehind refuses "1.". */
  lemma GroupedItaSimplePrefix()
    ensures FindAll(ItaSimple, GroupedSample, 0) == FindAll(ItaSimple, GroupedSample, 3)
  {
    var s := GroupedSample;
    assert MatchAt(ItaSimple, s, 0) == None by { DigitRunIs(s, 0, 1); }
    assert MatchAt(ItaSimple, s, 1) == None by { assert DigitRun(s, 1) == 0; }
    assert MatchAt(ItaSimple, s, 2) == None by { assert !NotAfterDigitSeparator(s, 2); }
    FindSkip(ItaSimple, s, 0, 3);
  }

  lemma GroupedUsSimple()
    ensures FindAll(UsSimple, GroupedSample, 0) == [123]
  {
    GroupedUsSimpleMatch();
    GroupedUsSimpleTail();
  }

  /** The point pattern matches "1.23" at position 0. */
  lemma GroupedUsSimpleMatch()
    ensures MatchSimple(GroupedSample, 0, '.') == Some(Match(123, 4))
  {
    var s := GroupedSample;
    assert DigitRun(s, 0) == 1 by { DigitRunIs(s, 0, 1); }
    assert DigitsValue(s[0..1]) == 1 by { OneDigit(s[0..1]); }
    assert DigitsValue(s[2..4]) == 23 by { TwoDigits(s[2..4]); }
  }

  /** After "1.23" the run "4" meets a comma and the run "56" is too short, so nothing more matches. */
  lemma GroupedUsSimpleTail()
    ensures FindAll(UsSimple, GroupedSample, 4) == []
  {
    var s := GroupedSample;
    assert MatchAt(UsSimple, s, 4) == None by { DigitRunIs(s, 4, 1); }
    assert MatchAt(UsSimple, s, 5) == None by { assert DigitRun(s, 5) == 0; }
    assert MatchAt(UsSimple, s, 6) == None;
    assert MatchAt(UsSimple, s, 7) == None;
    FindSkip(UsSimple, s, 4, 8);
  }

  lemma GroupedNoEuro()
    ensures FindAll(EuroInt, GroupedSample, 0) == []
  {
    var s := GroupedSample;
    forall i | 0 <= i <= |s| ensures MatchAt(EuroInt, s, i) == None {
      NoEuroLead(s, i);
    }
    FindNothing(EuroInt, s, 0);
  }

  /**
   * "1.234,56" yields 1234.56 from the grouped pattern, and the simple
   * patterns, scanning the same text on their own, add 34.56 and 1.23.
   */
  lemma GroupedEuropean(s: string)
    requires s == GroupedSample
    ensures Amounts(s) == [123456, 3456, 123]
  {
    GroupedNoEuro();
    GroupedIta();
    GroupedUs();
    GroupedItaSimple();
    GroupedUsSimple();
    AmountsFromScans(s, [123456], [], [3456], [123], []);
    GroupedLists();
  }

  lemma GroupedLists()
    ensures KeepInRange(Collect(Collect(Collect(Collect(Collect([], [123456], false), [], true), [3456], true), [123], true), [], true))
            == [123456, 3456, 123]
  {
    assert Collect([], [123456], false) == [123456] by { assert [123456][1..] == []; }
    assert Collect([123456], [3456], true) == [123456, 3456] by { assert [3456][1..] == []; }
    assert Collect([123456, 3456], [123], true) == [123456, 3456, 123] by { assert [123][1..] == []; }
    var r := [123456, 3456, 123];
    assert KeepInRange(r) == r by {
      assert r[..2] == [123456, 3456];
      assert r[..2][..1] == [123456];
      assert r[..2][..1][..0] == [];
    }
  }
}
