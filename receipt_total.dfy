/**
 * `findTotalInText`: the receipt reader's choice of the total. Every
 * non-blank line of the cleaned text is checked against the keyword tables;
 * the amounts of a line that is not excluded become candidates with the
 * line's tier, and the largest amount of the highest tier present wins. With
 * no keyword tier at all, the largest amount of the last five lines, and
 * then the largest plausible amount anywhere, is taken.
 */
module ReceiptTotal {
  import opened Wrappers
  import opened Strings
  import opened ReceiptCleaning
  import opened AmountScanner

  const HighPriorityPatterns: seq<string> := [
    "TOTALE EURO", "TOTALE EUR", "TOTAL EURO", "TOTAL EUR", "TOTALE COMPLESSIVO", "TOTALE DA PAGARE",
    "IMPORTO DOVUTO", "DA PAGARE", "AMOUNT DUE", "TOTALE €", "TOTAL €"]

  const MediumPriorityPatterns: seq<string> := [
    "TOTALE", "TOTAL", "TOT.EURO", "TOT. EURO", "TOT.EUR", "TOT. EUR", "IMPORTO TOTALE", "IMPORTO",
    "AMOUNT", "SALDO", "DOVUTO"]

  const LowPriorityPatterns: seq<string> := [
    "TOT.", "TOT ", "PAGATO", "CONTANTI", "CONTANTE", "CARTA", "BANCOMAT", "POS", "CASH", "RESTO"]

  const ExcludePatterns: seq<string> := [
    "SUBTOTALE", "SUBTOTAL", "SUB-TOTALE", "SUB TOTALE", "IVA", "VAT", "SCONTO", "DISCOUNT", "RESTO",
    "CHANGE", "PUNTI", "POINTS"]

  /** The amounts of the last fallback lie strictly between 1.00 and 10000.00. */
  const FallbackLow: nat := 100
  const FallbackHigh: nat := 1000000

  /** `keys.any { s.contains(it) }`. */
  predicate ContainsAny(s: string, keys: seq<string>) {
    exists k :: k in keys && Contains(s, k)
  }

  /** `lines.filter { it.isNotBlank() }`. */
  function NonBlank(lines: seq<string>): (r: seq<string>)
    ensures forall l :: l in r <==> l in lines && !IsBlank(l)
    decreases |lines|
  {
    if lines == [] then []
    else
      var last := lines[|lines| - 1];
      assert lines == lines[..|lines| - 1] + [last];
      NonBlank(lines[..|lines| - 1]) + (if IsBlank(last) then [] else [last])
  }

  /** The lines examined: the non-blank lines of the cleaned text. */
  function ReceiptLines(text: string): seq<string> {
    NonBlank(SplitLines(CleanText(text)))
  }

  /** A line is skipped when it holds an exclusion keyword and not the word `TOTALE`. */
  predicate IsExcluded(upper: string) {
    exists k :: k in ExcludePatterns && Contains(upper, k) && !Contains(upper, "TOTALE")
  }

  /** The tier of a line: 3, 2 or 1 for the first table one of whose keywords it holds, else 0. */
  function Priority(upper: string): (p: nat)
    ensures p <= 3
  {
    if ContainsAny(upper, HighPriorityPatterns) then 3
    else if ContainsAny(upper, MediumPriorityPatterns) then 2
    else if ContainsAny(upper, LowPriorityPatterns) then 1
    else 0
  }

  datatype Candidate = Candidate(amount: nat, priority: nat, lineIndex: nat, source: string)

  /** The inner loop over a line's amounts: each passes `priority > 0 || amount > 0`. */
  function Tag(amounts: seq<nat>, priority: nat, index: nat, line: string): seq<Candidate>
    decreases |amounts|
  {
    if amounts == [] then []
    else
      var a := amounts[|amounts| - 1];
      Tag(amounts[..|amounts| - 1], priority, index, line)
      + (if priority > 0 || a > 0 then [Candidate(a, priority, index, line)] else [])
  }

  /** What the line at `index` adds to the candidates. */
  function LineCandidates(line: string, index: nat): seq<Candidate> {
    var upper := Upper(line);
    if IsExcluded(upper) then [] else Tag(Amounts(line), Priority(upper), index, line)
  }

  /** The candidates of the first `n` lines. */
  function Candidates(lines: seq<string>, n: nat): seq<Candidate>
    requires n <= |lines|
  {
    if n == 0 then [] else Candidates(lines, n - 1) + LineCandidates(lines[n - 1], n - 1)
  }

  /** `candidates.filter { it.priority == tier }`, as amounts. */
  function AmountsOfTier(cands: seq<Candidate>, tier: nat): (r: seq<nat>)
    ensures forall x :: x in r <==> exists c :: c in cands && c.priority == tier && c.amount == x
    decreases |cands|
  {
    if cands == [] then []
    else
      var c := cands[|cands| - 1];
      assert cands == cands[..|cands| - 1] + [c];
      AmountsOfTier(cands[..|cands| - 1], tier) + (if c.priority == tier then [c.amount] else [])
  }

  /** `maxOrNull()`. */
  function MaxOf(xs: seq<nat>): (r: Option<nat>)
    ensures r.None? <==> xs == []
    ensures r.Some? ==> r.value in xs && forall x :: x in xs ==> x <= r.value
    decreases |xs|
  {
    if xs == [] then None
    else
      assert forall x :: x in xs ==> x == xs[0] || x in xs[1..];
      match MaxOf(xs[1..])
      case None => Some(xs[0])
      case Some(m) => if xs[0] >= m then Some(xs[0]) else Some(m)
  }

  /** `lines.flatMap { extractAmounts(it) }`. */
  function AllAmounts(lines: seq<string>): seq<nat>
    decreases |lines|
  {
    if lines == [] then [] else AllAmounts(lines[..|lines| - 1]) + Amounts(lines[|lines| - 1])
  }

  /** `takeLast(n)`. */
  function TakeLast(lines: seq<string>, n: nat): (r: seq<string>)
    ensures |r| == if |lines| < n then |lines| else n
    ensures r == lines[|lines| - |r|..]
  {
    if |lines| <= n then lines else lines[|lines| - n..]
  }

  /** `filter { it > 1.0 && it < 10000.0 }`. */
  function InFallbackRange(xs: seq<nat>): (r: seq<nat>)
    ensures forall x :: x in r <==> x in xs && FallbackLow < x < FallbackHigh
    decreases |xs|
  {
    if xs == [] then []
    else
      var last := xs[|xs| - 1];
      assert xs == xs[..|xs| - 1] + [last];
      InFallbackRange(xs[..|xs| - 1]) + (if FallbackLow < last < FallbackHigh then [last] else [])
  }

  /** The total `findTotalInText` returns for `text`, in cents. */
  function FindTotal(text: string): Option<nat> {
    var lines := ReceiptLines(text);
    SelectTotal(Candidates(lines, |lines|), lines)
  }

  /** The selection strategy, given the candidates of `lines`. */
  function SelectTotal(cands: seq<Candidate>, lines: seq<string>): Option<nat> {
    if AmountsOfTier(cands, 3) != [] then MaxOf(AmountsOfTier(cands, 3))
    else if AmountsOfTier(cands, 2) != [] then MaxOf(AmountsOfTier(cands, 2))
    else if AmountsOfTier(cands, 1) != [] then MaxOf(AmountsOfTier(cands, 1))
    else
      var lastLineAmounts := AllAmounts(TakeLast(lines, 5));
      if lastLineAmounts != [] then MaxOf(lastLineAmounts)
      else MaxOf(InFallbackRange(AllAmounts(lines)))
  }

  /** `findTotalInText`: collect the candidates line by line, then select. */
  method FindTotalInText(text: string) returns (total: Option<nat>)
    ensures total == FindTotal(text)
  {
    var cleanedText := CleanText(text);
    var lines := NonBlank(SplitLines(cleanedText));
    var candidates := CollectCandidates(lines);
    var highPriority := AmountsOfTier(candidates, 3);
    if highPriority != [] {
      return MaxOf(highPriority);
    }
    var mediumPriority := AmountsOfTier(candidates, 2);
    if mediumPriority != [] {
      return MaxOf(mediumPriority);
    }
    var lowPriority := AmountsOfTier(candidates, 1);
    if lowPriority != [] {
      return MaxOf(lowPriority);
    }
    var lastLineAmounts := ExtractFromLines(TakeLast(lines, 5));
    if lastLineAmounts != [] {
      return MaxOf(lastLineAmounts);
    }
    var allAmounts := AllAmounts(lines);
    return MaxOf(InFallbackRange(allAmounts));
  }

  /** The loop over the lines that fills `candidates`. */
  method CollectCandidates(lines: seq<string>) returns (candidates: seq<Candidate>)
    ensures candidates == Candidates(lines, |lines|)
  {
    candidates := [];
    for index := 0 to |lines|
      invariant candidates == Candidates(lines, index)
    {
      var found := LineCandidatesAt(lines[index], index);
      candidates := candidates + found;
    }
  }

  /** The body of the loop over the lines: an excluded line is skipped, any other adds its amounts. */
  method LineCandidatesAt(line: string, index: nat) returns (found: seq<Candidate>)
    ensures found == LineCandidates(line, index)
  {
    var upperLine := Upper(line);
    if IsExcluded(upperLine) {
      return [];
    }
    var amounts := ExtractAmounts(line);
    found := TagAmounts(amounts, Priority(upperLine), index, line);
  }

  /** The inner `amounts.forEach`, which adds the amounts of one line with its tier. */
  method TagAmounts(amounts: seq<nat>, priority: nat, index: nat, line: string) returns (tagged: seq<Candidate>)
    ensures tagged == Tag(amounts, priority, index, line)
  {
    tagged := [];
    for j := 0 to |amounts|
      invariant tagged == Tag(amounts[..j], priority, index, line)
    {
      var amount := amounts[j];
      if priority > 0 || amount > 0 {
        tagged := tagged + [Candidate(amount, priority, index, line)];
      }
      assert amounts[..j + 1][..j] == amounts[..j];
    }
    assert amounts[..|amounts|] == amounts;
  }

  /** The fallback loop `for (line in lastLines) lastLineAmounts.addAll(extractAmounts(line))`. */
  method ExtractFromLines(lines: seq<string>) returns (amounts: seq<nat>)
    ensures amounts == AllAmounts(lines)
  {
    amounts := [];
    for k := 0 to |lines|
      invariant amounts == AllAmounts(lines[..k])
    {
      var found := ExtractAmounts(lines[k]);
      amounts := amounts + found;
      assert lines[..k + 1][..k] == lines[..k];
    }
    assert lines[..|lines|] == lines;
  }

  // ---------------------------------------------------------------- properties

  /** Every amount is positive, so each one becomes a candidate carrying the line's tier. */
  lemma {:induction false} TagAll(amounts: seq<nat>, priority: nat, index: nat, line: string)
    requires forall x :: x in amounts ==> x > 0
    ensures |Tag(amounts, priority, index, line)| == |amounts|
    ensures forall k :: 0 <= k < |amounts| ==>
      Tag(amounts, priority, index, line)[k] == Candidate(amounts[k], priority, index, line)
    decreases |amounts|
  {
    if amounts != [] {
      var init := amounts[..|amounts| - 1];
      assert forall x :: x in init ==> x in amounts;
      assert amounts[|amounts| - 1] in amounts;
      TagAll(init, priority, index, line);
    }
  }

  /**
   * An excluded line contributes nothing; any other line contributes one
   * candidate per extracted amount, in order, all with the line's tier.
   */
  lemma LineCandidatesShape(line: string, index: nat)
    ensures IsExcluded(Upper(line)) ==> LineCandidates(line, index) == []
    ensures !IsExcluded(Upper(line)) ==>
      var cs := LineCandidates(line, index);
      |cs| == |Amounts(line)|
      && forall k :: 0 <= k < |cs| ==> cs[k] == Candidate(Amounts(line)[k], Priority(Upper(line)), index, line)
  {
    if !IsExcluded(Upper(line)) {
      TagAll(Amounts(line), Priority(Upper(line)), index, line);
    }
  }

  /**
   * `RESTO` is both a low-tier and an exclusion keyword, so a line holding it
   * is skipped unless it also holds `TOTALE`, which puts it in tier 2 or 3:
   * it never yields a tier-1 candidate.
   */
  lemma RestoNeverTierOne(line: string, index: nat)
    requires Contains(Upper(line), "RESTO")
    ensures forall c :: c in LineCandidates(line, index) ==> c.priority >= 2
  {
    var upper := Upper(line);
    LineCandidatesShape(line, index);
    if Contains(upper, "TOTALE") {
      assert MediumPriorityPatterns[0] == "TOTALE";
      assert ContainsAny(upper, MediumPriorityPatterns);
      assert Priority(upper) >= 2;
      forall c | c in LineCandidates(line, index) ensures c.priority >= 2 {
        var k :| 0 <= k < |LineCandidates(line, index)| && LineCandidates(line, index)[k] == c;
      }
    } else {
      assert ExcludePatterns[8] == "RESTO";
      assert IsExcluded(upper);
    }
  }

  /** Candidate `c` was read from a line of `lines` that is not excluded, with that line's tier. */
  ghost predicate ReadFrom(c: Candidate, lines: seq<string>) {
    c.lineIndex < |lines| && c.source == lines[c.lineIndex] && !IsExcluded(Upper(c.source))
    && c.priority == Priority(Upper(c.source)) && c.amount in Amounts(c.source)
  }

  /** Each candidate comes from a line that is not excluded, with that line's tier and one of its amounts. */
  lemma {:induction false} CandidatesSound(lines: seq<string>, n: nat)
    requires n <= |lines|
    ensures forall c :: c in Candidates(lines, n) ==> c.lineIndex < n && ReadFrom(c, lines)
  {
    if n > 0 {
      CandidatesSound(lines, n - 1);
      LineCandidatesRead(lines, n - 1);
    }
  }

  lemma LineCandidatesRead(lines: seq<string>, i: nat)
    requires i < |lines|
    ensures forall c :: c in LineCandidates(lines[i], i) ==> c.lineIndex == i && ReadFrom(c, lines)
  {
    var line := lines[i];
    var cs := LineCandidates(line, i);
    LineCandidatesShape(line, i);
    forall c | c in cs ensures c.lineIndex == i && ReadFrom(c, lines) {
      var k :| 0 <= k < |cs| && cs[k] == c;
      assert Amounts(line)[k] in Amounts(line);
    }
  }

  lemma {:induction false} AmountOfLine(lines: seq<string>, l: string, x: nat)
    requires l in lines && x in Amounts(l)
    ensures x in AllAmounts(lines)
    decreases |lines|
  {
    var init := lines[..|lines| - 1];
    if l != lines[|lines| - 1] {
      assert lines == init + [lines[|lines| - 1]];
      AmountOfLine(init, l, x);
    }
  }

  lemma {:induction false} AmountSource(lines: seq<string>, x: nat) returns (l: string)
    requires x in AllAmounts(lines)
    ensures l in lines && x in Amounts(l)
    decreases |lines|
  {
    var init := lines[..|lines| - 1];
    if x in Amounts(lines[|lines| - 1]) {
      l := lines[|lines| - 1];
    } else {
      l := AmountSource(init, x);
    }
  }

  /** Every total returned is an amount in [0.01, 99999.99]: on every selection path. */
  lemma FindTotalInRange(text: string)
    ensures FindTotal(text).Some? ==> 1 <= FindTotal(text).value <= MaxCents
  {
    var lines := ReceiptLines(text);
    var cands := Candidates(lines, |lines|);
    CandidatesSound(lines, |lines|);
    var r := FindTotal(text);
    if r.Some? {
      var last := AllAmounts(TakeLast(lines, 5));
      if AmountsOfTier(cands, 3) != [] || AmountsOfTier(cands, 2) != [] || AmountsOfTier(cands, 1) != [] {
        var t := if AmountsOfTier(cands, 3) != [] then 3 else if AmountsOfTier(cands, 2) != [] then 2 else 1;
        assert r.value in AmountsOfTier(cands, t);
        var c :| c in cands && c.priority == t && c.amount == r.value;
        assert ReadFrom(c, lines);
      } else if last != [] {
        var l := AmountSource(TakeLast(lines, 5), r.value);
      } else {
        var l := AmountSource(lines, r.value);
      }
    }
  }

  /**
   * When a keyword tier is present, the total is the largest amount of the
   * highest tier present: a larger amount of a lower tier never wins.
   */
  lemma TierSelection(cands: seq<Candidate>, lines: seq<string>, tier: nat)
    requires 1 <= tier <= 3
    requires exists c :: c in cands && c.priority == tier
    requires forall c :: c in cands ==> c.priority <= tier
    ensures var r := SelectTotal(cands, lines);
      r.Some?
      && (exists c :: c in cands && c.priority == tier && c.amount == r.value)
      && (forall c :: c in cands && c.priority == tier ==> c.amount <= r.value)
  {
    var w :| w in cands && w.priority == tier;
    var amounts := AmountsOfTier(cands, tier);
    assert w.amount in amounts;
    if tier == 3 {
      assert SelectTotal(cands, lines) == MaxOf(amounts);
    } else if tier == 2 {
      NoTier(cands, 3);
      assert SelectTotal(cands, lines) == MaxOf(amounts);
    } else {
      NoTier(cands, 3);
      NoTier(cands, 2);
      assert SelectTotal(cands, lines) == MaxOf(amounts);
    }
    var r := MaxOf(amounts);
    assert r.value in amounts;
    forall c | c in cands && c.priority == tier ensures c.amount <= r.value {
      assert c.amount in amounts;
    }
  }

  lemma NoTier(cands: seq<Candidate>, u: nat)
    requires forall c :: c in cands ==> c.priority != u
    ensures AmountsOfTier(cands, u) == []
  {
  }

  /**
   * With no keyword tier at all, the total is the largest amount read from
   * the last five examined lines, excluded lines included, when they hold any.
   */
  lemma FallbackLastLines(cands: seq<Candidate>, lines: seq<string>)
    requires forall c :: c in cands ==> c.priority == 0
    requires exists l, x :: l in TakeLast(lines, 5) && x in Amounts(l)
    ensures var last := TakeLast(lines, 5);
      var r := SelectTotal(cands, lines);
      r.Some? && (exists l :: l in last && r.value in Amounts(l))
      && forall l, x :: l in last && x in Amounts(l) ==> x <= r.value
  {
    SelectWithoutTier(cands, lines);
    var last := TakeLast(lines, 5);
    var l, x :| l in last && x in Amounts(l);
    AmountOfLine(last, l, x);
    var r := MaxOf(AllAmounts(last));
    var source := AmountSource(last, r.value);
    forall l', x' | l' in last && x' in Amounts(l') ensures x' <= r.value {
      AmountOfLine(last, l', x');
    }
  }

  lemma SelectWithoutTier(cands: seq<Candidate>, lines: seq<string>)
    requires forall c :: c in cands ==> c.priority == 0
    ensures var lastLineAmounts := AllAmounts(TakeLast(lines, 5));
      SelectTotal(cands, lines)
      == if lastLineAmounts != [] then MaxOf(lastLineAmounts) else MaxOf(InFallbackRange(AllAmounts(lines)))
  {
    NoTier(cands, 1);
    NoTier(cands, 2);
    NoTier(cands, 3);
  }

  /**
   * When the last five lines hold no amount either, the total is the largest
   * amount strictly between 1.00 and 10000.00 on any line, and there is no
   * total when there is no such amount.
   */
  lemma FallbackAnywhere(cands: seq<Candidate>, lines: seq<string>)
    requires forall c :: c in cands ==> c.priority == 0
    requires forall l :: l in TakeLast(lines, 5) ==> Amounts(l) == []
    ensures var r := SelectTotal(cands, lines);
      (r.Some? <==> exists l, x :: l in lines && x in Amounts(l) && FallbackLow < x < FallbackHigh)
      && (r.Some? ==> FallbackLow < r.value < FallbackHigh && exists l :: l in lines && r.value in Amounts(l))
      && (r.Some? ==> forall l, x :: l in lines && x in Amounts(l) && FallbackLow < x < FallbackHigh ==> x <= r.value)
  {
    var plausible := InFallbackRange(AllAmounts(lines));
    var r := MaxOf(plausible);
    assert SelectTotal(cands, lines) == r by {
      SelectWithoutTier(cands, lines);
      NoAmounts(TakeLast(lines, 5));
    }
    if r.Some? {
      var source := AmountSource(lines, r.value);
      forall l, x | l in lines && x in Amounts(l) && FallbackLow < x < FallbackHigh
        ensures x <= r.value
      {
        AmountOfLine(lines, l, x);
      }
    } else {
      forall l, x | l in lines && x in Amounts(l) ensures !(FallbackLow < x < FallbackHigh) {
        AmountOfLine(lines, l, x);
      }
    }
  }

  lemma {:induction false} NoAmounts(lines: seq<string>)
    requires forall l :: l in lines ==> Amounts(l) == []
    ensures AllAmounts(lines) == []
    decreases |lines|
  {
    if lines != [] {
      assert lines[|lines| - 1] in lines;
      NoAmounts(lines[..|lines| - 1]);
    }
  }

  /** An empty or blank text has no total. */
  lemma BlankTextHasNoTotal(text: string)
    requires IsBlank(text)
    ensures FindTotal(text) == None
  {
    CleanTextProperties(text);
    assert SplitLines([]) == [""];
    assert IsBlank("");
    assert NonBlank([""]) == [] by { assert [""][..0] == []; }
    assert ReceiptLines(text) == [];
  }

  // ------------------------------------------- cleaning before the keywords

  /** The examined lines hold none of the characters cleaning removes. */
  lemma ReceiptLineChars(text: string, line: string)
    requires line in ReceiptLines(text)
    ensures forall c :: c in line ==> !Removed(c)
  {
    CleanTextProperties(text);
    SplitLinesChars(CleanText(text));
  }

  /**
   * Cleaning runs before the keyword checks, so a keyword with an `O` can only
   * be found on a line written with a lower-case `o`, and a keyword with an
   * `L` only on a line written with an upper-case `L`.
   */
  lemma KeywordLetters(text: string, line: string, k: string)
    requires line in ReceiptLines(text) && Contains(Upper(line), k)
    ensures 'O' in k ==> 'o' in line
    ensures 'L' in k ==> 'L' in line
  {
    ReceiptLineChars(text, line);
    CleanKeywordLetters(line, k);
  }

  /** The same, for any line holding none of the characters cleaning removes. */
  lemma CleanKeywordLetters(line: string, k: string)
    requires forall c :: c in line ==> !Removed(c)
    requires Contains(Upper(line), k)
    ensures 'O' in k ==> 'o' in line
    ensures 'L' in k ==> 'L' in line
  {
    if 'O' in k && 'o' !in line {
      UpperChars(line, 'O');
      ContainsChar(Upper(line), k, 'O');
    }
    if 'L' in k && 'L' !in line {
      UpperChars(line, 'L');
      ContainsChar(Upper(line), k, 'L');
    }
  }

  /**
   * A line without a lower-case `o` (an all-capitals `TOTALE 12,50` reaches
   * the checks as `T0TALE 12,50`) is never in tier 2, is in tier 3 only
   * through `DA PAGARE`, in tier 1 only through `CARTA` or `CASH`, and is
   * excluded only by `IVA`, `VAT`, `CHANGE` or `PUNTI`.
   */
  lemma TiersWithoutLowerO(text: string, line: string)
    requires line in ReceiptLines(text) && 'o' !in line
    ensures var u := Upper(line);
      Priority(u) != 2
      && (Priority(u) == 3 <==> Contains(u, "DA PAGARE"))
      && (Priority(u) == 1 <==> !Contains(u, "DA PAGARE") && (Contains(u, "CARTA") || Contains(u, "CASH")))
      && (IsExcluded(u) <==>
            Contains(u, "IVA") || Contains(u, "VAT") || Contains(u, "CHANGE") || Contains(u, "PUNTI"))
  {
    var u := Upper(line);
    NoKeywordWithO(text, line);
    HighWithoutO(u);
    MediumWithoutO(u);
    LowWithoutO(u);
    ExcludeWithoutO(u);
  }

  lemma NoKeywordWithO(text: string, line: string)
    requires line in ReceiptLines(text) && 'o' !in line
    ensures forall k :: 'O' in k ==> !Contains(Upper(line), k)
  {
    forall k | 'O' in k ensures !Contains(Upper(line), k) {
      if Contains(Upper(line), k) {
        KeywordLetters(text, line, k);
      }
    }
  }

  lemma HighWithoutO(u: string)
    requires forall k :: 'O' in k ==> !Contains(u, k)
    ensures ContainsAny(u, HighPriorityPatterns) <==> Contains(u, "DA PAGARE")
  {
    assert forall k :: k in HighPriorityPatterns ==> 'O' in k || k == "DA PAGARE";
    assert HighPriorityPatterns[7] == "DA PAGARE";
  }

  lemma MediumWithoutO(u: string)
    requires forall k :: 'O' in k ==> !Contains(u, k)
    ensures !ContainsAny(u, MediumPriorityPatterns)
  {
    assert forall k :: k in MediumPriorityPatterns ==> 'O' in k;
  }

  lemma LowWithoutO(u: string)
    requires forall k :: 'O' in k ==> !Contains(u, k)
    ensures ContainsAny(u, LowPriorityPatterns) <==> Contains(u, "CARTA") || Contains(u, "CASH")
  {
    assert forall k :: k in LowPriorityPatterns ==> 'O' in k || k == "CARTA" || k == "CASH";
    assert LowPriorityPatterns[5] == "CARTA" && LowPriorityPatterns[8] == "CASH";
  }

  lemma ExcludeWithoutO(u: string)
    requires forall k :: 'O' in k ==> !Contains(u, k)
    ensures IsExcluded(u) <==>
      Contains(u, "IVA") || Contains(u, "VAT") || Contains(u, "CHANGE") || Contains(u, "PUNTI")
  {
    var totale := "TOTALE";
    assert totale[1] == 'O';
    assert !Contains(u, totale);
    ExcludeTableWithoutO();
    assert ExcludePatterns[4] == "IVA" && ExcludePatterns[5] == "VAT";
    assert ExcludePatterns[9] == "CHANGE" && ExcludePatterns[10] == "PUNTI";
  }

  /** The exclusion keywords without an `O` are `IVA`, `VAT`, `CHANGE` and `PUNTI`. */
  lemma ExcludeTableWithoutO()
    ensures forall k :: k in ExcludePatterns ==> 'O' in k || k == "IVA" || k == "VAT" || k == "CHANGE" || k == "PUNTI"
  {
    var t := ExcludePatterns;
    assert t[0][4] == 'O' && t[1][4] == 'O' && t[2][5] == 'O' && t[3][5] == 'O';
    assert t[6][2] == 'O' && t[7][4] == 'O' && t[8][4] == 'O' && t[11][1] == 'O';
    assert forall k :: k in t ==> exists i :: 0 <= i < |t| && t[i] == k;
  }
}
