/**
 * The normalisation applied to recognised receipt text before any keyword or
 * amount is looked for: an ordered chain of literal, global replacements
 * followed by a trim. The chain is applied literally, so an upper-case `O`
 * becomes `0` and a lower-case `l` becomes `1` everywhere, words included.
 */
module ReceiptCleaning {
  import opened Strings

  /** `cleanText`: each step replaces every occurrence of its pattern, left to right, in the previous step's result. */
  function CleanText(text: string): string {
    Trim(Replacements(text))
  }

  /** The replacement chain of `cleanText`, before the final trim. */
  function Replacements(text: string): string {
    var t1 := Replace(text, "O", "0");
    var t2 := Replace(t1, "|", "1");
    var t3 := Replace(t2, "l", "1");
    var t4 := Replace(t3, "€", " € ");
    var t5 := Replace(t4, "EUR", " EUR ");
    var t6 := Replace(t5, "  ", " ");
    var t7 := Replace(t6, "'", "");
    var t8 := Replace(t7, "´", "");
    Replace(t8, "`", "")
  }

  /** The characters the chain always removes, whatever the text. */
  predicate Removed(c: char) {
    c == 'O' || c == '|' || c == 'l' || c == '\'' || c == '´' || c == '`'
  }

  /**
   * The cleaned text holds none of `O`, `|`, `l`, `'`, `´` and `` ` ``, starts
   * and ends with a non-blank character, and is empty for a blank text.
   */
  lemma CleanTextProperties(text: string)
    ensures forall c :: c in CleanText(text) ==> !Removed(c)
    ensures var r := CleanText(text); r != [] ==> !IsWhitespace(r[0]) && !IsWhitespace(r[|r| - 1])
    ensures IsBlank(text) ==> CleanText(text) == []
  {
    ReplacementsRemove(text);
    TrimIsInner(Replacements(text));
    if IsBlank(text) {
      BlankCleaning(text);
    }
  }

  lemma ReplacementsRemove(text: string)
    ensures forall c :: c in Replacements(text) ==> !Removed(c)
  {
    var t1 := Replace(text, "O", "0");
    RemoveStep(text, 'O', "0", {});
    var t2 := Replace(t1, "|", "1");
    RemoveStep(t1, '|', "1", {'O'});
    var t3 := Replace(t2, "l", "1");
    RemoveStep(t2, 'l', "1", {'O', '|'});
    var t4 := Replace(t3, "€", " € ");
    KeepStep(t3, "€", " € ", {'O', '|', 'l'});
    var t5 := Replace(t4, "EUR", " EUR ");
    KeepStep(t4, "EUR", " EUR ", {'O', '|', 'l'});
    var t6 := Replace(t5, "  ", " ");
    KeepStep(t5, "  ", " ", {'O', '|', 'l'});
    var t7 := Replace(t6, "'", "");
    RemoveStep(t6, '\'', "", {'O', '|', 'l'});
    var t8 := Replace(t7, "´", "");
    RemoveStep(t7, '´', "", {'O', '|', 'l', '\''});
    RemoveStep(t8, '`', "", {'O', '|', 'l', '\'', '´'});
  }

  /** A replacement whose pattern is the single character `c` removes `c` and brings in no character of `gone`. */
  lemma RemoveStep(t: string, c: char, rep: string, gone: set<char>)
    requires c !in rep && forall x :: x in rep ==> x !in gone
    requires forall x :: x in t ==> x !in gone
    ensures forall x :: x in Replace(t, [c], rep) ==> x !in gone && x != c
  {
    ReplaceChars(t, [c], rep);
    ReplaceRemoves(t, c, rep);
  }

  /** A replacement whose text has no character of `gone` brings none in. */
  lemma KeepStep(t: string, pat: string, rep: string, gone: set<char>)
    requires |pat| > 0 && forall x :: x in rep ==> x !in gone
    requires forall x :: x in t ==> x !in gone
    ensures forall x :: x in Replace(t, pat, rep) ==> x !in gone
  {
    ReplaceChars(t, pat, rep);
  }

  lemma BlankCleaning(text: string)
    requires IsBlank(text)
    ensures CleanText(text) == []
  {
    BlankUpToEur(text);
    var t6 := Replace(text, "  ", " ");
    BlankStaysBlank(text);
    ReplaceAbsent(t6, "'", "", '\'');
    ReplaceAbsent(t6, "´", "", '´');
    ReplaceAbsent(t6, "`", "", '`');
    TrimBlank(t6);
  }

  /** The first five replacements find nothing to replace in a blank text. */
  lemma BlankUpToEur(text: string)
    requires IsBlank(text)
    ensures Replace(Replace(Replace(Replace(Replace(text, "O", "0"), "|", "1"), "l", "1"), "€", " € "), "EUR", " EUR ")
            == text
  {
    ReplaceAbsent(text, "O", "0", 'O');
    ReplaceAbsent(text, "|", "1", '|');
    ReplaceAbsent(text, "l", "1", 'l');
    ReplaceAbsent(text, "€", " € ", '€');
    ReplaceAbsent(text, "EUR", " EUR ", 'E');
  }

  /** Collapsing double spaces leaves a blank text blank, without `'`, `´` or `` ` ``. */
  lemma BlankStaysBlank(text: string)
    requires IsBlank(text)
    ensures var t := Replace(text, "  ", " "); IsBlank(t) && '\'' !in t && '´' !in t && '`' !in t
  {
    var t := Replace(text, "  ", " ");
    ReplaceChars(text, "  ", " ");
    forall i | 0 <= i < |t| ensures IsWhitespace(t[i]) {
      assert t[i] in t;
    }
  }
}
