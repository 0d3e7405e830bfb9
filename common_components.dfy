/**
 * The logic inside the shared form components: the `HH:mm` time field, the
 * three rows of the category selector and the summary card of a note.
 */
module CommonComponents {
  import opened Wrappers
  import opened Strings
  import opened Parsing
  import opened Enums
  import opened Model
  import opened Aggregates

  // ---------------------------------------------------------------------
  // Time field
  // ---------------------------------------------------------------------

  const DefaultHour: int := 8
  const DefaultMinute: int := 0

  datatype Time = Time(hour: int, minute: int)

  /**
   * The time the picker opens on: the integers before and after the first
   * `:`, falling back to 8 and 0 when a part is missing or not an integer.
   */
  function ParseTime(selectedTime: string): (t: Time)
    ensures ':' !in selectedTime ==> t.minute == DefaultMinute
    ensures var hour := ToIntOrNull(SplitOn(selectedTime, ':')[0]);
      t.hour == if hour.Some? then hour.value else DefaultHour
    ensures var parts := SplitOn(selectedTime, ':');
      |parts| > 1 && ToIntOrNull(parts[1]).Some? ==> t.minute == ToIntOrNull(parts[1]).value
    ensures var parts := SplitOn(selectedTime, ':');
      |parts| > 1 && ToIntOrNull(parts[1]) == None ==> t.minute == DefaultMinute
  {
    var parts := SplitOn(selectedTime, ':');
    var hour := ToIntOrNull(parts[0]).GetOr(DefaultHour);
    var minute := if |parts| > 1 then ToIntOrNull(parts[1]).GetOr(DefaultMinute) else DefaultMinute;
    SplitOnNoDelimiterCount(selectedTime);
    Time(hour, minute)
  }

  lemma SplitOnNoDelimiterCount(s: string)
    ensures ':' !in s ==> |SplitOn(s, ':')| == 1
  {
    if ':' !in s {
      SplitOnNoDelimiter(s, ':');
    }
  }

  /** The confirm button: both fields as two zero-padded digits, `HH:mm`. */
  function FormatTime(hour: nat, minute: nat): (s: string)
    requires hour < 24 && minute < 60
    ensures |s| == 5 && s[2] == ':'
    ensures AllDigits(s[..2]) && DigitsValue(s[..2]) == hour
    ensures AllDigits(s[3..]) && DigitsValue(s[3..]) == minute
  {
    var s := Pad2(hour) + ":" + Pad2(minute);
    assert s[..2] == Pad2(hour) && s[3..] == Pad2(minute);
    s
  }

  /** Confirming a time and reopening the picker shows that same time. */
  lemma TimeRoundTrip(hour: nat, minute: nat)
    requires hour < 24 && minute < 60
    ensures ParseTime(FormatTime(hour, minute)) == Time(hour, minute)
  {
    var s := FormatTime(hour, minute);
    assert s == Pad2(hour) + [':'] + Pad2(minute);
    SplitOnFirst(Pad2(hour), ':', Pad2(minute));
    SplitOnNoDelimiter(Pad2(minute), ':');
    assert SplitOn(s, ':') == [Pad2(hour), Pad2(minute)];
  }

  /** "Cancella" is offered only for a time that is set. */
  predicate ClearOffered(selectedTime: string) {
    !IsBlank(selectedTime)
  }

  /** "Cancella" stores the empty text, on which the picker opens at 08:00. */
  lemma ClearedTimeOpensAtDefault()
    ensures ParseTime("") == Time(DefaultHour, DefaultMinute)
    ensures !ClearOffered("")
  {
  }

  // ---------------------------------------------------------------------
  // Category selector
  // ---------------------------------------------------------------------

  /** `entries.take(3)`, `entries.drop(3).take(3)` and `entries.drop(6)`. */
  function CategoryRows(): (rows: seq<seq<CategoriaSpesa>>)
    ensures |rows| == 3
  {
    var entries := CategoriaSpesaEntries;
    [entries[..3], entries[3..][..3], entries[6..]]
  }

  /** The rows hold three, three and one chip and together list every category once, in order. */
  lemma CategoryRowsListEveryCategory()
    ensures var rows := CategoryRows();
      |rows[0]| == 3 && |rows[1]| == 3 && |rows[2]| == 1
      && rows[0] + rows[1] + rows[2] == CategoriaSpesaEntries
    ensures ListsEachOnce(CategoryRows()[0] + CategoryRows()[1] + CategoryRows()[2])
  {
    EntriesListEachConstantOnce();
    var rows := CategoryRows();
    assert rows[0] + rows[1] + rows[2] == CategoriaSpesaEntries;
  }

  // ---------------------------------------------------------------------
  // Summary card
  // ---------------------------------------------------------------------

  /** One row of the card: its title, the amount it shows and whether it uses the error colour. */
  datatype SummaryLine = SummaryLine(title: string, amount: real, isError: bool)

  /**
   * The rows of `TotaleCard`: the expenses, the kilometre refund and the
   * advance (each shown only when positive), then the amount due including
   * the refund, in the error colour when it is negative. The refund and the
   * advance carry the sign the card prints before them.
   */
  function TotaleCardLines(totale: real, anticipo: real, totaleDovuto: real, rimborsoKm: real)
    : (lines: seq<SummaryLine>)
    ensures 2 <= |lines| <= 4
    ensures lines[0] == SummaryLine("Totale Spese:", totale, false)
    ensures var last := lines[|lines| - 1];
      last.title == "Totale Dovuto:" && last.amount == totaleDovuto + rimborsoKm
      && (last.isError <==> totaleDovuto + rimborsoKm < 0.0)
    ensures SummaryLine("Rimborso Km:", rimborsoKm, false) in lines <==> rimborsoKm > 0.0
    ensures SummaryLine("Anticipo:", -anticipo, false) in lines <==> anticipo > 0.0
  {
    var totaleConKm := totaleDovuto + rimborsoKm;
    [SummaryLine("Totale Spese:", totale, false)]
    + (if rimborsoKm > 0.0 then [SummaryLine("Rimborso Km:", rimborsoKm, false)] else [])
    + (if anticipo > 0.0 then [SummaryLine("Anticipo:", -anticipo, false)] else [])
    + [SummaryLine("Totale Dovuto:", totaleConKm, !(totaleConKm >= 0.0))]
  }

  function SumAmounts(lines: seq<SummaryLine>): real {
    if lines == [] then 0.0 else lines[0].amount + SumAmounts(lines[1..])
  }

  /**
   * With the arguments the detail screen passes, the card adds up: the rows
   * above the bottom line sum to it, and the bottom line is the note's whole
   * cost minus the advance.
   */
  lemma DetailCardAddsUp(n: NotaSpeseConSpese)
    requires n.notaSpese.anticipo >= 0.0 && TotaleRimborsoKm(n.notaSpese) >= 0.0
    ensures var lines := TotaleCardLines(TotaleSpese(n), n.notaSpese.anticipo, TotaleDovuto(n),
                                         TotaleRimborsoKm(n.notaSpese));
      SumAmounts(lines[..|lines| - 1]) == lines[|lines| - 1].amount
      && lines[|lines| - 1].amount == CostoComplessivoNotaSpese(n) - n.notaSpese.anticipo
  {
    var lines := TotaleCardLines(TotaleSpese(n), n.notaSpese.anticipo, TotaleDovuto(n),
                                 TotaleRimborsoKm(n.notaSpese));
    var body := lines[..|lines| - 1];
    var km := TotaleRimborsoKm(n.notaSpese);
    var anticipo := n.notaSpese.anticipo;
    var first := SummaryLine("Totale Spese:", TotaleSpese(n), false);
    var refund := SummaryLine("Rimborso Km:", km, false);
    var advance := SummaryLine("Anticipo:", -anticipo, false);
    if km > 0.0 && anticipo > 0.0 {
      assert body == [first, refund, advance];
      assert body[1..] == [refund, advance] && body[1..][1..] == [advance];
      assert SumAmounts([advance]) == -anticipo;
      assert SumAmounts([refund, advance]) == km - anticipo;
    } else if km > 0.0 {
      assert body == [first, refund];
      assert body[1..] == [refund];
      assert SumAmounts([refund]) == km;
    } else if anticipo > 0.0 {
      assert body == [first, advance];
      assert body[1..] == [advance];
      assert SumAmounts([advance]) == -anticipo;
    } else {
      assert body == [first];
    }
  }
}
