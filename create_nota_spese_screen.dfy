/**
 * The state behind the "Nuova Nota Spese" / "Modifica Nota Spese" screen:
 * the fields as first shown (empty for a new note, taken from the note being
 * edited otherwise), the numeric field filters, the kilometre preview and the
 * note built by Save.
 */
module CreateNotaSpeseScreen {
  import opened Wrappers
  import opened Strings
  import opened Parsing
  import opened Model

  const DefaultCostoKmClienteText: string := "0.60"
  const DefaultCostoKmCliente: real := 0.60

  // ---------------------------------------------------------------------
  // Rounding and formatting of an existing note's numbers
  // ---------------------------------------------------------------------

  /** `%.2f` rounding of a non-negative number to hundredths, half up. */
  function RoundCents(x: real): (c: nat)
    requires x >= 0.0
    ensures c as real - 0.5 <= x * 100.0 < c as real + 0.5
  {
    (x * 100.0 + 0.5).Floor
  }

  /** `%.0f` rounding of a non-negative number to units, half up. */
  function RoundUnits(x: real): (n: nat)
    requires x >= 0.0
    ensures n as real - 0.5 <= x < n as real + 0.5
  {
    (x + 0.5).Floor
  }

  /** A number that is an exact number of hundredths. */
  predicate IsWholeCents(x: real) {
    (x * 100.0).Floor as real == x * 100.0
  }

  predicate IsWholeNumber(x: real) {
    x.Floor as real == x
  }

  /** A whole number of hundredths is its own rounding. */
  lemma RoundWholeCents(x: real)
    requires x >= 0.0 && IsWholeCents(x)
    ensures RoundCents(x) as real == x * 100.0
  {
    var y := x * 100.0;
    FloorOfHalfAbove(y.Floor);
  }

  /** A whole number is its own rounding to units. */
  lemma RoundWholeNumber(x: real)
    requires x >= 0.0 && IsWholeNumber(x)
    ensures RoundUnits(x) as real == x
  {
    FloorOfHalfAbove(x.Floor);
  }

  lemma FloorOfHalfAbove(k: int)
    ensures (k as real + 0.5).Floor == k
  {
  }

  /**
   * The initial text of an amount field: the value printed with two decimals
   * and the decimal separator `sep` when it is positive, `fallback` otherwise.
   */
  function AmountText(value: real, fallback: string, sep: char): string {
    if value > 0.0 then TwoDecimals(RoundCents(value), sep) else fallback
  }

  /** The initial kilometre text: the value rounded to units when positive, empty otherwise. */
  function KmText(value: real): string {
    if value > 0.0 then NatToString(RoundUnits(value)) else ""
  }

  // ---------------------------------------------------------------------
  // The form's state as a value
  // ---------------------------------------------------------------------

  datatype NotaFormState = NotaFormState(
    numeroNota: string,
    nomeCognome: string,
    dataInizio: Option<int>,
    oraInizio: string,
    dataFine: Option<int>,
    oraFine: string,
    luogo: string,
    cliente: string,
    causale: string,
    auto: string,
    altriTrasfertisti: string,
    anticipo: string,
    kmPercorsi: string,
    costoKmRimborso: string,
    costoKmCliente: string)

  /** Every numeric field holds text its filter would let through. */
  predicate NumbersFiltered(s: NotaFormState) {
    IsDecimalInput(s.anticipo) && IsDecimalInput(s.kmPercorsi)
    && IsDecimalInput(s.costoKmRimborso) && IsDecimalInput(s.costoKmCliente)
  }

  /**
   * The fields as the screen first shows them, the amounts of an existing
   * note printed with the default locale, whose decimal separator is `sep`.
   */
  function InitialStateInLocale(existing: Option<NotaSpese>, sep: char): (s: NotaFormState)
    ensures existing.None? ==> s.dataInizio == None && s.costoKmCliente == DefaultCostoKmClienteText
    ensures existing.Some? ==> s.dataInizio == Some(existing.value.dataInizioTrasferta)
  {
    match existing
    case None =>
      NotaFormState("", "", None, "", None, "", "", "", "", "", "", "", "", "", DefaultCostoKmClienteText)
    case Some(n) =>
      NotaFormState(n.numeroNota, n.nomeCognome, Some(n.dataInizioTrasferta), n.oraInizioTrasferta,
                    Some(n.dataFineTrasferta), n.oraFineTrasferta, n.luogoTrasferta, n.cliente, n.causale,
                    n.auto, n.altriTrasfertisti, AmountText(n.anticipo, "", sep), KmText(n.kmPercorsi),
                    AmountText(n.costoKmRimborso, "", sep),
                    AmountText(n.costoKmCliente, DefaultCostoKmClienteText, sep))
  }

  /**
   * Every numeric field holds text its filter would let through, or the text
   * it was first shown with: a comma-printed amount stays in its field until
   * an edit the filter accepts replaces it.
   */
  predicate NumbersFilteredOrInitial(s: NotaFormState, initial: NotaFormState) {
    (IsDecimalInput(s.anticipo) || s.anticipo == initial.anticipo)
    && (IsDecimalInput(s.kmPercorsi) || s.kmPercorsi == initial.kmPercorsi)
    && (IsDecimalInput(s.costoKmRimborso) || s.costoKmRimborso == initial.costoKmRimborso)
    && (IsDecimalInput(s.costoKmCliente) || s.costoKmCliente == initial.costoKmCliente)
  }

  /** With a decimal point as the separator, the initial texts themselves pass, so every numeric field is filtered. */
  lemma PointLocaleFiltered(s: NotaFormState, existing: Option<NotaSpese>)
    requires NumbersFilteredOrInitial(s, InitialStateInLocale(existing, '.'))
    ensures NumbersFiltered(s)
  {
    FilteredInitialTexts(existing);
  }

  /** The initial fields with the amounts printed with a decimal point, as the filters expect. */
  function InitialState(existing: Option<NotaSpese>): (s: NotaFormState)
    ensures NumbersFiltered(s)
  {
    var s := InitialStateInLocale(existing, '.');
    FilteredInitialTexts(existing);
    s
  }

  lemma FilteredInitialTexts(existing: Option<NotaSpese>)
    ensures NumbersFiltered(InitialStateInLocale(existing, '.'))
  {
    assert IsDecimalInput(DefaultCostoKmClienteText);
    if existing.Some? {
      var n := existing.value;
      AmountTextFiltered(n.anticipo, "");
      AmountTextFiltered(n.costoKmRimborso, "");
      AmountTextFiltered(n.costoKmCliente, DefaultCostoKmClienteText);
      if n.kmPercorsi > 0.0 {
        NatToStringReadsBack(RoundUnits(n.kmPercorsi));
      }
    }
  }

  lemma AmountTextFiltered(value: real, fallback: string)
    requires IsDecimalInput(fallback)
    ensures IsDecimalInput(AmountText(value, fallback, '.'))
  {
    if value > 0.0 {
      TwoDecimalsReadsBack(RoundCents(value));
    }
  }

  /** A run of digits without a point is filtered text and parses to its value. */
  lemma NatToStringReadsBack(n: nat)
    ensures IsDecimalInput(NatToString(n))
    ensures ToDoubleOrNull(NatToString(n)) == Some(n as real)
  {
    var s := NatToString(n);
    NatToStringValue(n);
    assert IsDigit(s[0]);
    assert PointIndex(s) == |s|;
    assert s[..|s|] == s;
  }

  /** `isFormValid`: name, place and client are not blank and the start date is set. */
  predicate IsFormValid(s: NotaFormState) {
    !IsBlank(s.nomeCognome) && s.dataInizio.Some? && !IsBlank(s.luogo) && !IsBlank(s.cliente)
  }

  /**
   * The note Save hands over. `lastDayOfMonth` is the calendar's last day of
   * the start date's month, used as the filing date of a new note.
   */
  function BuildNota(existing: Option<NotaSpese>, s: NotaFormState, lastDayOfMonth: int): (n: NotaSpese)
    requires s.dataInizio.Some?
    ensures n.id == (if existing.Some? then existing.value.id else 0)
    ensures n.dataCompilazione == (if existing.Some? then existing.value.dataCompilazione else lastDayOfMonth)
    ensures n.dataInizioTrasferta == s.dataInizio.value
    ensures n.dataFineTrasferta == (if s.dataFine.Some? then s.dataFine.value else s.dataInizio.value)
    ensures ToDoubleOrNull(s.anticipo) == None ==> n.anticipo == 0.0
    ensures ToDoubleOrNull(s.kmPercorsi) == None ==> n.kmPercorsi == 0.0
    ensures ToDoubleOrNull(s.costoKmRimborso) == None ==> n.costoKmRimborso == 0.0
    ensures ToDoubleOrNull(s.costoKmCliente) == None ==> n.costoKmCliente == DefaultCostoKmCliente
    ensures n.anticipo >= 0.0 && n.kmPercorsi >= 0.0 && n.costoKmRimborso >= 0.0 && n.costoKmCliente >= 0.0
  {
    var dataCompilazione := if existing.Some? then existing.value.dataCompilazione else lastDayOfMonth;
    NotaSpese(
      if existing.Some? then existing.value.id else 0,
      s.numeroNota, s.nomeCognome, s.dataInizio.value, s.oraInizio,
      if s.dataFine.Some? then s.dataFine.value else s.dataInizio.value,
      s.oraFine, s.luogo, s.cliente, s.causale, s.auto, dataCompilazione, s.altriTrasfertisti,
      ToDoubleOrNull(s.anticipo).GetOr(0.0),
      ToDoubleOrNull(s.kmPercorsi).GetOr(0.0),
      ToDoubleOrNull(s.costoKmRimborso).GetOr(0.0),
      ToDoubleOrNull(s.costoKmCliente).GetOr(DefaultCostoKmCliente))
  }

  /** A new note saved with its numbers untouched: no advance, no kilometres, the default client rate. */
  lemma NewNoteDefaults(s: NotaFormState, lastDayOfMonth: int)
    requires s == InitialState(None).(dataInizio := s.dataInizio, nomeCognome := s.nomeCognome,
                                      luogo := s.luogo, cliente := s.cliente)
    requires s.dataInizio.Some?
    ensures var n := BuildNota(None, s, lastDayOfMonth);
      n.id == 0 && n.dataCompilazione == lastDayOfMonth && n.dataFineTrasferta == n.dataInizioTrasferta
      && n.anticipo == 0.0 && n.kmPercorsi == 0.0 && n.costoKmRimborso == 0.0
      && n.costoKmCliente == DefaultCostoKmCliente && TotaleRimborsoKm(n) == 0.0
  {
    DefaultRateReadsBack();
  }

  lemma DefaultRateReadsBack()
    ensures ToDoubleOrNull(DefaultCostoKmClienteText) == Some(DefaultCostoKmCliente)
  {
    DigitsAroundPoint("0", "60");
    assert "0" + ['.'] + "60" == DefaultCostoKmClienteText;
    OneDigit("0");
    TwoDigits("60");
    assert Pow10(2) == 100;
  }

  /**
   * Opening a note for editing and saving it untouched gives the same note
   * back, provided its amounts are whole hundredths, its kilometres a whole
   * number, none of them negative, and its client rate positive.
   */
  lemma UnchangedEditKeepsNote(n: NotaSpese, lastDayOfMonth: int)
    requires n.anticipo >= 0.0 && IsWholeCents(n.anticipo)
    requires n.costoKmRimborso >= 0.0 && IsWholeCents(n.costoKmRimborso)
    requires n.costoKmCliente > 0.0 && IsWholeCents(n.costoKmCliente)
    requires n.kmPercorsi >= 0.0 && IsWholeNumber(n.kmPercorsi)
    ensures BuildNota(Some(n), InitialState(Some(n)), lastDayOfMonth) == n
  {
    var s := InitialState(Some(n));
    SavedAmount(n.anticipo, "", 0.0);
    SavedAmount(n.costoKmRimborso, "", 0.0);
    SavedAmount(n.costoKmCliente, DefaultCostoKmClienteText, DefaultCostoKmCliente);
    SavedKm(n.kmPercorsi);
    var saved := BuildNota(Some(n), s, lastDayOfMonth);
    assert saved.anticipo == n.anticipo && saved.kmPercorsi == n.kmPercorsi;
    assert saved.costoKmRimborso == n.costoKmRimborso && saved.costoKmCliente == n.costoKmCliente;
  }

  /** The amount a field shown for `value` is saved as, `deflt` standing in for text that does not parse. */
  lemma SavedAmount(value: real, fallback: string, deflt: real)
    requires value >= 0.0 && IsWholeCents(value)
    requires value == 0.0 ==> ToDoubleOrNull(fallback).GetOr(deflt) == 0.0
    ensures ToDoubleOrNull(AmountText(value, fallback, '.')).GetOr(deflt) == value
  {
    if value > 0.0 {
      RoundWholeCents(value);
      TwoDecimalsReadsBack(RoundCents(value));
    }
  }

  lemma SavedKm(value: real)
    requires value >= 0.0 && IsWholeNumber(value)
    ensures ToDoubleOrNull(KmText(value)).GetOr(0.0) == value
  {
    if value > 0.0 {
      RoundWholeNumber(value);
      NatToStringReadsBack(RoundUnits(value));
    }
  }

  /**
   * As written, with a locale whose decimal separator is a comma: every
   * positive amount of the edited note is shown with a comma, which does not
   * parse, so saving untouched stores no advance, no refund rate and the
   * default client rate.
   */
  lemma CommaLocaleLosesAmounts(n: NotaSpese, lastDayOfMonth: int)
    ensures var saved := BuildNota(Some(n), InitialStateInLocale(Some(n), ','), lastDayOfMonth);
      (n.anticipo > 0.0 ==> saved.anticipo == 0.0)
      && (n.costoKmRimborso > 0.0 ==> saved.costoKmRimborso == 0.0)
      && (n.costoKmCliente > 0.0 ==> saved.costoKmCliente == DefaultCostoKmCliente)
    ensures n.anticipo > 0.0 ==> !IsDecimalInput(InitialStateInLocale(Some(n), ',').anticipo)
  {
    CommaText(n.anticipo);
    CommaText(n.costoKmRimborso);
    CommaText(n.costoKmCliente);
  }

  lemma CommaText(value: real)
    ensures value > 0.0 ==> ',' in AmountText(value, "", ',') && ',' in AmountText(value, DefaultCostoKmClienteText, ',')
    ensures value > 0.0 ==> !IsDecimalInput(AmountText(value, "", ','))
  {
    if value > 0.0 {
      var t := TwoDecimals(RoundCents(value), ',');
      assert t[|t| - 3] == ',';
    }
  }

  // ---------------------------------------------------------------------
  // Kilometre preview
  // ---------------------------------------------------------------------

  datatype PreviewLine = PreviewLine(title: string, amount: real)

  const RimborsoTitle: string := "Rimborso trasfertista:"
  const AddebitoTitle: string := "Addebito cliente:"

  /**
   * What the preview for kilometres `km` and rates `rimborso` and `cliente`
   * shows: some line exactly when the kilometres and some rate are positive,
   * and the line for a rate exactly when that rate is positive.
   */
  predicate ShowsPreview(lines: seq<PreviewLine>, km: real, rimborso: real, cliente: real) {
    (lines != [] <==> km > 0.0 && (rimborso > 0.0 || cliente > 0.0))
    && (PreviewLine(RimborsoTitle, km * rimborso) in lines <==> km > 0.0 && rimborso > 0.0)
    && (PreviewLine(AddebitoTitle, km * cliente) in lines <==> km > 0.0 && cliente > 0.0)
  }

  /** The preview under the kilometre fields, each unparsable text read as 0. */
  function KmPreview(s: NotaFormState): (lines: seq<PreviewLine>)
    ensures ShowsPreview(lines, ToDoubleOrNull(s.kmPercorsi).GetOr(0.0),
                         ToDoubleOrNull(s.costoKmRimborso).GetOr(0.0), ToDoubleOrNull(s.costoKmCliente).GetOr(0.0))
  {
    var km := ToDoubleOrNull(s.kmPercorsi).GetOr(0.0);
    var rimborso := ToDoubleOrNull(s.costoKmRimborso).GetOr(0.0);
    var cliente := ToDoubleOrNull(s.costoKmCliente).GetOr(0.0);
    PreviewLines(km, rimborso, cliente)
  }

  /**
   * The preview for parsed kilometres and rates: shown only for positive
   * kilometres and some positive rate, one line per positive rate with
   * kilometres times that rate.
   */
  function PreviewLines(km: real, rimborso: real, cliente: real): (lines: seq<PreviewLine>)
    ensures ShowsPreview(lines, km, rimborso, cliente)
    ensures forall i :: 0 <= i < |lines| ==> lines[i].amount > 0.0
    ensures forall i :: 0 <= i < |lines| ==>
      (lines[i].title == RimborsoTitle && lines[i].amount == km * rimborso && rimborso > 0.0)
      || (lines[i].title == AddebitoTitle && lines[i].amount == km * cliente && cliente > 0.0)
  {
    if km > 0.0 && (rimborso > 0.0 || cliente > 0.0) then
      PositiveProduct(km, rimborso);
      PositiveProduct(km, cliente);
      assert RimborsoTitle != AddebitoTitle;
      (if rimborso > 0.0 then [PreviewLine(RimborsoTitle, km * rimborso)] else [])
      + (if cliente > 0.0 then [PreviewLine(AddebitoTitle, km * cliente)] else [])
    else []
  }

  lemma PositiveProduct(a: real, b: real)
    ensures a > 0.0 && b > 0.0 ==> a * b > 0.0
  {
  }

  /** What the preview shows is what the saved note will total for its kilometres. */
  lemma PreviewMatchesSavedTotals(existing: Option<NotaSpese>, s: NotaFormState, lastDayOfMonth: int, i: nat)
    requires s.dataInizio.Some?
    requires i < |KmPreview(s)|
    ensures var n := BuildNota(existing, s, lastDayOfMonth);
      var line := KmPreview(s)[i];
      (line.title == RimborsoTitle ==> line.amount == TotaleRimborsoKm(n))
      && (line.title == AddebitoTitle ==> line.amount == TotaleCostoKmCliente(n))
  {
    var km := ToDoubleOrNull(s.kmPercorsi).GetOr(0.0);
    var rimborso := ToDoubleOrNull(s.costoKmRimborso).GetOr(0.0);
    var parsedCliente := ToDoubleOrNull(s.costoKmCliente);
    var n := BuildNota(existing, s, lastDayOfMonth);
    assert n.kmPercorsi == km && n.costoKmRimborso == rimborso;
    assert n.costoKmCliente == parsedCliente.GetOr(DefaultCostoKmCliente);
    PreviewLineMatches(km, rimborso, parsedCliente, n, i);
  }

  lemma PreviewLineMatches(km: real, rimborso: real, parsedCliente: Option<real>, n: NotaSpese, i: nat)
    requires n.kmPercorsi == km && n.costoKmRimborso == rimborso
    requires n.costoKmCliente == parsedCliente.GetOr(DefaultCostoKmCliente)
    requires i < |PreviewLines(km, rimborso, parsedCliente.GetOr(0.0))|
    ensures var line := PreviewLines(km, rimborso, parsedCliente.GetOr(0.0))[i];
      (line.title == RimborsoTitle ==> line.amount == TotaleRimborsoKm(n))
      && (line.title == AddebitoTitle ==> line.amount == TotaleCostoKmCliente(n))
  {
    assert RimborsoTitle != AddebitoTitle;
  }

  /**
   * An empty client rate is read as 0 by the preview but saved as 0.60, so a
   * positive client charge is saved without the preview showing it.
   */
  lemma PreviewHidesDefaultClientRate(existing: Option<NotaSpese>, s: NotaFormState, lastDayOfMonth: int)
    requires s.dataInizio.Some? && s.costoKmCliente == ""
    ensures forall i :: 0 <= i < |KmPreview(s)| ==> KmPreview(s)[i].title != AddebitoTitle
    ensures var n := BuildNota(existing, s, lastDayOfMonth);
      n.kmPercorsi > 0.0 ==>
        TotaleCostoKmCliente(n) == n.kmPercorsi * DefaultCostoKmCliente && TotaleCostoKmCliente(n) > 0.0
  {
    var n := BuildNota(existing, s, lastDayOfMonth);
    assert n.costoKmCliente == DefaultCostoKmCliente;
    PositiveProduct(n.kmPercorsi, DefaultCostoKmCliente);
    assert RimborsoTitle != AddebitoTitle;
  }

  // ---------------------------------------------------------------------
  // The screen
  // ---------------------------------------------------------------------

  /** The free-text fields, including the two time fields the time picker fills. */
  datatype TextField = NumeroNota | NomeCognome | OraInizio | OraFine | Luogo | Cliente | Causale
                     | Auto | AltriTrasfertisti

  /** The fields behind the `^\d*\.?\d*$` filter. */
  datatype NumberField = Anticipo | KmPercorsi | CostoKmRimborso | CostoKmCliente

  class NotaSpeseForm {
    const existingNota: Option<NotaSpese>
    /** The default locale's decimal separator, with which the initial amounts are printed. */
    const sep: char
    var numeroNota: string
    var nomeCognome: string
    var dataInizio: Option<int>
    var oraInizio: string
    var dataFine: Option<int>
    var oraFine: string
    var luogo: string
    var cliente: string
    var causale: string
    var auto: string
    var altriTrasfertisti: string
    var anticipo: string
    var kmPercorsi: string
    var costoKmRimborso: string
    var costoKmCliente: string

    function State(): NotaFormState
      reads this
    {
      NotaFormState(numeroNota, nomeCognome, dataInizio, oraInizio, dataFine, oraFine, luogo, cliente,
                    causale, auto, altriTrasfertisti, anticipo, kmPercorsi, costoKmRimborso, costoKmCliente)
    }

    predicate Valid()
      reads this
    {
      NumbersFilteredOrInitial(State(), InitialStateInLocale(existingNota, sep))
    }

    constructor (existingNota: Option<NotaSpese>, sep: char)
      ensures this.existingNota == existingNota && this.sep == sep
      ensures State() == InitialStateInLocale(existingNota, sep) && Valid()
      ensures sep == '.' ==> NumbersFiltered(State())
    {
      var s := InitialStateInLocale(existingNota, sep);
      FilteredInitialTexts(existingNota);
      this.existingNota := existingNota;
      this.sep := sep;
      numeroNota := s.numeroNota;
      nomeCognome := s.nomeCognome;
      dataInizio := s.dataInizio;
      oraInizio := s.oraInizio;
      dataFine := s.dataFine;
      oraFine := s.oraFine;
      luogo := s.luogo;
      cliente := s.cliente;
      causale := s.causale;
      auto := s.auto;
      altriTrasfertisti := s.altriTrasfertisti;
      anticipo := s.anticipo;
      kmPercorsi := s.kmPercorsi;
      costoKmRimborso := s.costoKmRimborso;
      costoKmCliente := s.costoKmCliente;
    }

    /** A free-text field takes every edit. */
    method EditText(field: TextField, text: string)
      requires Valid()
      modifies this
      ensures Valid()
      ensures State() == match field
        case NumeroNota => old(State()).(numeroNota := text)
        case NomeCognome => old(State()).(nomeCognome := text)
        case OraInizio => old(State()).(oraInizio := text)
        case OraFine => old(State()).(oraFine := text)
        case Luogo => old(State()).(luogo := text)
        case Cliente => old(State()).(cliente := text)
        case Causale => old(State()).(causale := text)
        case Auto => old(State()).(auto := text)
        case AltriTrasfertisti => old(State()).(altriTrasfertisti := text)
    {
      match field
      case NumeroNota => numeroNota := text;
      case NomeCognome => nomeCognome := text;
      case OraInizio => oraInizio := text;
      case OraFine => oraFine := text;
      case Luogo => luogo := text;
      case Cliente => cliente := text;
      case Causale => causale := text;
      case Auto => auto := text;
      case AltriTrasfertisti => altriTrasfertisti := text;
    }

    /** A numeric field takes an edit only when it is empty or digits with at most one point. */
    method EditNumber(field: NumberField, edit: string)
      requires Valid()
      modifies this
      ensures Valid()
      ensures State() == match field
        case Anticipo => old(State()).(anticipo := FilterEdit(old(anticipo), edit))
        case KmPercorsi => old(State()).(kmPercorsi := FilterEdit(old(kmPercorsi), edit))
        case CostoKmRimborso => old(State()).(costoKmRimborso := FilterEdit(old(costoKmRimborso), edit))
        case CostoKmCliente => old(State()).(costoKmCliente := FilterEdit(old(costoKmCliente), edit))
    {
      match field
      case Anticipo => anticipo := FilterEdit(anticipo, edit);
      case KmPercorsi => kmPercorsi := FilterEdit(kmPercorsi, edit);
      case CostoKmRimborso => costoKmRimborso := FilterEdit(costoKmRimborso, edit);
      case CostoKmCliente => costoKmCliente := FilterEdit(costoKmCliente, edit);
    }

    method SetDataInizio(date: Option<int>)
      requires Valid()
      modifies this
      ensures Valid() && State() == old(State()).(dataInizio := date)
    {
      dataInizio := date;
    }

    method SetDataFine(date: Option<int>)
      requires Valid()
      modifies this
      ensures Valid() && State() == old(State()).(dataFine := date)
    {
      dataFine := date;
    }

    /**
     * The Save button: enabled only while the form is valid, it then hands
     * over the note built from the fields. `lastDayOfMonth` is the calendar's
     * last day of the start date's month.
     */
    method Save(lastDayOfMonth: int) returns (nota: Option<NotaSpese>)
      requires Valid()
      ensures nota.Some? <==> IsFormValid(State())
      ensures nota.Some? ==> nota.value == BuildNota(existingNota, State(), lastDayOfMonth)
    {
      if IsFormValid(State()) {
        nota := Some(BuildNota(existingNota, State(), lastDayOfMonth));
      } else {
        nota := None;
      }
    }
  }
}
