# NotaSpese — a verified model of the expense-report core

NotaSpese is an Android app for travel expense reports (*note spese*). A
note holds the trip's data, a cash advance (*anticipo*), the kilometres
driven with two per-kilometre rates, and a list of expenses (*spese*). Each
expense has a category, a payment method, the payer (company or employee)
and, optionally, a photographed or PDF receipt.

This project models the logic at the centre of the app and proves what that
logic promises:

- **The receipt reader.** After the text recogniser has read a photographed
  receipt, this code normalises the text and finds every money amount on
  each line with five regular expressions. It then picks the total by
  keyword tier (high, medium, low), with two fallbacks. Amounts are modelled
  as integer euro cents. Every pattern yields digits with exactly two
  decimals, or a whole number of euros, so cents are exact.
- **The data model.** The three enumerations and their Room converters. The
  derived totals of a note: by payment method, by payer, by category,
  kilometre refund and overall cost.
- **The crop dialog.** The normalised crop rectangle dragged by its corners
  or its centre, the nearest-handle rule, the pixel rectangle handed to
  `Bitmap.createBitmap`, and the sample size used to decode the photo.
- **The PDF report.** Text truncation, the page-break rule, the bitmap
  sample size, and the attachment grid: six receipts a page, two a row.
- **The form components and the two editing screens.** The `HH:mm` time
  field, the category rows and the summary card. The "new expense" screen is
  a class whose fields are the screen's state variables; its OCR prefill
  and its amount filter are modelled here. The "new or edited note" screen,
  with its initial texts, numeric filters, kilometre preview and the note it
  saves.

The pure Kotlin code (regex scanning, the derived totals, text helpers) is
modelled as functions and lemmas. The code that loops or updates state is
modelled as methods proved against those functions: the candidate loop of
`findTotalInText`, the sample-size loops, the attachment-page loops, the
crop state and both screens' state. Each screen method states the screen's
whole new state as `State() == old(State()).(…)` and keeps the screen's
invariant `Valid()`.

One module per source file, plus `Wrappers` (Option), `Ints` (powers of two,
Kotlin integer division), `Strings` (the Kotlin string functions the core
calls) and `Parsing` (`toIntOrNull`, `toDoubleOrNull` and the amount filter).

Three behaviours of the source that the model makes explicit:

- **Stray amounts from grouped numbers.** On `1.234,56` the simple patterns
  also fire inside the number, so `extractAmounts` yields 1234.56, 34.56 and
  1.23 (`AmountScanner.GroupedEuropean`). The tier maximum still picks
  1234.56.
- **The `EUR` pattern backtracks.** On `EUR 12,50` the lookahead rejects
  `12`, so the pattern backtracks to `1`, and the reader returns 12.50 and 1.00
  (`AmountScanner.EuroWithDecimals`).
- **The letter O.** `cleanText` turns every capital `O` into `0` before the
  keywords are searched. A keyword with an O (`TOTALE`, `IMPORTO`, `SCONTO`, …)
  can therefore only match a line written with a lower-case `o`. On an
  all-capitals receipt only `DA PAGARE`, `CARTA`, `CASH`, `IVA`, `VAT`,
  `CHANGE` and `PUNTI` still work (`ReceiptTotal.TiersWithoutLowerO`).

## Model

| member | source | states |
|---|---|---|
| Enums.EntriesListEachConstantOnce | app/src/main/java/com/notaspese/data/model/Enums.kt:6-25 | `entries` of each enumeration lists every constant exactly once |
| Converters.FromMetodoPagamento | app/src/main/java/com/notaspese/data/database/Converters.kt:8 | a payment method is stored as a text that `valueOf` reads back as that same method |
| Converters.ToMetodoPagamento | app/src/main/java/com/notaspese/data/database/Converters.kt:9 | `valueOf` succeeds exactly on a constant's name and returns that constant; otherwise it throws (None) |
| Converters.FromCategoriaSpesa | app/src/main/java/com/notaspese/data/database/Converters.kt:10 | a category is stored as a text that `valueOf` reads back as that same category |
| Converters.ToCategoriaSpesa | app/src/main/java/com/notaspese/data/database/Converters.kt:11 | `valueOf` succeeds exactly on a category's name and returns that category; otherwise it throws (None) |
| Converters.MetodoPagamentoRoundTrip | app/src/main/java/com/notaspese/data/database/Converters.kt:8-9 | reading back a stored payment method gives the same method |
| Converters.CategoriaSpesaRoundTrip | app/src/main/java/com/notaspese/data/database/Converters.kt:10-11 | reading back a stored category gives the same category |
| Converters.FromConvertersInjective | app/src/main/java/com/notaspese/data/database/Converters.kt:8-11 | distinct constants are stored as distinct texts |
| Converters.ToConvertersLeftInverse | app/src/main/java/com/notaspese/data/database/Converters.kt:8-11 | a text that reads as a constant is exactly that constant's stored form |
| Model.NewSpesa | app/src/main/java/com/notaspese/data/model/Spesa.kt:13-23 | a new expense has id 0, no receipt and is paid by the company; every other field is the one given |
| Model.NewNotaSpese | app/src/main/java/com/notaspese/data/model/NotaSpese.kt:6-30 | a new note: empty number, times and co-travellers, zero advance, kilometres and rates, and so zero kilometre totals |
| Model.KmTotalsIndependent | app/src/main/java/com/notaspese/data/model/NotaSpese.kt:28-29 | the refund ignores the client rate and the client charge ignores the refund rate |
| Model.KmTotalsSign | app/src/main/java/com/notaspese/data/model/NotaSpese.kt:28-29 | no kilometres means both totals are zero; non-negative inputs give non-negative totals |
| Aggregates.Where | app/src/main/java/com/notaspese/data/model/NotaSpeseConSpese.kt:15-21 | `filter` keeps exactly the expenses that satisfy the test, and no more of them than there are |
| Aggregates.SumAppend | app/src/main/java/com/notaspese/data/model/NotaSpeseConSpese.kt:11 | the sum of two lists of expenses is the sum of their sums |
| Aggregates.MetodoSplit | app/src/main/java/com/notaspese/data/model/NotaSpeseConSpese.kt:15-17 | the three payment-method sums of any list add up to its whole sum |
| Aggregates.MetodoPartition | app/src/main/java/com/notaspese/data/model/NotaSpeseConSpese.kt:15-17 | `totaleByCarta + totaleContanti + totaleAltro == totaleSpese` |
| Aggregates.PagatoDaSplit | app/src/main/java/com/notaspese/data/model/NotaSpeseConSpese.kt:20-21 | the company and employee parts split any list: sums, counts and multisets add up |
| Aggregates.WhereIsSubsequence | app/src/main/java/com/notaspese/data/model/NotaSpeseConSpese.kt:35-36 | a filtered list keeps the original order |
| Aggregates.PagatoDaPartition | app/src/main/java/com/notaspese/data/model/NotaSpeseConSpese.kt:20-36 | `speseAzienda` and `speseDipendente` partition the expenses (as a multiset, in order, each with the right payer) and their totals add up to `totaleSpese` |
| Aggregates.CategorieStep | app/src/main/java/com/notaspese/data/model/NotaSpeseConSpese.kt:32 | the category sums of a list are its first expense's share plus the category sums of the rest |
| Aggregates.CategorieSplit | app/src/main/java/com/notaspese/data/model/NotaSpeseConSpese.kt:32 | the per-category totals over `CategoriaSpesa.entries` add up to the sum of the expenses |
| Aggregates.CategoriaPartition | app/src/main/java/com/notaspese/data/model/NotaSpeseConSpese.kt:32 | summing `totaleByCategoria` over all categories gives `totaleSpese` |
| Aggregates.CostoComplessivoSplit | app/src/main/java/com/notaspese/data/model/NotaSpeseConSpese.kt:12-30 | whole cost = company part + gross employee refund; net refund = gross − advance; amount due = whole cost − kilometres − advance |
| Aggregates.RimborsoOnlyKmWhenCompanyPaidAll | app/src/main/java/com/notaspese/data/model/NotaSpeseConSpese.kt:20-24 | when the company paid every expense, the employee is owed only the kilometres minus the advance |
| Aggregates.WhereNone | app/src/main/java/com/notaspese/data/model/NotaSpeseConSpese.kt:15-21 | a filter that matches nothing gives the empty list |
| Strings.TrimIsInner | app/src/main/java/com/notaspese/util/TextRecognitionHelper.kt:237 | `trim` leaves no blank at either end and adds no character |
| Strings.TrimBlank | app/src/main/java/com/notaspese/util/TextRecognitionHelper.kt:237 | a blank text trims to the empty text |
| Strings.SplitLinesChars | app/src/main/java/com/notaspese/util/TextRecognitionHelper.kt:138 | the lines of a text hold only characters of that text |
| Strings.ReplaceChars | app/src/main/java/com/notaspese/util/TextRecognitionHelper.kt:224-235 | `replace` introduces no character beyond the text's and the replacement's |
| Strings.ReplaceRemoves | app/src/main/java/com/notaspese/util/TextRecognitionHelper.kt:226-235 | replacing a character by text without it leaves none of it |
| Strings.Upper | app/src/main/java/com/notaspese/util/TextRecognitionHelper.kt:148 | `uppercase` keeps the length and maps each ASCII letter to its capital |
| Parsing.ToIntOrNull | app/src/main/java/com/notaspese/ui/components/CommonComponents.kt:53-54 | empty text and any non-digit (other than a leading sign) give null; digits within `Int` give their value; every result is within `Int` |
| Parsing.ToDoubleOrNull | app/src/main/java/com/notaspese/ui/screens/AddSpesaScreen.kt:72 | on the filtered shape, text parses exactly when it holds a digit; text with a comma never parses; the value is never negative |
| Parsing.AmountPatternIsDecimalInput | app/src/main/java/com/notaspese/ui/screens/AddSpesaScreen.kt:206 | `^\d*\.?\d*$` matches exactly the digit strings with at most one decimal point |
| Parsing.FilterEdit | app/src/main/java/com/notaspese/ui/screens/AddSpesaScreen.kt:206 | an edit is taken exactly when it has the filtered shape, otherwise the old text stays; the field therefore always holds filtered text |
| Parsing.TwoDecimalsReadsBack | app/src/main/java/com/notaspese/ui/screens/AddSpesaScreen.kt:283 | an amount printed with `Locale.US` and `%.2f` passes the filter and parses back to exactly that amount |
| Parsing.DigitsPositive | app/src/main/java/com/notaspese/ui/screens/AddSpesaScreen.kt:72 | a run of digits has a positive value exactly when one of its digits is not zero |
| Parsing.ParsesPositive | app/src/main/java/com/notaspese/ui/screens/AddSpesaScreen.kt:72 | a filtered amount parses to a positive number exactly when one of its digits is not zero |
| CommonComponents.ParseTime | app/src/main/java/com/notaspese/ui/components/CommonComponents.kt:53-54 | the hour is the integer before the first `:`, or 8 when that part is not an integer; the minute is the integer after it, or 0 when there is no `:` or that part is not an integer |
| CommonComponents.FormatTime | app/src/main/java/com/notaspese/ui/components/CommonComponents.kt:86-88 | the confirmed time is five characters `HH:mm` whose two digit pairs read back as the hour and the minute |
| CommonComponents.TimeRoundTrip | app/src/main/java/com/notaspese/ui/components/CommonComponents.kt:53-88 | confirming a time and reopening the picker shows that same time |
| CommonComponents.ClearedTimeOpensAtDefault | app/src/main/java/com/notaspese/ui/components/CommonComponents.kt:94-97 | "Cancella" stores the empty text, which offers no "Cancella" and opens the picker at 08:00 |
| CommonComponents.CategoryRowsListEveryCategory | app/src/main/java/com/notaspese/ui/components/CommonComponents.kt:168-178 | the selector's rows hold 3, 3 and 1 chips and together list every category once, in order |
| CommonComponents.TotaleCardLines | app/src/main/java/com/notaspese/ui/components/CommonComponents.kt:211-241 | the card shows the expenses first; it shows the refund and the advance exactly when they are positive; the last line is the amount due plus the refund, in red exactly when negative |
| CommonComponents.DetailCardAddsUp | app/src/main/java/com/notaspese/ui/screens/DetailScreen.kt:155 | with the detail screen's arguments, the card's lines add up to its bottom line, which is the whole cost minus the advance |
| ReceiptCleaning.CleanTextProperties | app/src/main/java/com/notaspese/util/TextRecognitionHelper.kt:223-238 | the cleaned text holds none of `O`, `\|`, `l`, `'`, `´` and the backquote; it starts and ends with a non-blank character; a blank text cleans to the empty text |
| ReceiptCleaning.ReplacementsRemove | app/src/main/java/com/notaspese/util/TextRecognitionHelper.kt:224-235 | after the replacement chain, none of the six replaced characters is left, whatever the text |
| ReceiptCleaning.BlankCleaning | app/src/main/java/com/notaspese/util/TextRecognitionHelper.kt:223-238 | a blank text cleans to the empty text |
| AmountScanner.MatchGrouped | app/src/main/java/com/notaspese/util/TextRecognitionHelper.kt:248-268 | a match of a grouped pattern (`1.234,56` or `1,234.56`) ends beyond its start, within the text, and is at most 999999.99 |
| AmountScanner.MatchSimple | app/src/main/java/com/notaspese/util/TextRecognitionHelper.kt:272-290 | a simple match ends within the text, is at most 9999.99, is not preceded by a digit and a separator, and is not followed by a separator and a digit |
| AmountScanner.MatchEuroInt | app/src/main/java/com/notaspese/util/TextRecognitionHelper.kt:294-299 | a `€`/`EUR` match starts at `€`, `E` or `e`, is a whole number of euros up to 9999, and is not followed by a separator and a digit |
| AmountScanner.EuroDigits | app/src/main/java/com/notaspese/util/TextRecognitionHelper.kt:294 | `\d{1,4}(?![.,]\d)` with backtracking: at most four digits, a whole number of euros, never followed by a separator and a digit |
| AmountScanner.MatchAt | app/src/main/java/com/notaspese/util/TextRecognitionHelper.kt:248-300 | a match of any pattern ends after its start and within the text |
| AmountScanner.KeepInRange | app/src/main/java/com/notaspese/util/TextRecognitionHelper.kt:302 | the final filter keeps exactly the amounts from 0.01 to 99999.99 |
| AmountScanner.AddMatches | app/src/main/java/com/notaspese/util/TextRecognitionHelper.kt:273-280 | one pattern's `findAll(...).forEach` appends its positive, not yet listed amounts to the list |
| AmountScanner.ExtractAmounts | app/src/main/java/com/notaspese/util/TextRecognitionHelper.kt:244-303 | `extractAmounts` fills the list pattern by pattern, as the scanning functions define, and every amount is in the final range |
| AmountScanner.DuplicatesOnlyFromFirstPattern | app/src/main/java/com/notaspese/util/TextRecognitionHelper.kt:249-302 | only the first pattern, which has no `contains` check, can add an amount twice; every later amount differs from all before it |
| AmountScanner.CollectContents | app/src/main/java/com/notaspese/util/TextRecognitionHelper.kt:254-299 | an amount is in the list exactly when it was there before or is a positive match |
| AmountScanner.AmountsContents | app/src/main/java/com/notaspese/util/TextRecognitionHelper.kt:244-303 | an amount is extracted exactly when some pattern finds it and it is in the final range |
| AmountScanner.TwoDecimalsScans | app/src/main/java/com/notaspese/util/TextRecognitionHelper.kt:248-300 | on a number printed with two decimals, only the simple pattern for its separator fires, once, with that amount |
| AmountScanner.TwoDecimalsReadBack | app/src/main/java/com/notaspese/util/TextRecognitionHelper.kt:244-303 | an amount up to 9999.99 printed with two decimals, with comma or point, reads back as exactly that one amount |
| AmountScanner.EuroWithDecimals | app/src/main/java/com/notaspese/util/TextRecognitionHelper.kt:293-300 | on `EUR 12,50` the reader returns 12.50 and then 1.00, because the `EUR` pattern backtracks to one digit |
| AmountScanner.GroupedEuropean | app/src/main/java/com/notaspese/util/TextRecognitionHelper.kt:247-291 | on `1.234,56` the reader returns 1234.56, 34.56 and 1.23: the simple patterns also fire inside the grouped number |
| ReceiptTotal.NonBlank | app/src/main/java/com/notaspese/util/TextRecognitionHelper.kt:138 | a line is kept exactly when it is not blank |
| ReceiptTotal.AmountsOfTier | app/src/main/java/com/notaspese/util/TextRecognitionHelper.kt:178-194 | an amount is listed for a tier exactly when some candidate of that tier carries it |
| ReceiptTotal.MaxOf | app/src/main/java/com/notaspese/util/TextRecognitionHelper.kt:180 | `maxOrNull` is null exactly on the empty list, and otherwise an element that is at least every element |
| ReceiptTotal.TakeLast | app/src/main/java/com/notaspese/util/TextRecognitionHelper.kt:202 | `takeLast(5)` is the suffix of length `min(5, size)` |
| ReceiptTotal.InFallbackRange | app/src/main/java/com/notaspese/util/TextRecognitionHelper.kt:215 | the last fallback keeps exactly the amounts strictly between 1 and 10000 euros |
| ReceiptTotal.FindTotalInText | app/src/main/java/com/notaspese/util/TextRecognitionHelper.kt:135-218 | the loop over the lines and the selection compute the reader's total as the function `FindTotal` defines it |
| ReceiptTotal.CollectCandidates | app/src/main/java/com/notaspese/util/TextRecognitionHelper.kt:147-173 | the loop collects, line after line, exactly the candidates of every line |
| ReceiptTotal.LineCandidatesAt | app/src/main/java/com/notaspese/util/TextRecognitionHelper.kt:148-172 | an excluded line gives no candidate; any other line gives its amounts tagged with its tier, index and text |
| ReceiptTotal.TagAmounts | app/src/main/java/com/notaspese/util/TextRecognitionHelper.kt:159-172 | the inner loop tags each amount of the line, in order |
| ReceiptTotal.ExtractFromLines | app/src/main/java/com/notaspese/util/TextRecognitionHelper.kt:202-206 | the fallback loop gathers the amounts of the given lines, in order |
| ReceiptTotal.TagAll | app/src/main/java/com/notaspese/util/TextRecognitionHelper.kt:168-169 | every extracted amount is positive, so the candidate test never drops one: one candidate per amount, in order |
| ReceiptTotal.LineCandidatesShape | app/src/main/java/com/notaspese/util/TextRecognitionHelper.kt:150-172 | an excluded line contributes nothing; any other line contributes one candidate per amount, with the line's tier |
| ReceiptTotal.RestoNeverTierOne | app/src/main/java/com/notaspese/util/TextRecognitionHelper.kt:151-166 | `RESTO` lines are excluded unless they hold `TOTALE`, which ranks them at least medium, so the low-tier `RESTO` never ranks a candidate |
| ReceiptTotal.CandidatesSound | app/src/main/java/com/notaspese/util/TextRecognitionHelper.kt:147-173 | every candidate comes from a line that is not excluded, with that line's tier and one of its amounts |
| ReceiptTotal.FindTotalInRange | app/src/main/java/com/notaspese/util/TextRecognitionHelper.kt:177-217 | any total found is between 0.01 and 99999.99 |
| ReceiptTotal.TierSelection | app/src/main/java/com/notaspese/util/TextRecognitionHelper.kt:177-199 | when the highest tier present is 3, 2 or 1, the result is the largest amount of that tier |
| ReceiptTotal.FallbackLastLines | app/src/main/java/com/notaspese/util/TextRecognitionHelper.kt:201-211 | with no keyword, the result is the largest amount of the last five lines, when they have one |
| ReceiptTotal.SelectWithoutTier | app/src/main/java/com/notaspese/util/TextRecognitionHelper.kt:201-217 | with no keyword, the result is the last-lines maximum, or else the maximum over the text of the amounts between 1 and 10000 euros |
| ReceiptTotal.FallbackAnywhere | app/src/main/java/com/notaspese/util/TextRecognitionHelper.kt:213-217 | with no keyword and no amount in the last lines, a total exists exactly when some amount is between 1 and 10000 euros, and then it is the largest such amount |
| ReceiptTotal.BlankTextHasNoTotal | app/src/main/java/com/notaspese/util/TextRecognitionHelper.kt:137-138 | a blank text has no total |
| ReceiptTotal.ReceiptLineChars | app/src/main/java/com/notaspese/util/TextRecognitionHelper.kt:137-138 | no line the reader examines holds a character that `cleanText` removes |
| ReceiptTotal.KeywordLetters | app/src/main/java/com/notaspese/util/TextRecognitionHelper.kt:148 | a keyword with an `O` can only match a line with a lower-case `o`; one with an `L` only a line with a capital `L` |
| ReceiptTotal.TiersWithoutLowerO | app/src/main/java/com/notaspese/util/TextRecognitionHelper.kt:23-78 | on a line without `o`, no medium keyword matches; high means `DA PAGARE`; low means `CARTA` or `CASH`; exclusion means `IVA`, `VAT`, `CHANGE` or `PUNTI` |
| ReceiptTotal.NoKeywordWithO | app/src/main/java/com/notaspese/util/TextRecognitionHelper.kt:224-226 | on a line without `o`, no text containing `O` occurs in its upper-case form |
| ReceiptTotal.HighWithoutO | app/src/main/java/com/notaspese/util/TextRecognitionHelper.kt:23-35 | without the letter O, `DA PAGARE` is the only high keyword that can match |
| ReceiptTotal.MediumWithoutO | app/src/main/java/com/notaspese/util/TextRecognitionHelper.kt:37-49 | every medium keyword needs the letter O |
| ReceiptTotal.LowWithoutO | app/src/main/java/com/notaspese/util/TextRecognitionHelper.kt:51-62 | without the letter O, only `CARTA` and `CASH` of the low keywords can match |
| ReceiptTotal.ExcludeWithoutO | app/src/main/java/com/notaspese/util/TextRecognitionHelper.kt:65-78 | without the letter O, a line is excluded exactly when it holds `IVA`, `VAT`, `CHANGE` or `PUNTI` |
| ReceiptTotal.ExcludeTableWithoutO | app/src/main/java/com/notaspese/util/TextRecognitionHelper.kt:65-78 | every exclusion keyword other than `IVA`, `VAT`, `CHANGE` and `PUNTI` contains an O |
| ImageCropper.CalculateInSampleSize | app/src/main/java/com/notaspese/ui/components/ImageCropperDialog.kt:559-568 | the sample size is the least power of two that brings the longer side down to `maxSize` |
| ImageCropper.CoerceIn | app/src/main/java/com/notaspese/ui/components/ImageCropperDialog.kt:294-314 | `coerceIn` lands in the interval and leaves a value already inside unchanged |
| ImageCropper.CoerceInIsNearest | app/src/main/java/com/notaspese/ui/components/ImageCropperDialog.kt:294-314 | `coerceIn` gives the allowed value nearest to the requested one |
| ImageCropper.DragRect | app/src/main/java/com/notaspese/ui/components/ImageCropperDialog.kt:285-323 | a drag keeps the rectangle inside the image and at least 0.1 wide and high; a corner moves only its own two edges; the centre keeps the size; with no handle nothing moves |
| ImageCropper.CornerDragFollowsFinger | app/src/main/java/com/notaspese/ui/components/ImageCropperDialog.kt:293-308 | a dragged corner edge lands as near the finger as any allowed position |
| ImageCropper.CenterDragFollowsFinger | app/src/main/java/com/notaspese/ui/components/ImageCropperDialog.kt:309-320 | a dragged rectangle lands as near the finger as any allowed position of the same size |
| ImageCropper.FreeDragIsExact | app/src/main/java/com/notaspese/ui/components/ImageCropperDialog.kt:289-320 | when the drag breaks no limit, the moved edges follow the finger exactly |
| ImageCropper.FirstMinIndex | app/src/main/java/com/notaspese/ui/components/ImageCropperDialog.kt:489-491 | `minByOrNull` picks the first of the smallest keys |
| ImageCropper.FindNearestHandle | app/src/main/java/com/notaspese/ui/components/ImageCropperDialog.kt:470-498 | a corner is picked exactly when some corner is nearer than 60 points, and it is a nearest one; otherwise the rectangle is moved as a whole |
| ImageCropper.NearestHandleTieBreak | app/src/main/java/com/notaspese/ui/components/ImageCropperDialog.kt:482-491 | on a tie the corner listed first wins |
| ImageCropper.ToInt | app/src/main/java/com/notaspese/ui/components/ImageCropperDialog.kt:621-626 | `toInt` truncates toward zero |
| ImageCropper.CoerceInt | app/src/main/java/com/notaspese/ui/components/ImageCropperDialog.kt:621-626 | integer `coerceIn` lands in the interval and keeps a value already inside |
| ImageCropper.PixelStart | app/src/main/java/com/notaspese/ui/components/ImageCropperDialog.kt:615-622 | the first pixel column or row is within the bitmap |
| ImageCropper.PixelLength | app/src/main/java/com/notaspese/ui/components/ImageCropperDialog.kt:623-626 | the width or height is at least 1 and fits from the start to the edge |
| ImageCropper.PixelSpan | app/src/main/java/com/notaspese/ui/components/ImageCropperDialog.kt:615-626 | start and length of one axis always fit the bitmap |
| ImageCropper.PixelRectOf | app/src/main/java/com/notaspese/ui/components/ImageCropperDialog.kt:615-626 | the pixel rectangle always lies inside the bitmap and is at least one pixel wide and high |
| ImageCropper.CropGuardNeverFires | app/src/main/java/com/notaspese/ui/components/ImageCropperDialog.kt:628-631 | the width/height guard never rejects a crop |
| ImageCropper.ExactSpan | app/src/main/java/com/notaspese/ui/components/ImageCropperDialog.kt:615-626 | for a well-formed rectangle on a bitmap of at least 10 pixels, the clamps change nothing: start and length are the floors of the exact products |
| ImageCropper.CropState.constructor | app/src/main/java/com/notaspese/ui/components/ImageCropperDialog.kt:70-76 | the dialog opens on the rectangle 0.1–0.9 with no handle grabbed |
| ImageCropper.CropState.DragStart | app/src/main/java/com/notaspese/ui/components/ImageCropperDialog.kt:276-283 | a gesture grabs the handle nearest the touch when the image has a size, and moves nothing |
| ImageCropper.CropState.Drag | app/src/main/java/com/notaspese/ui/components/ImageCropperDialog.kt:285-323 | a drag step moves the rectangle by the drag over the image size, keeping it well-formed |
| ImageCropper.CropState.DragEnd | app/src/main/java/com/notaspese/ui/components/ImageCropperDialog.kt:325-327 | the end of a gesture releases the handle and moves nothing |
| PdfLayout.TruncateText | app/src/main/java/com/notaspese/util/PdfGenerator.kt:34-36 | a short text is unchanged; a longer one becomes its first `maxLength - 3` characters and `...` |
| PdfLayout.TruncateTextIdempotent | app/src/main/java/com/notaspese/util/PdfGenerator.kt:34-36 | the result is never longer than `maxLength`, and truncating it again changes nothing |
| PdfLayout.PdfSampleSize | app/src/main/java/com/notaspese/util/PdfGenerator.kt:948-963 | the sample size is 1 for a photo that already fits; otherwise it is the least power of two at which half the photo no longer covers the requested size |
| PdfLayout.PageCursor.constructor | app/src/main/java/com/notaspese/util/PdfGenerator.kt:65-69 | the report starts on page 1 at the top margin |
| PdfLayout.PageCursor.Advance | app/src/main/java/com/notaspese/util/PdfGenerator.kt:144 | writing a line moves the cursor down and keeps the page |
| PdfLayout.PageCursor.CheckNewPage | app/src/main/java/com/notaspese/util/PdfGenerator.kt:108-120 | a new page starts exactly when the needed space crosses the break line; then the old page is finished, the number goes up and the cursor is at the top; any block that can fit on a page fits after the call |
| PdfLayout.Attachments | app/src/main/java/com/notaspese/util/PdfGenerator.kt:707 | the attachments are exactly the expenses with a receipt path |
| PdfLayout.PageCountIsCeiling | app/src/main/java/com/notaspese/util/PdfGenerator.kt:754 | the attachment page count is the ceiling of a sixth of the attachments: enough cells, and no empty page |
| PdfLayout.CaptionText | app/src/main/java/com/notaspese/util/PdfGenerator.kt:827-828 | a caption's description, or the category label when it is blank, is at most 25 characters |
| PdfLayout.LayOutAttachments | app/src/main/java/com/notaspese/util/PdfGenerator.kt:753-840 | one page per six attachments, numbered after the last page, titled `(k/n)` when there are several; every attachment has exactly one cell, in order |
| PdfLayout.FillPage | app/src/main/java/com/notaspese/util/PdfGenerator.kt:771-836 | one page's loops draw the next six attachments, or as many as are left, row by row |
| PdfLayout.DrawCell | app/src/main/java/com/notaspese/util/PdfGenerator.kt:775-833 | the cell at a page, row and column is the one the attachment's index determines |
| PdfLayout.SlotOfIndex | app/src/main/java/com/notaspese/util/PdfGenerator.kt:771-777 | row-by-row filling puts attachment `6p + 2r + c` on page `p`, row `r`, column `c` |
| PdfLayout.CellsDistinct | app/src/main/java/com/notaspese/util/PdfGenerator.kt:753-836 | no two attachments share a cell, and every cell is on an attachment page within the grid |
| PdfLayout.CellInsidePage | app/src/main/java/com/notaspese/util/PdfGenerator.kt:769-831 | every cell, with its two caption lines, lies within the margins and above the footer |
| AddSpesaScreen.DetectedMessage | app/src/main/java/com/notaspese/ui/screens/AddSpesaScreen.kt:284 | the message for a detected total contains `rilevato:` |
| AddSpesaScreen.BannerColours | app/src/main/java/com/notaspese/ui/screens/AddSpesaScreen.kt:120-153 | only a detected total gets the success colours; "not detected" and "PDF loaded" get the error colours |
| AddSpesaScreen.NotDetectedIsError | app/src/main/java/com/notaspese/ui/screens/AddSpesaScreen.kt:286 | the "not detected" message is shown in the error colours |
| AddSpesaScreen.PdfLoadedIsError | app/src/main/java/com/notaspese/ui/screens/AddSpesaScreen.kt:83 | the "PDF loaded" message is shown in the error colours |
| AddSpesaScreen.FormValidIffNonZeroAmount | app/src/main/java/com/notaspese/ui/screens/AddSpesaScreen.kt:72 | on filtered text the form is valid exactly when the amount has a non-zero digit and a date is set |
| AddSpesaScreen.OcrPrefillIsValid | app/src/main/java/com/notaspese/ui/screens/AddSpesaScreen.kt:282-284 | a prefilled total passes the filter, parses to the detected amount, and leaves the form valid exactly when a date is set |
| AddSpesaScreen.AddSpesaForm.constructor | app/src/main/java/com/notaspese/ui/screens/AddSpesaScreen.kt:47-61 | the screen opens empty, dated now, paid by the company by credit card, in category `VITTO` |
| AddSpesaScreen.AddSpesaForm.EditImporto | app/src/main/java/com/notaspese/ui/screens/AddSpesaScreen.kt:206 | the amount field takes only empty or filtered text; nothing else changes |
| AddSpesaScreen.AddSpesaForm.EditDescrizione | app/src/main/java/com/notaspese/ui/screens/AddSpesaScreen.kt:210 | the description takes any text; nothing else changes |
| AddSpesaScreen.AddSpesaForm.EditData | app/src/main/java/com/notaspese/ui/screens/AddSpesaScreen.kt:208 | the date takes the picked value; nothing else changes |
| AddSpesaScreen.AddSpesaForm.SelectCategoria | app/src/main/java/com/notaspese/ui/screens/AddSpesaScreen.kt:242 | the category takes the chip picked; nothing else changes |
| AddSpesaScreen.AddSpesaForm.SelectPagatoDa | app/src/main/java/com/notaspese/ui/screens/AddSpesaScreen.kt:64-70 | a change of payer resets the method to electronic-employee for the employee, credit card for the company |
| AddSpesaScreen.AddSpesaForm.SelectMetodoPagamento | app/src/main/java/com/notaspese/ui/screens/AddSpesaScreen.kt:228 | the method can be changed only while the company pays |
| AddSpesaScreen.AddSpesaForm.OnCameraPermission | app/src/main/java/com/notaspese/ui/screens/AddSpesaScreen.kt:104-112 | a granted permission prepares the photo file; a refusal changes nothing |
| AddSpesaScreen.AddSpesaForm.OnCameraResult | app/src/main/java/com/notaspese/ui/screens/AddSpesaScreen.kt:90-96 | a taken photo goes to the crop dialog as an image |
| AddSpesaScreen.AddSpesaForm.OnGalleryResult | app/src/main/java/com/notaspese/ui/screens/AddSpesaScreen.kt:97-103 | a picked image goes to the crop dialog; no pick changes nothing |
| AddSpesaScreen.AddSpesaForm.OnPdfPicked | app/src/main/java/com/notaspese/ui/screens/AddSpesaScreen.kt:75-88 | a saved PDF becomes the attachment, flagged as PDF, with its banner; a failed save changes nothing |
| AddSpesaScreen.AddSpesaForm.RemoveAttachment | app/src/main/java/com/notaspese/ui/screens/AddSpesaScreen.kt:188-192 | removing clears both paths and the PDF flag |
| AddSpesaScreen.AddSpesaForm.OnCropDismiss | app/src/main/java/com/notaspese/ui/screens/AddSpesaScreen.kt:272-275 | dismissing closes the dialog and drops the waiting image |
| AddSpesaScreen.AddSpesaForm.OnCropComplete | app/src/main/java/com/notaspese/ui/screens/AddSpesaScreen.kt:276-288 | the cropped image becomes the attachment; a positive detected total is prefilled with `Locale.US` two decimals and announced; otherwise the amount is kept and the user is asked to type it |
| AddSpesaScreen.AddSpesaForm.OnMessageTimeout | app/src/main/java/com/notaspese/ui/screens/AddSpesaScreen.kt:293-298 | after the delay the banner is cleared and nothing else changes |
| AddSpesaScreen.AddSpesaForm.Save | app/src/main/java/com/notaspese/ui/screens/AddSpesaScreen.kt:116 | Save is possible exactly when the form is valid; it yields the expense of the fields with the parsed, positive amount, and an employee's expense is an electronic employee payment |
| CreateNotaSpeseScreen.RoundCents | app/src/main/java/com/notaspese/ui/screens/CreateNotaSpeseScreen.kt:35 | `%.2f` rounds to the nearest hundredth |
| CreateNotaSpeseScreen.RoundUnits | app/src/main/java/com/notaspese/ui/screens/CreateNotaSpeseScreen.kt:38 | `%.0f` rounds to the nearest unit |
| CreateNotaSpeseScreen.RoundWholeCents | app/src/main/java/com/notaspese/ui/screens/CreateNotaSpeseScreen.kt:35 | a whole number of hundredths prints unchanged |
| CreateNotaSpeseScreen.RoundWholeNumber | app/src/main/java/com/notaspese/ui/screens/CreateNotaSpeseScreen.kt:38 | a whole number of kilometres prints unchanged |
| CreateNotaSpeseScreen.InitialStateInLocale | app/src/main/java/com/notaspese/ui/screens/CreateNotaSpeseScreen.kt:24-40 | a new note opens with no start date and client rate `0.60`; an edited note opens on its own start date |
| CreateNotaSpeseScreen.InitialState | app/src/main/java/com/notaspese/ui/screens/CreateNotaSpeseScreen.kt:24-40 | with a point as decimal separator every numeric field opens on text its filter admits |
| CreateNotaSpeseScreen.FilteredInitialTexts | app/src/main/java/com/notaspese/ui/screens/CreateNotaSpeseScreen.kt:35-40 | the initial amounts printed with a point pass the numeric filters |
| CreateNotaSpeseScreen.NatToStringReadsBack | app/src/main/java/com/notaspese/ui/screens/CreateNotaSpeseScreen.kt:38 | a kilometre count printed as an integer passes the filter and parses back to itself |
| CreateNotaSpeseScreen.BuildNota | app/src/main/java/com/notaspese/ui/screens/CreateNotaSpeseScreen.kt:59-84 | the saved note keeps the edited note's id and filing date (a new one gets id 0 and the month's last day); the end date defaults to the start; an unreadable field saves 0, or 0.60 for the client rate; no amount is negative |
| CreateNotaSpeseScreen.NewNoteDefaults | app/src/main/java/com/notaspese/ui/screens/CreateNotaSpeseScreen.kt:59-84 | a new note with only the required fields saves no advance, no kilometres, client rate 0.60 and ends on its start date |
| CreateNotaSpeseScreen.DefaultRateReadsBack | app/src/main/java/com/notaspese/ui/screens/CreateNotaSpeseScreen.kt:40 | the default client-rate text parses as 0.60 |
| CreateNotaSpeseScreen.UnchangedEditKeepsNote | app/src/main/java/com/notaspese/ui/screens/CreateNotaSpeseScreen.kt:24-84 | with a point as decimal separator, saving an edited note untouched gives back the same note (amounts in hundredths, whole kilometres) |
| CreateNotaSpeseScreen.SavedAmount | app/src/main/java/com/notaspese/ui/screens/CreateNotaSpeseScreen.kt:80-83 | an amount in hundredths printed and read back is the same amount |
| CreateNotaSpeseScreen.SavedKm | app/src/main/java/com/notaspese/ui/screens/CreateNotaSpeseScreen.kt:81 | whole kilometres printed and read back are the same |
| CreateNotaSpeseScreen.CommaLocaleLosesAmounts | app/src/main/java/com/notaspese/ui/screens/CreateNotaSpeseScreen.kt:35-40 | with a comma as decimal separator, saving an edited note untouched resets its advance and refund rate to 0 and its client rate to 0.60 |
| CreateNotaSpeseScreen.CommaText | app/src/main/java/com/notaspese/ui/screens/CreateNotaSpeseScreen.kt:35 | a positive amount printed with a comma fails the numeric filter |
| CreateNotaSpeseScreen.KmPreview | app/src/main/java/com/notaspese/ui/screens/CreateNotaSpeseScreen.kt:176-199 | with each field read as its parsed value, or 0 when it does not parse, the preview shows a line exactly when the kilometres and some rate are positive, and the line for a rate exactly when that rate is positive |
| CreateNotaSpeseScreen.PreviewLines | app/src/main/java/com/notaspese/ui/screens/CreateNotaSpeseScreen.kt:179-199 | the preview shows a line exactly when the kilometres and its rate are positive, and each line shows their product |
| CreateNotaSpeseScreen.PreviewMatchesSavedTotals | app/src/main/java/com/notaspese/ui/screens/CreateNotaSpeseScreen.kt:176-199 | every preview line shows the total the saved note will carry |
| CreateNotaSpeseScreen.PreviewHidesDefaultClientRate | app/src/main/java/com/notaspese/ui/screens/CreateNotaSpeseScreen.kt:178 | with the client rate cleared, the preview shows no client charge, yet the note saves 0.60 per kilometre and a positive charge |
| CreateNotaSpeseScreen.NotaSpeseForm.constructor | app/src/main/java/com/notaspese/ui/screens/CreateNotaSpeseScreen.kt:24-40 | the form opens on the initial texts of the note being edited, or of a new one, with the amounts printed using the default locale's separator `sep`; each numeric field then holds filtered text or its initial text, and with a decimal point every numeric field is filtered |
| CreateNotaSpeseScreen.PointLocaleFiltered | app/src/main/java/com/notaspese/ui/screens/CreateNotaSpeseScreen.kt:35-40 | when the separator is a point, a form whose numeric fields are filtered or initial has every numeric field filtered |
| CreateNotaSpeseScreen.NotaSpeseForm.EditText | app/src/main/java/com/notaspese/ui/screens/CreateNotaSpeseScreen.kt:97-137 | a free-text field takes any text; nothing else changes |
| CreateNotaSpeseScreen.NotaSpeseForm.EditNumber | app/src/main/java/com/notaspese/ui/screens/CreateNotaSpeseScreen.kt:145-207 | a numeric field takes only empty or filtered text; nothing else changes |
| CreateNotaSpeseScreen.NotaSpeseForm.SetDataInizio | app/src/main/java/com/notaspese/ui/screens/CreateNotaSpeseScreen.kt:116 | the start date takes the picked value; nothing else changes |
| CreateNotaSpeseScreen.NotaSpeseForm.SetDataFine | app/src/main/java/com/notaspese/ui/screens/CreateNotaSpeseScreen.kt:117 | the end date takes the picked value; nothing else changes |
| CreateNotaSpeseScreen.NotaSpeseForm.Save | app/src/main/java/com/notaspese/ui/screens/CreateNotaSpeseScreen.kt:51-86 | Save is possible exactly when name, start date, place and client are set, and hands over the note `BuildNota` describes |

## Left out

- The text recogniser (ML Kit), image loading, EXIF rotation, bitmap decoding and scaling, file storage, the database, the repository and the view model. These are I/O or foreign code; the recognised text, the bitmap size and the saved path enter as parameters.
- Compose rendering and drawing on the PDF canvas. The layout is returned as values: pages, cells and summary lines.
- `CsvExporter`, `FileStorageHelper`, navigation, theme and the home screen. They hold no logic that the modelled functions depend on.
- `Log` calls and the toasts. They have no effect on state.
- IEEE floating point. Amounts in the data model, the crop rectangle and the rates are exact `real` numbers. The receipt reader works in exact cents. Float rounding of the crop products and of `kmVal * rimborsoVal` is not modelled.
- AmountScanner: `\d` and `\s` are the ASCII classes of `java.util.regex` without `UNICODE_CHARACTER_CLASS`; `IGNORE_CASE` is applied to ASCII letters only.
- Strings.Upper: `uppercase()` is modelled on ASCII letters only; accented and other non-ASCII letters keep their case.
- ImageCropper.FindNearestHandle: it compares squared distances rather than `getDistance()`. The square root is monotone, so the same handle is picked.
- ImageCropper.ExactSpan: it is stated per axis and for bitmaps of at least 10 pixels, where `0.1` of a side is at least one pixel.
- The default-locale `"%.2f"` of the anticipo/rate fields, the kilometre preview and the OCR banner is modelled as a decimal-separator parameter `sep`. Locale data is not part of this model.
- CommonComponents.FormatTime: `String.format("%02d", …)` also uses the default locale. It is modelled with ASCII digits, as every locale with Latin digits prints them. A locale with other native digits, such as Arabic, would print different characters, which `toIntOrNull` may not read back. The `"%.0f"` of the kilometre field is modelled the same way.
- CommonComponents.ParseTime: an hour outside 0-23 or a minute outside 0-59 is passed through. The time picker's state rejects such values, and no stored time produced by the picker holds one.
- PdfLayout.TruncateText and PdfLayout.CaptionText: Kotlin `length` and `take` count UTF-16 code units, whereas a Dafny `string` counts Unicode scalar values. A description holding a character outside the Basic Multilingual Plane, such as an emoji, is cut at a different place, and Kotlin can split its surrogate pair. The model does not capture this.
- Parsing.ToDoubleOrNull: it reads only digits with at most one point, and gives null on every other text. Kotlin also accepts signs, exponents and `NaN`, but no filtered field can hold them.
- Parsing.ToIntOrNull: it reads ASCII digits only; Kotlin also accepts other Unicode decimal digits.
- The month arithmetic of `getLastDayOfMonth` and the clock of `System.currentTimeMillis()` enter as parameters.
- UI-only state: `showPhotoOptions`, `isOcrProcessing`, `showOnlyCarta`, the time picker's dial and the date picker. They decide what is shown, not what is saved.
- The `LaunchedEffect(pagatoDa)` also runs once when the screen is first composed. That run sets the method to credit card, which is already its initial value, so the model has no separate step for it.

## Findings

| source | as written | input that shows it | evidently intended | confidence | as-written member | corrected member |
|---|---|---|---|---|---|---|
| app/src/main/java/com/notaspese/ui/screens/CreateNotaSpeseScreen.kt:35-40 | Edited amounts are printed with `"%.2f".format(…)` in the default locale. On an Italian device that gives `50,00`. `toDoubleOrNull` at lines 80-83 rejects it, so saving an untouched note stores advance 0, refund rate 0 and client rate 0.60. The filters at lines 145-207 also refuse every edit that keeps the comma. | An existing note with anticipo 50.0, edited on a device whose locale uses a decimal comma, saved without changes | Print with `Locale.US`, as line 283 of AddSpesaScreen.kt does, so that an untouched edit saves the same note | not executed | CreateNotaSpeseScreen.CommaLocaleLosesAmounts | CreateNotaSpeseScreen.UnchangedEditKeepsNote |
