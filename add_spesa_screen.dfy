/**
 * The state behind the "Nuova Spesa" screen and its event handlers: the
 * filtered amount field, the payer/method rule, the attachment and crop
 * dialog state, the OCR prefill and the Save button.
 */
module AddSpesaScreen {
  import opened Wrappers
  import opened Strings
  import opened Parsing
  import opened Enums
  import opened Model

  const PdfLoadedMessage: string := "PDF caricato correttamente"
  /** "Totale non rilevato. Inseriscilo manualmente.", written as its two sentences. */
  const NotDetectedMessage: string := "Totale non rilevato." + " Inseriscilo manualmente."

  /**
   * The banner after a receipt total was found, its amount printed with two
   * decimals and the default locale's decimal separator `sep`.
   */
  function DetectedMessage(cents: nat, sep: char): (m: string)
    ensures Contains(m, "rilevato:")
  {
    var m := "Totale rilevato: \U{20AC}" + TwoDecimals(cents, sep);
    assert OccursAt(m, "rilevato:", 7);
    m
  }

  /** The banner uses the success colours when its text contains `rilevato:`. */
  predicate BannerIsSuccess(message: string) {
    Contains(message, "rilevato:")
  }

  /** Only a detected total gets the success colours; the other two messages get the error colours. */
  lemma BannerColours(cents: nat, sep: char)
    ensures BannerIsSuccess(DetectedMessage(cents, sep))
    ensures !BannerIsSuccess(NotDetectedMessage)
    ensures !BannerIsSuccess(PdfLoadedMessage)
  {
    NotDetectedIsError();
    PdfLoadedIsError();
  }

  lemma NotDetectedIsError()
    ensures !BannerIsSuccess(NotDetectedMessage)
  {
    WithoutColonNotSuccess("Totale non ", "rilevato.");
    assert "Totale non " + "rilevato." == "Totale non rilevato.";
    WithoutColonNotSuccess(" Inseriscilo", " manualmente.");
    assert " Inseriscilo" + " manualmente." == " Inseriscilo manualmente.";
    WithoutColonNotSuccess("Totale non rilevato.", " Inseriscilo manualmente.");
  }

  lemma PdfLoadedIsError()
    ensures !BannerIsSuccess(PdfLoadedMessage)
  {
    WithoutColonNotSuccess("PDF caricato", " correttamente");
    assert "PDF caricato" + " correttamente" == PdfLoadedMessage;
  }

  /** A text made of two parts without a colon has no colon, so no `rilevato:`. */
  lemma WithoutColonNotSuccess(a: string, b: string)
    requires ':' !in a && ':' !in b
    ensures ':' !in a + b && !BannerIsSuccess(a + b)
  {
    if BannerIsSuccess(a + b) {
      ContainsChar(a + b, "rilevato:", ':');
    }
  }

  /** `isFormValid`: a non-blank amount that parses to a positive number, and a date. */
  predicate IsFormValid(importo: string, data: Option<int>) {
    !IsBlank(importo) && ToDoubleOrNull(importo).Some? && ToDoubleOrNull(importo).value > 0.0
    && data.Some?
  }

  /** On the text the amount filter lets through, the form is valid exactly when some digit is not zero and a date is set. */
  lemma FormValidIffNonZeroAmount(importo: string, data: Option<int>)
    requires IsDecimalInput(importo)
    ensures IsFormValid(importo, data) <==> HasNonZeroDigit(importo) && data.Some?
  {
    ParsesPositive(importo);
    if HasNonZeroDigit(importo) {
      var i :| 0 <= i < |importo| && '1' <= importo[i] <= '9';
      assert !IsWhitespace(importo[i]);
    }
  }

  /** A receipt total of `cents` hundredths written into the amount field parses back to that total. */
  lemma OcrPrefillIsValid(cents: nat, data: Option<int>)
    requires cents > 0
    ensures IsDecimalInput(TwoDecimals(cents, '.'))
    ensures ToDoubleOrNull(TwoDecimals(cents, '.')) == Some(cents as real / 100.0)
    ensures IsFormValid(TwoDecimals(cents, '.'), data) <==> data.Some?
  {
    TwoDecimalsReadsBack(cents);
    var s := TwoDecimals(cents, '.');
    assert IsDigit(s[0]) && !IsWhitespace(s[0]);
  }

  /** The amount after cropping: a positive receipt total in hundredths, printed with `Locale.US`, or the amount as it was. */
  function CropImporto(importo: string, extractedTotal: Option<int>): string {
    if extractedTotal.Some? && extractedTotal.value > 0 then TwoDecimals(extractedTotal.value, '.') else importo
  }

  /** The banner after cropping: the detected total, or the request to type it in. */
  function CropBanner(extractedTotal: Option<int>, sep: char): string {
    if extractedTotal.Some? && extractedTotal.value > 0 then DetectedMessage(extractedTotal.value, sep)
    else NotDetectedMessage
  }

  /** Every state variable of the screen, as one value. */
  datatype FormState = FormState(
    descrizione: string,
    importo: string,
    data: Option<int>,
    metodoPagamento: MetodoPagamento,
    categoria: CategoriaSpesa,
    fotoPath: Option<string>,
    tempPhotoUri: Option<string>,
    showCropDialog: bool,
    pendingImageUri: Option<string>,
    ocrResultMessage: Option<string>,
    pdfPath: Option<string>,
    isPdf: bool,
    pagatoDa: PagatoDa)

  class AddSpesaForm {
    const notaSpeseId: int
    var descrizione: string
    var importo: string
    var data: Option<int>
    var metodoPagamento: MetodoPagamento
    var categoria: CategoriaSpesa
    var fotoPath: Option<string>
    var tempPhotoUri: Option<string>
    var showCropDialog: bool
    var pendingImageUri: Option<string>
    var ocrResultMessage: Option<string>
    var pdfPath: Option<string>
    var isPdf: bool
    var pagatoDa: PagatoDa

    function State(): FormState
      reads this
    {
      FormState(descrizione, importo, data, metodoPagamento, categoria, fotoPath, tempPhotoUri,
                showCropDialog, pendingImageUri, ocrResultMessage, pdfPath, isPdf, pagatoDa)
    }

    /**
     * The amount always has the filtered shape; an employee payment is always
     * an electronic employee payment; the crop dialog is open exactly while an
     * image waits for it; a PDF flag comes with both paths.
     */
    predicate Valid()
      reads this
    {
      IsDecimalInput(importo)
      && (pagatoDa == Dipendente ==> metodoPagamento == Contanti)
      && (showCropDialog <==> pendingImageUri.Some?)
      && (isPdf ==> fotoPath.Some? && pdfPath.Some?)
    }

    /** The screen as first composed, `now` being the clock at that moment. */
    constructor (notaSpeseId: int, now: int)
      ensures Valid() && this.notaSpeseId == notaSpeseId
      ensures State() == FormState("", "", Some(now), CartaCredito, Vitto, None, None, false, None,
                                   None, None, false, Azienda)
    {
      this.notaSpeseId := notaSpeseId;
      descrizione := "";
      importo := "";
      data := Some(now);
      metodoPagamento := CartaCredito;
      categoria := Vitto;
      fotoPath := None;
      tempPhotoUri := None;
      showCropDialog := false;
      pendingImageUri := None;
      ocrResultMessage := None;
      pdfPath := None;
      isPdf := false;
      pagatoDa := Azienda;
    }

    /** The amount field's `onValueChange`: only empty or pattern-matching text is taken. */
    method EditImporto(edit: string)
      requires Valid()
      modifies this
      ensures Valid()
      ensures IsDecimalInput(edit) ==> importo == edit
      ensures !IsDecimalInput(edit) ==> importo == old(importo)
      ensures State() == old(State()).(importo := importo)
    {
      importo := FilterEdit(importo, edit);
    }

    method EditDescrizione(text: string)
      requires Valid()
      modifies this
      ensures Valid() && State() == old(State()).(descrizione := text)
    {
      descrizione := text;
    }

    method EditData(date: Option<int>)
      requires Valid()
      modifies this
      ensures Valid() && State() == old(State()).(data := date)
    {
      data := date;
    }

    method SelectCategoria(c: CategoriaSpesa)
      requires Valid()
      modifies this
      ensures Valid() && State() == old(State()).(categoria := c)
    {
      categoria := c;
    }

    /**
     * Choosing who paid. The effect keyed on the payer runs only when the
     * payer changes, and then forces the method: the employee's electronic
     * payment for `DIPENDENTE`, the credit card for `AZIENDA`.
     */
    method SelectPagatoDa(p: PagatoDa)
      requires Valid()
      modifies this
      ensures Valid()
      ensures p != old(pagatoDa) ==>
        State() == old(State()).(pagatoDa := p,
                                 metodoPagamento := if p == Dipendente then Contanti else CartaCredito)
      ensures p == old(pagatoDa) ==> State() == old(State())
    {
      if p != pagatoDa {
        pagatoDa := p;
        if pagatoDa == Dipendente {
          metodoPagamento := Contanti;
        } else {
          metodoPagamento := CartaCredito;
        }
      }
    }

    /** The method selector takes a choice only while the company is the payer. */
    method SelectMetodoPagamento(m: MetodoPagamento)
      requires Valid()
      modifies this
      ensures Valid()
      ensures old(pagatoDa) == Azienda ==> State() == old(State()).(metodoPagamento := m)
      ensures old(pagatoDa) != Azienda ==> State() == old(State())
    {
      if pagatoDa == Azienda {
        metodoPagamento := m;
      }
    }

    /** The camera permission result: when granted, `photoUri` is the new temporary photo file. */
    method OnCameraPermission(granted: bool, photoUri: string)
      requires Valid()
      modifies this
      ensures Valid()
      ensures granted ==> State() == old(State()).(tempPhotoUri := Some(photoUri))
      ensures !granted ==> State() == old(State())
    {
      if granted {
        tempPhotoUri := Some(photoUri);
      }
    }

    /** A photo taken successfully goes to the crop dialog as an image, not a PDF. */
    method OnCameraResult(success: bool)
      requires Valid()
      modifies this
      ensures Valid()
      ensures success && old(tempPhotoUri).Some? ==>
        State() == old(State()).(pendingImageUri := old(tempPhotoUri), showCropDialog := true, isPdf := false)
      ensures !(success && old(tempPhotoUri).Some?) ==> State() == old(State())
    {
      if success && tempPhotoUri.Some? {
        pendingImageUri := tempPhotoUri;
        showCropDialog := true;
        isPdf := false;
      }
    }

    /** An image chosen from the gallery goes to the crop dialog. */
    method OnGalleryResult(uri: Option<string>)
      requires Valid()
      modifies this
      ensures Valid()
      ensures uri.Some? ==>
        State() == old(State()).(pendingImageUri := uri, showCropDialog := true, isPdf := false)
      ensures uri.None? ==> State() == old(State())
    {
      if uri.Some? {
        pendingImageUri := uri;
        showCropDialog := true;
        isPdf := false;
      }
    }

    /**
     * A PDF was picked; `savedPath` is where the file store copied it, or
     * None when no file was picked or the copy failed (a toast only).
     */
    method OnPdfPicked(savedPath: Option<string>)
      requires Valid()
      modifies this
      ensures Valid()
      ensures savedPath.Some? ==>
        State() == old(State()).(pdfPath := savedPath, fotoPath := savedPath, isPdf := true,
                                 ocrResultMessage := Some(PdfLoadedMessage))
      ensures savedPath.None? ==> State() == old(State())
    {
      if savedPath.Some? {
        pdfPath := savedPath;
        fotoPath := savedPath;
        isPdf := true;
        ocrResultMessage := Some(PdfLoadedMessage);
      }
    }

    /** The close button on the attachment preview. */
    method RemoveAttachment()
      requires Valid()
      modifies this
      ensures Valid()
      ensures State() == old(State()).(fotoPath := None, pdfPath := None, isPdf := false)
    {
      fotoPath := None;
      pdfPath := None;
      isPdf := false;
    }

    /** Dismissing the crop dialog drops the pending image. */
    method OnCropDismiss()
      requires Valid()
      modifies this
      ensures Valid()
      ensures State() == old(State()).(showCropDialog := false, pendingImageUri := None)
    {
      showCropDialog := false;
      pendingImageUri := None;
    }

    /**
     * The crop dialog finished: the cropped image becomes the receipt, and a
     * positive receipt total (in hundredths) replaces the amount with its
     * `Locale.US` two-decimal text; otherwise the amount is kept. `sep` is
     * the default locale's decimal separator, used only in the banner.
     */
    method OnCropComplete(croppedUri: string, extractedTotal: Option<int>, sep: char)
      requires Valid()
      modifies this
      ensures Valid()
      ensures State() == old(State()).(fotoPath := Some(croppedUri), showCropDialog := false,
                                       pendingImageUri := None,
                                       importo := CropImporto(old(importo), extractedTotal),
                                       ocrResultMessage := Some(CropBanner(extractedTotal, sep)))
    {
      fotoPath := Some(croppedUri);
      showCropDialog := false;
      pendingImageUri := None;
      if extractedTotal.Some? && extractedTotal.value > 0 {
        TwoDecimalsFiltered(extractedTotal.value);
        importo := TwoDecimals(extractedTotal.value, '.');
        ocrResultMessage := Some(DetectedMessage(extractedTotal.value, sep));
      } else {
        ocrResultMessage := Some(NotDetectedMessage);
      }
    }

    /** The banner disappears three seconds after it was shown. */
    method OnMessageTimeout()
      requires Valid()
      modifies this
      ensures Valid() && State() == old(State()).(ocrResultMessage := None)
    {
      ocrResultMessage := None;
    }

    /**
     * The Save button: enabled only while the form is valid, it then hands
     * over a new expense built from the fields, with the parsed amount.
     */
    method Save() returns (spesa: Option<Spesa>)
      requires Valid()
      ensures spesa.Some? <==> IsFormValid(importo, data) && HasNonZeroDigit(importo)
      ensures spesa.Some? ==>
        spesa.value == Spesa(0, notaSpeseId, descrizione, ToDoubleOrNull(importo).value, data.value,
                             metodoPagamento, categoria, fotoPath, pagatoDa)
      ensures spesa.Some? ==> spesa.value.importo > 0.0
      ensures spesa.Some? && pagatoDa == Dipendente ==> spesa.value.metodoPagamento == Contanti
    {
      FormValidIffNonZeroAmount(importo, data);
      if IsFormValid(importo, data) {
        spesa := Some(Spesa(0, notaSpeseId, descrizione, ToDoubleOrNull(importo).value, data.value,
                            metodoPagamento, categoria, fotoPath, pagatoDa));
      } else {
        spesa := None;
      }
    }
  }
}
