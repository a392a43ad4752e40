/**
 The state of the reimbursement page and the event handlers that update it:
 typing in a text field, typing in the amount field, choosing a file, the
 preview read finishing, clearing the image, submitting, and the reset the
 submit schedules. Each React state setter is an immediate assignment.
 */
module ReimbursementPage {
  import opened FormRules

  /** The four inputs wired to the shared change handler (the amount input
      has a handler of its own). */
  datatype TextField = NamaInput | WhatsAppInput | TujuanInput | TanggalInput

  /** The validator field an input feeds. */
  function FieldOf(t: TextField): (f: Field)
    ensures f != Nominal && f != Bukti
  {
    match t
    case NamaInput => Nama
    case WhatsAppInput => WhatsApp
    case TujuanInput => Tujuan
    case TanggalInput => Tanggal
  }

  /** The value an input currently shows from the form record. */
  function Text(form: FormData, t: TextField): string
  {
    match t
    case NamaInput => form.namaLengkap
    case WhatsAppInput => form.nomorWhatsApp
    case TujuanInput => form.tujuanPengeluaran
    case TanggalInput => form.tanggalPengeluaran
  }

  /** The record with the field behind input t replaced by value: that input
      now shows value, every other input and the amount are as before. */
  function WithText(form: FormData, t: TextField, value: string): (r: FormData)
    ensures Text(r, t) == value
    ensures forall u :: u != t ==> Text(r, u) == Text(form, u)
    ensures r.nominalPenggantian == form.nominalPenggantian
  {
    match t
    case NamaInput => form.(namaLengkap := value)
    case WhatsAppInput => form.(nomorWhatsApp := value)
    case TujuanInput => form.(tujuanPengeluaran := value)
    case TanggalInput => form.(tanggalPengeluaran := value)
  }

  /** The record a fresh or reset form starts from: four empty fields and
      the given date. */
  function Defaults(today: string): FormData
  {
    FormData("", "", "", "", today)
  }

  /** The defaults are not a valid request: submitting a fresh or reset
      form reports the name, the WhatsApp number, the purpose, the amount
      and the receipt as missing, and the date too when none was supplied. */
  lemma DefaultsRejected(today: string)
    ensures FieldErrors(Defaults(today), None) ==
      var missing := map[Key(Nama) := MsgNamaRequired, Key(WhatsApp) := MsgWhatsAppRequired,
                         Key(Tujuan) := MsgTujuanRequired, Key(Nominal) := MsgNominalRequired,
                         Key(Bukti) := MsgBuktiRequired];
      if today == "" then missing[Key(Tanggal) := MsgTanggalRequired] else missing
  {
  }

  /** The errors after the user edits the field with key k: a non-empty
      error under k is blanked; no key is added or removed and no other
      entry changes. */
  function ClearedError(errors: map<string, string>, k: string): (r: map<string, string>)
    ensures r.Keys == errors.Keys
    ensures k in r ==> r[k] == ""
    ensures forall j :: j in r && j != k ==> r[j] == errors[j]
  {
    if k in errors && errors[k] != "" then errors[k := ""] else errors
  }

  /** The validator's first half: the error map built field by field from
      a snapshot of the form, each rule applied whatever the others found. */
  method BuildErrors(form: FormData, file: Option<File>) returns (newErrors: map<string, string>)
    requires AllDigits(form.nominalPenggantian)
    ensures newErrors == FieldErrors(form, file)
  {
    newErrors := map[];
    if IsBlank(form.namaLengkap) {
      newErrors := newErrors[Key(Nama) := MsgNamaRequired];
    }
    if IsBlank(form.nomorWhatsApp) {
      newErrors := newErrors[Key(WhatsApp) := MsgWhatsAppRequired];
    } else if !MatchesWhatsAppPattern(form.nomorWhatsApp) {
      newErrors := newErrors[Key(WhatsApp) := MsgWhatsAppFormat];
    }
    if IsBlank(form.tujuanPengeluaran) {
      newErrors := newErrors[Key(Tujuan) := MsgTujuanRequired];
    }
    if form.nominalPenggantian == "" {
      newErrors := newErrors[Key(Nominal) := MsgNominalRequired];
    } else if BelowMinimum(form.nominalPenggantian) {
      newErrors := newErrors[Key(Nominal) := MsgNominalMinimum];
    }
    if file.None? {
      newErrors := newErrors[Key(Bukti) := MsgBuktiRequired];
    }
    if form.tanggalPengeluaran == "" {
      newErrors := newErrors[Key(Tanggal) := MsgTanggalRequired];
    }
    FieldErrorsSteps(form, file);
  }

  class ReimbursementForm {
    var formData: FormData
    var imageFile: Option<File>
    var imagePreview: Option<string>
    var errors: map<string, string>
    var isSubmitted: bool
    /** Reset timers scheduled by successful submits that have not fired yet. */
    var pendingResets: nat

    /** What every handler keeps: the amount is a digit string, a stored
        file passed the file checks, and errors are keyed by field names. */
    ghost predicate Valid()
      reads this
    {
      && AllDigits(formData.nominalPenggantian)
      && (imageFile.Some? ==> FileRejection(imageFile.value).None?)
      && errors.Keys <= FieldKeys
    }

    /** The page as it mounts, with today's date supplied by the caller. */
    constructor (today: string)
      ensures Valid()
      ensures formData == Defaults(today)
      ensures imageFile == None && imagePreview == None
      ensures errors == map[] && !isSubmitted && pendingResets == 0
    {
      formData := Defaults(today);
      imageFile := None;
      imagePreview := None;
      errors := map[];
      isSubmitted := false;
      pendingResets := 0;
    }

    /** Typing in one of the four text inputs. */
    method HandleInputChange(t: TextField, value: string)
      requires Valid()
      modifies this`formData, this`errors
      ensures Valid()
      ensures formData == WithText(old(formData), t, value)
      ensures errors == ClearedError(old(errors), Key(FieldOf(t)))
    {
      var name := Key(FieldOf(t));
      formData := WithText(formData, t, value);
      if name in errors && errors[name] != "" {
        errors := errors[name := ""];
      }
    }

    /** Typing in the amount input: only the digits of what was typed are
        stored. */
    method HandleAmountChange(raw: string)
      requires Valid()
      modifies this`formData, this`errors
      ensures Valid()
      ensures formData == old(formData).(nominalPenggantian := DigitsOf(raw))
      ensures errors == ClearedError(old(errors), Key(Nominal))
    {
      var value := DigitsOf(raw);
      formData := formData.(nominalPenggantian := value);
      if Key(Nominal) in errors && errors[Key(Nominal)] != "" {
        errors := errors[Key(Nominal) := ""];
      }
    }

    /** Choosing a file (None when the picker was cancelled). A rejected
        file only sets the proof field's error; an accepted one is stored
        and that error blanked. The preview read it starts ends in
        PreviewLoaded. */
    method HandleFileChange(file: Option<File>)
      requires Valid()
      modifies this`imageFile, this`errors
      ensures Valid()
      ensures file.None? ==> imageFile == old(imageFile) && errors == old(errors)
      ensures file.Some? && file.value.mime !in AllowedTypes ==>
        imageFile == old(imageFile) && errors == old(errors)[Key(Bukti) := MsgFileType]
      ensures file.Some? && file.value.mime in AllowedTypes && file.value.size > MaxFileSize ==>
        imageFile == old(imageFile) && errors == old(errors)[Key(Bukti) := MsgFileSize]
      ensures file.Some? && file.value.mime in AllowedTypes && file.value.size <= MaxFileSize ==>
        imageFile == file && errors == old(errors)[Key(Bukti) := ""]
    {
      if file.None? {
        return;
      }
      var f := file.value;
      if f.mime !in AllowedTypes {
        errors := errors[Key(Bukti) := MsgFileType];
        return;
      }
      if f.size > MaxFileSize {
        errors := errors[Key(Bukti) := MsgFileSize];
        return;
      }
      imageFile := file;
      errors := errors[Key(Bukti) := ""];
    }

    /** The preview read finished: its result is a data URL, or None when
        the read failed. */
    method PreviewLoaded(result: Option<string>)
      requires Valid()
      modifies this`imagePreview
      ensures Valid()
      ensures imagePreview == result
    {
      imagePreview := result;
    }

    /** The "Ganti Gambar" button: forget the file and its preview. */
    method ClearImage()
      requires Valid()
      modifies this`imageFile, this`imagePreview
      ensures Valid()
      ensures imageFile == None && imagePreview == None
    {
      imageFile := None;
      imagePreview := None;
    }

    /** The validator: replaces errors by the map of failing fields and
        reports whether that map is empty. */
    method ValidateForm() returns (valid: bool)
      requires Valid()
      modifies this`errors
      ensures Valid()
      ensures errors == FieldErrors(formData, imageFile)
      ensures valid <==> errors == map[]
      ensures valid <==> AllRulesPass(formData, imageFile)
    {
      var newErrors := BuildErrors(formData, imageFile);
      ValidIffAllRulesPass(formData, imageFile);
      errors := newErrors;
      valid := |newErrors| == 0;
    }

    /** Submitting: when the validator passes, the page shows its submitted
        state and schedules one reset; otherwise only the errors change. */
    method HandleSubmit() returns (submitted: bool)
      requires Valid()
      modifies this`errors, this`isSubmitted, this`pendingResets
      ensures Valid()
      ensures errors == FieldErrors(formData, imageFile)
      ensures submitted <==> AllRulesPass(formData, imageFile)
      ensures submitted ==> errors == map[] && isSubmitted && pendingResets == old(pendingResets) + 1
      ensures !submitted ==> isSubmitted == old(isSubmitted) && pendingResets == old(pendingResets)
    {
      submitted := ValidateForm();
      if submitted {
        isSubmitted := true;
        pendingResets := pendingResets + 1;
      }
    }

    /** A scheduled reset fires: the submitted state ends, the five fields
        return to their defaults with the date supplied now, and the file
        and preview are dropped. The errors are left as they are. */
    method ResetTimerFired(today: string)
      requires Valid()
      requires pendingResets > 0
      modifies this`isSubmitted, this`formData, this`imageFile, this`imagePreview, this`pendingResets
      ensures Valid()
      ensures !isSubmitted && formData == Defaults(today)
      ensures imageFile == None && imagePreview == None
      ensures pendingResets == old(pendingResets) - 1
    {
      isSubmitted := false;
      formData := Defaults(today);
      imageFile := None;
      imagePreview := None;
      pendingResets := pendingResets - 1;
    }
  }
}

/** Client scenarios: what a caller can conclude from the handlers'
    contracts alone. */
module PageScenarios {
  import opened FormRules
  import opened ReimbursementPage

  /** A request every rule accepts. */
  lemma SampleIsValid(today: string, file: File)
    requires today != ""
    ensures AllDigits("1500000")
    ensures AllRulesPass(FormData("Siti", "08123456789", "ATK", "1500000", today), Some(file))
  {
    var form := FormData("Siti", "08123456789", "ATK", "1500000", today);
    assert AllDigits("1500000") by { DigitsOfFormatted(); }
    assert !IsBlank("Siti") by { assert !IsJsWhitespace("Siti"[0]); }
    assert !IsBlank("ATK") by { assert !IsJsWhitespace("ATK"[0]); }
    assert WhatsAppError("08123456789") == None by { WhatsAppBoundaries(); }
    assert !BelowMinimum("1500000") by { AmountBelowMinimumIff("1500000"); }
    assert Judge(form, Some(file)).AllPass();
  }

  /** A page whose fields all pass is submitted with no errors, and the
      reset that follows brings back the defaults with the date supplied
      then, no file and no preview, leaving the (empty) errors as they are. */
  method SubmitThenReset(page: ReimbursementForm, later: string) returns (ok: bool)
    requires page.Valid() && AllRulesPass(page.formData, page.imageFile)
    modifies page
    ensures ok && page.Valid()
    ensures !page.isSubmitted && page.formData == Defaults(later)
    ensures page.imageFile == None && page.imagePreview == None && page.errors == map[]
    ensures page.pendingResets == old(page.pendingResets)
  {
    ok := page.HandleSubmit();
    page.ResetTimerFired(later);
  }

  /** Validating twice in a row gives the same verdict and leaves the same
      error map: the validator reads only the fields and the file, which it
      does not change. */
  method ValidateTwice(page: ReimbursementForm) returns (first: bool, second: bool)
    requires page.Valid()
    modifies page`errors
    ensures first == second
    ensures page.errors == FieldErrors(page.formData, page.imageFile)
  {
    first := page.ValidateForm();
    var afterFirst := page.errors;
    second := page.ValidateForm();
    assert page.errors == afterFirst;
  }

  /** A page whose name is blank and whose other fields pass is not
      submitted, and the name's error is the only one. */
  method SubmitWithBlankName(page: ReimbursementForm) returns (ok: bool)
    requires page.Valid() && IsBlank(page.formData.namaLengkap)
    requires Rule(page.formData, page.imageFile, WhatsApp).None?
    requires Rule(page.formData, page.imageFile, Tujuan).None?
    requires Rule(page.formData, page.imageFile, Nominal).None?
    requires Rule(page.formData, page.imageFile, Bukti).None?
    requires Rule(page.formData, page.imageFile, Tanggal).None?
    modifies page
    ensures !ok && page.isSubmitted == old(page.isSubmitted)
    ensures page.errors == map[Key(Nama) := MsgNamaRequired]
  {
    OnlyNameBlank(page.formData, page.imageFile);
    ok := page.HandleSubmit();
    assert Key(Nama) in page.errors;
  }

  /** Typing into the four text inputs and the amount input, the amount
      written with thousands separators: the stored values are the typed
      ones, the amount as digits only, and the date is kept. */
  method TypeSample(page: ReimbursementForm)
    requires page.Valid()
    modifies page`formData, page`errors
    ensures page.Valid()
    ensures page.formData == FormData("Siti", "08123456789", "ATK", "1500000",
                                      old(page.formData.tanggalPengeluaran))
  {
    page.HandleInputChange(NamaInput, "Siti");
    page.HandleInputChange(WhatsAppInput, "08123456789");
    page.HandleInputChange(TujuanInput, "ATK");
    page.HandleAmountChange("1.500.000");
    DigitsOfFormatted();
  }

  /** Filling the form through the handlers: a fresh page given a name, a
      WhatsApp number, a purpose, a formatted amount and a PNG passes every
      rule. */
  method FillSample(today: string) returns (page: ReimbursementForm)
    requires today != ""
    ensures fresh(page) && page.Valid()
    ensures AllRulesPass(page.formData, page.imageFile)
    ensures page.pendingResets == 0
  {
    page := new ReimbursementForm(today);
    TypeSample(page);
    var file := File("nota.png", "image/png", 204800);
    page.HandleFileChange(Some(file));
    SampleIsValid(today, file);
  }
}
