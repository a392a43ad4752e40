/**
 The pure rules of the reimbursement form: the string predicates the field
 validator applies, the digit filter of the amount input, the file-type and
 file-size check, and the error map the validator builds from a snapshot of
 the form.
 */
module FormRules {

  datatype Option<+T> = None | Some(value: T)

  /** The five text fields of the form record, as the component stores them. */
  datatype FormData = FormData(
    namaLengkap: string,
    nomorWhatsApp: string,
    tujuanPengeluaran: string,
    nominalPenggantian: string,
    tanggalPengeluaran: string)

  /** A file chosen in the browser's file picker: its name, the MIME type the
      browser reports for it, and its size in bytes. */
  datatype File = File(name: string, mime: string, size: nat)

  /** The six fields the validator judges; each has a key in the error map. */
  datatype Field = Nama | WhatsApp | Tujuan | Nominal | Bukti | Tanggal

  /** The key of a field in the error map (the input element's name). */
  function Key(f: Field): string
  {
    match f
    case Nama => "namaLengkap"
    case WhatsApp => "nomorWhatsApp"
    case Tujuan => "tujuanPengeluaran"
    case Nominal => "nominalPenggantian"
    case Bukti => "buktiPengeluaran"
    case Tanggal => "tanggalPengeluaran"
  }

  const FieldKeys: set<string> := {Key(Nama), Key(WhatsApp), Key(Tujuan), Key(Nominal), Key(Bukti), Key(Tanggal)}

  // Error messages, as the form shows them.
  const MsgNamaRequired := "Nama lengkap wajib diisi"
  const MsgWhatsAppRequired := "Nomor WhatsApp wajib diisi"
  const MsgWhatsAppFormat := "Format nomor WhatsApp tidak valid (contoh: 08123456789)"
  const MsgTujuanRequired := "Tujuan pengeluaran wajib diisi"
  const MsgNominalRequired := "Nominal penggantian wajib diisi"
  const MsgNominalMinimum := "Nominal minimal Rp 1.000"
  const MsgBuktiRequired := "Bukti pengeluaran wajib diunggah"
  const MsgTanggalRequired := "Tanggal pengeluaran wajib diisi"
  const MsgFileType := "Format file harus JPG, JPEG, atau PNG"
  const MsgFileSize := "Ukuran file maksimal 5MB"

  /** The smallest amount, in whole Rupiah, the validator accepts. */
  const MinimumAmount := 1000

  /** MIME types the file handler accepts. */
  const AllowedTypes: set<string> := {"image/jpeg", "image/jpg", "image/png"}

  /** Largest accepted file, in bytes (5 MiB). */
  const MaxFileSize := 5 * 1024 * 1024

  // ---------------------------------------------------------------------
  // Whitespace and String.prototype.trim
  // ---------------------------------------------------------------------

  /** The characters ECMAScript's trim removes: WhiteSpace (tab, vertical
      tab, form feed, space, no-break space, byte order mark and the other
      space separators) and LineTerminator (LF, CR, U+2028, U+2029). */
  predicate IsJsWhitespace(c: char)
  {
    || c == '\t' || c == '\n' || c == '\U{000B}' || c == '\U{000C}' || c == '\r'
    || c == ' ' || c == '\U{00A0}' || c == '\U{1680}'
    || ('\U{2000}' <= c <= '\U{200A}')
    || c == '\U{2028}' || c == '\U{2029}' || c == '\U{202F}' || c == '\U{205F}'
    || c == '\U{3000}' || c == '\U{FEFF}'
  }

  /** s without its leading whitespace: a suffix of s that does not start
      with whitespace, and everything dropped was whitespace. */
  function TrimStart(s: string): (r: string)
    ensures |r| <= |s| && r == s[|s| - |r|..]
    ensures r != [] ==> !IsJsWhitespace(r[0])
    ensures forall i :: 0 <= i < |s| - |r| ==> IsJsWhitespace(s[i])
  {
    if s != [] && IsJsWhitespace(s[0]) then
      var r := TrimStart(s[1..]);
      assert forall i :: 1 <= i < |s| ==> s[i] == s[1..][i - 1];
      r
    else s
  }

  /** s without its trailing whitespace: a prefix of s that does not end
      with whitespace, and everything dropped was whitespace. */
  function TrimEnd(s: string): (r: string)
    ensures |r| <= |s| && r == s[..|r|]
    ensures r != [] ==> !IsJsWhitespace(r[|r| - 1])
    ensures forall i :: |r| <= i < |s| ==> IsJsWhitespace(s[i])
  {
    if s != [] && IsJsWhitespace(s[|s| - 1]) then TrimEnd(s[..|s| - 1]) else s
  }

  /** String.prototype.trim: neither end of the result is whitespace. */
  function Trim(s: string): (r: string)
    ensures |r| <= |s|
    ensures r != [] ==> !IsJsWhitespace(r[0]) && !IsJsWhitespace(r[|r| - 1])
  {
    TrimEnd(TrimStart(s))
  }

  /** Nothing but whitespace: the values for which the validator's
      "!value.trim()" holds (see TrimEmptyIffBlank). */
  predicate IsBlank(s: string)
  {
    forall i :: 0 <= i < |s| ==> IsJsWhitespace(s[i])
  }

  /** Trimming leaves the empty string exactly when the value is blank. */
  lemma TrimEmptyIffBlank(s: string)
    ensures Trim(s) == "" <==> IsBlank(s)
  {
  }

  // ---------------------------------------------------------------------
  // Digits: the regex class \d and the amount input's replace(/\D/g, "")
  // ---------------------------------------------------------------------

  /** The regex class \d, which without the u flag is exactly '0'..'9'. */
  predicate IsDigit(c: char)
  {
    '0' <= c <= '9'
  }

  predicate AllDigits(s: string)
  {
    forall i :: 0 <= i < |s| ==> IsDigit(s[i])
  }

  /** The amount input's filter: the digit characters of s, in order. */
  function DigitsOf(s: string): (r: string)
    ensures AllDigits(r)
    ensures |r| <= |s|
  {
    if s == [] then []
    else (if IsDigit(s[0]) then [s[0]] else []) + DigitsOf(s[1..])
  }

  /** Filtering distributes over concatenation, so separators inserted
      anywhere in a digit string are removed again and nothing else moves. */
  lemma {:induction false} DigitsOfConcat(a: string, b: string)
    ensures DigitsOf(a + b) == DigitsOf(a) + DigitsOf(b)
  {
    if a == [] {
      assert a + b == b;
    } else {
      assert (a + b)[1..] == a[1..] + b;
      DigitsOfConcat(a[1..], b);
    }
  }

  /** The filter leaves a string unchanged exactly when it is all digits. */
  lemma {:induction false} DigitsOfFixedIff(s: string)
    ensures DigitsOf(s) == s <==> AllDigits(s)
  {
    if s != [] && AllDigits(s) {
      DigitsOfFixedIff(s[1..]);
      assert [s[0]] + s[1..] == s;
    }
  }

  /** Filtering twice is filtering once. */
  lemma DigitsOfIdempotent(s: string)
    ensures DigitsOf(DigitsOf(s)) == DigitsOf(s)
  {
    DigitsOfFixedIff(DigitsOf(s));
  }

  /** A thousands separator after a run of digits is dropped and the digits
      are kept. */
  lemma DigitsOfSeparated(a: string, b: string)
    requires AllDigits(a)
    ensures DigitsOf(a + "." + b) == a + DigitsOf(b)
  {
    calc {
      DigitsOf(a + "." + b);
    == { DigitsOfConcat(a + ".", b); }
      DigitsOf(a + ".") + DigitsOf(b);
    == { DigitsOfConcat(a, "."); }
      DigitsOf(a) + DigitsOf(".") + DigitsOf(b);
    == { DigitsOfFixedIff(a); DigitsOfChar('.'); assert ['.'] == "."; }
      a + [] + DigitsOf(b);
    }
  }

  /** The thousands separators a formatted amount shows are dropped again. */
  lemma DigitsOfFormatted()
    ensures DigitsOf("1.500.000") == "1500000"
  {
    calc {
      DigitsOf("1.500.000");
    == { assert "1.500.000" == "1" + "." + "500.000"; }
      DigitsOf("1" + "." + "500.000");
    == { DigitsOfSeparated("1", "500.000"); }
      "1" + DigitsOf("500.000");
    == { assert "500.000" == "500" + "." + "000"; DigitsOfSeparated("500", "000"); }
      "1" + "500" + DigitsOf("000");
    == { DigitsOfFixedIff("000"); }
      "1500000";
    }
  }

  /** A character that is not a digit disappears; a digit is kept. */
  lemma DigitsOfChar(c: char)
    ensures DigitsOf([c]) == if IsDigit(c) then [c] else []
  {
    assert [c][1..] == [];
  }

  // ---------------------------------------------------------------------
  // The WhatsApp number: /^08\d{8,11}$/
  // ---------------------------------------------------------------------

  /** The regex /^08\d{8,11}$/ decided directly: no m flag, so ^ and $ are
      the ends of the whole string. */
  predicate MatchesWhatsAppPattern(s: string)
  {
    10 <= |s| <= 13 && s[0] == '0' && s[1] == '8' && AllDigits(s[2..])
  }

  /** The pattern read as a language: the literal "08" followed by eight to
      eleven digits. */
  ghost predicate InWhatsAppLanguage(s: string)
  {
    exists d: string :: s == "08" + d && 8 <= |d| <= 11 && AllDigits(d)
  }

  lemma WhatsAppPatternIff(s: string)
    ensures MatchesWhatsAppPattern(s) <==> InWhatsAppLanguage(s)
  {
    if MatchesWhatsAppPattern(s) {
      assert s == "08" + s[2..];
    }
    if InWhatsAppLanguage(s) {
      var d: string :| s == "08" + d && 8 <= |d| <= 11 && AllDigits(d);
      assert s[2..] == d;
    }
  }

  /** "08123456789" passes; "0812345" is too short; "+6281234567" does not
      start with "08"; a passing number with a trailing space fails, since the
      pattern is tested on the untrimmed value; spaces alone are missing. */
  lemma WhatsAppBoundaries()
    ensures WhatsAppError("08123456789") == None
    ensures WhatsAppError("0812345") == Some(MsgWhatsAppFormat)
    ensures WhatsAppError("+6281234567") == Some(MsgWhatsAppFormat)
    ensures WhatsAppError("08123456789 ") == Some(MsgWhatsAppFormat)
    ensures WhatsAppError("   ") == Some(MsgWhatsAppRequired)
  {
    assert !IsJsWhitespace("08123456789"[0]);
    assert !IsJsWhitespace("0812345"[0]);
    assert !IsJsWhitespace("+6281234567"[0]);
    assert !IsJsWhitespace("08123456789 "[0]);
    assert !IsDigit("08123456789 "[2..][9]);
  }

  /** A passing number is all digits, begins with "08" and has 10 to 13
      characters. */
  lemma WhatsAppPatternShape(s: string)
    requires MatchesWhatsAppPattern(s)
    ensures AllDigits(s) && s[..2] == "08" && 10 <= |s| <= 13
  {
    forall i | 0 <= i < |s| ensures IsDigit(s[i]) {
      if i >= 2 {
        assert s[i] == s[2..][i - 2];
      }
    }
  }

  // ---------------------------------------------------------------------
  // The amount: Number(value) on the stored digit string
  // ---------------------------------------------------------------------

  function DigitValue(c: char): (d: nat)
    requires IsDigit(c)
    ensures d < 10
  {
    (c as int) - ('0' as int)
  }

  /** The exact value of a string of decimal digits (leading zeros
      allowed): what Number(s) denotes before it is rounded to a double. */
  function DecimalValue(s: string): nat
    requires AllDigits(s)
  {
    if s == [] then 0 else 10 * DecimalValue(s[..|s| - 1]) + DigitValue(s[|s| - 1])
  }

  function Pow10(k: nat): (p: nat)
    ensures p >= 1
  {
    if k == 0 then 1 else 10 * Pow10(k - 1)
  }

  /** s without its leading '0' characters. */
  function StripLeadingZeros(s: string): (r: string)
    ensures |r| <= |s| && r == s[|s| - |r|..]
    ensures r != [] ==> r[0] != '0'
    ensures forall i :: 0 <= i < |s| - |r| ==> s[i] == '0'
  {
    if s != [] && s[0] == '0' then StripLeadingZeros(s[1..]) else s
  }

  /** A digit string of length k denotes a number below 10^k, and at least
      10^(k-1) when it does not start with '0'. */
  lemma {:induction false} DecimalValueBounds(s: string)
    requires AllDigits(s)
    ensures DecimalValue(s) < Pow10(|s|)
    ensures s != [] && s[0] != '0' ==> Pow10(|s| - 1) <= DecimalValue(s)
  {
    if s != [] {
      var p := s[..|s| - 1];
      assert AllDigits(p);
      DecimalValueBounds(p);
      if p != [] {
        assert p[0] == s[0];
      }
    }
  }

  /** Leading zeros do not change the value: Number("01000") is 1000. */
  lemma {:induction false} LeadingZeroIgnored(s: string)
    requires AllDigits(s)
    ensures AllDigits("0" + s) && DecimalValue("0" + s) == DecimalValue(s)
  {
    var z := "0" + s;
    if s != [] {
      assert z[..|z| - 1] == "0" + s[..|s| - 1];
      LeadingZeroIgnored(s[..|s| - 1]);
    }
  }

  lemma {:induction false} StripLeadingZerosValue(s: string)
    requires AllDigits(s)
    ensures AllDigits(StripLeadingZeros(s))
    ensures DecimalValue(StripLeadingZeros(s)) == DecimalValue(s)
  {
    if s != [] && s[0] == '0' {
      StripLeadingZerosValue(s[1..]);
      assert s == "0" + s[1..];
      LeadingZeroIgnored(s[1..]);
    }
  }

  /** The amount is below the minimum exactly when, leading zeros aside, it
      has at most three digits. */
  lemma AmountBelowMinimumIff(s: string)
    requires AllDigits(s)
    ensures DecimalValue(s) < MinimumAmount <==> |StripLeadingZeros(s)| <= 3
  {
    var r := StripLeadingZeros(s);
    StripLeadingZerosValue(s);
    DecimalValueBounds(r);
    assert Pow10(3) == 1000;
    if |r| > 3 {
      PowMonotone(3, |r| - 1);
    } else {
      PowMonotone(|r|, 3);
    }
  }

  lemma {:induction false} PowMonotone(j: nat, k: nat)
    requires j <= k
    ensures Pow10(j) <= Pow10(k)
  {
    if j < k {
      PowMonotone(j, k - 1);
    }
  }

  // ---------------------------------------------------------------------
  // Per-field rules and the validator's error map
  // ---------------------------------------------------------------------

  /** Rule for namaLengkap and tujuanPengeluaran: required, non-blank. */
  function RequiredTextError(s: string, msg: string): Option<string>
  {
    if IsBlank(s) then Some(msg) else None
  }

  /** Rule for nomorWhatsApp: required after trimming; the pattern is tested
      on the untrimmed value. */
  function WhatsAppError(s: string): Option<string>
  {
    if IsBlank(s) then Some(MsgWhatsAppRequired)
    else if !MatchesWhatsAppPattern(s) then Some(MsgWhatsAppFormat)
    else None
  }

  /** The two text rules as the validator writes them, on the trimmed value:
      a rule reports "required" exactly when trim() leaves nothing. */
  lemma RulesFollowTrim(s: string, msg: string)
    ensures RequiredTextError(s, msg) == if Trim(s) == "" then Some(msg) else None
    ensures WhatsAppError(s) ==
      if Trim(s) == "" then Some(MsgWhatsAppRequired)
      else if !MatchesWhatsAppPattern(s) then Some(MsgWhatsAppFormat)
      else None
  {
    TrimEmptyIffBlank(s);
  }

  /** Number(amount) < 1000, on the stored digit string. */
  predicate BelowMinimum(amount: string)
    requires AllDigits(amount)
  {
    DecimalValue(amount) < MinimumAmount
  }

  /** Rule for nominalPenggantian: the emptiness test is on the string, so
      "0" is present and falls to the minimum test. */
  function AmountError(s: string): Option<string>
    requires AllDigits(s)
  {
    if s == "" then Some(MsgNominalRequired)
    else if BelowMinimum(s) then Some(MsgNominalMinimum)
    else None
  }

  /** "" is reported as missing; "0" and "999" are present but below the
      minimum; "1000" and "01000" pass. */
  lemma AmountBoundaries()
    ensures AmountError("") == Some(MsgNominalRequired)
    ensures AmountError("0") == Some(MsgNominalMinimum)
    ensures AmountError("999") == Some(MsgNominalMinimum)
    ensures AmountError("1000") == None
    ensures AmountError("01000") == None
  {
    assert DecimalValue("9") == 9;
    assert DecimalValue("99") == 99;
    assert DecimalValue("999") == 999;
    assert DecimalValue("1") == 1;
    assert DecimalValue("10") == 10;
    assert DecimalValue("100") == 100;
    assert "1000"[..3] == "100";
    assert DecimalValue("1000") == 1000;
    LeadingZeroIgnored("1000");
    assert "0" + "1000" == "01000";
  }

  /** Rule for buktiPengeluaran: a file must have been accepted. */
  function ProofError(file: Option<File>): Option<string>
  {
    if file.None? then Some(MsgBuktiRequired) else None
  }

  /** Rule for tanggalPengeluaran: the date string must not be empty. */
  function DateError(s: string): Option<string>
  {
    if s == "" then Some(MsgTanggalRequired) else None
  }

  /** Different fields have different keys. */
  lemma KeysDistinct()
    ensures forall f: Field, g: Field :: Key(f) == Key(g) ==> f == g
  {
    forall f: Field, g: Field | f != g ensures Key(f) != Key(g) {
      var a, b := Key(f), Key(g);
      assert |a| != |b| || a[0] != b[0];
    }
  }

  /** The rule of field f, applied on its own. */
  function Rule(form: FormData, file: Option<File>, f: Field): Option<string>
    requires AllDigits(form.nominalPenggantian)
  {
    match f
    case Nama => RequiredTextError(form.namaLengkap, MsgNamaRequired)
    case WhatsApp => WhatsAppError(form.nomorWhatsApp)
    case Tujuan => RequiredTextError(form.tujuanPengeluaran, MsgTujuanRequired)
    case Nominal => AmountError(form.nominalPenggantian)
    case Bukti => ProofError(file)
    case Tanggal => DateError(form.tanggalPengeluaran)
  }

  /** What each of the six rules decided: None for a pass, the message for
      a failure. */
  datatype Verdicts = Verdicts(
    nama: Option<string>, whatsApp: Option<string>, tujuan: Option<string>,
    nominal: Option<string>, bukti: Option<string>, tanggal: Option<string>)
  {
    function Of(f: Field): Option<string>
    {
      match f
      case Nama => nama
      case WhatsApp => whatsApp
      case Tujuan => tujuan
      case Nominal => nominal
      case Bukti => bukti
      case Tanggal => tanggal
    }

    predicate AllPass()
    {
      nama.None? && whatsApp.None? && tujuan.None? && nominal.None? && bukti.None? && tanggal.None?
    }
  }

  /** Every rule applied to the same snapshot of the form. */
  function Judge(form: FormData, file: Option<File>): Verdicts
    requires AllDigits(form.nominalPenggantian)
  {
    Verdicts(Rule(form, file, Nama), Rule(form, file, WhatsApp), Rule(form, file, Tujuan),
             Rule(form, file, Nominal), Rule(form, file, Bukti), Rule(form, file, Tanggal))
  }

  /** m with an entry for f added when f's verdict is a failure. */
  function Record(m: map<string, string>, f: Field, e: Option<string>): map<string, string>
  {
    if e.Some? then m[Key(f) := e.value] else m
  }

  /** The map built by recording, one field after the other, each verdict. */
  function ErrorMap(v: Verdicts): map<string, string>
  {
    var m0: map<string, string> := map[];
    var m1 := Record(m0, Nama, v.nama);
    var m2 := Record(m1, WhatsApp, v.whatsApp);
    var m3 := Record(m2, Tujuan, v.tujuan);
    var m4 := Record(m3, Nominal, v.nominal);
    var m5 := Record(m4, Bukti, v.bukti);
    Record(m5, Tanggal, v.tanggal)
  }

  /** Recording never lets one field's verdict mask another's: the key of f
      is present iff f failed, holding f's message, and no other key
      appears. */
  lemma ErrorMapIndependent(v: Verdicts, f: Field)
    ensures ErrorMap(v).Keys <= FieldKeys
    ensures Key(f) in ErrorMap(v) <==> v.Of(f).Some?
    ensures Key(f) in ErrorMap(v) ==> ErrorMap(v)[Key(f)] == v.Of(f).value
  {
    KeysDistinct();
  }

  /** The map is empty exactly when every verdict is a pass. */
  lemma ErrorMapEmptyIff(v: Verdicts)
    ensures |ErrorMap(v)| == 0 <==> v.AllPass()
  {
    if !v.AllPass() {
      var f :=
        if v.nama.Some? then Nama
        else if v.whatsApp.Some? then WhatsApp
        else if v.tujuan.Some? then Tujuan
        else if v.nominal.Some? then Nominal
        else if v.bukti.Some? then Bukti
        else Tanggal;
      ErrorMapIndependent(v, f);
      assert Key(f) in ErrorMap(v).Keys;
    }
  }

  /** The error map the validator builds from a snapshot of the form. */
  function FieldErrors(form: FormData, file: Option<File>): map<string, string>
    requires AllDigits(form.nominalPenggantian)
  {
    ErrorMap(Judge(form, file))
  }

  /** Unfolds FieldErrors into the six recording steps, so a proof that
      follows the validator step by step can match them one at a time. */
  lemma FieldErrorsSteps(form: FormData, file: Option<File>)
    requires AllDigits(form.nominalPenggantian)
    ensures FieldErrors(form, file) ==
      var m1 := Record(map[], Nama, RequiredTextError(form.namaLengkap, MsgNamaRequired));
      var m2 := Record(m1, WhatsApp, WhatsAppError(form.nomorWhatsApp));
      var m3 := Record(m2, Tujuan, RequiredTextError(form.tujuanPengeluaran, MsgTujuanRequired));
      var m4 := Record(m3, Nominal, AmountError(form.nominalPenggantian));
      var m5 := Record(m4, Bukti, ProofError(file));
      Record(m5, Tanggal, DateError(form.tanggalPengeluaran))
  {
  }

  /** Exactly one entry per failing field: the key of f is in the map iff
      f's rule fails, with that rule's message, and no other key appears. */
  lemma FieldErrorsIndependent(form: FormData, file: Option<File>, f: Field)
    requires AllDigits(form.nominalPenggantian)
    ensures FieldErrors(form, file).Keys <= FieldKeys
    ensures Key(f) in FieldErrors(form, file) <==> Rule(form, file, f).Some?
    ensures Key(f) in FieldErrors(form, file) ==> FieldErrors(form, file)[Key(f)] == Rule(form, file, f).value
  {
    ErrorMapIndependent(Judge(form, file), f);
  }

  /** All six rules pass. */
  predicate AllRulesPass(form: FormData, file: Option<File>)
    requires AllDigits(form.nominalPenggantian)
  {
    Judge(form, file).AllPass()
  }

  /** The form is valid (the map has no keys) exactly when every rule passes. */
  lemma ValidIffAllRulesPass(form: FormData, file: Option<File>)
    requires AllDigits(form.nominalPenggantian)
    ensures |FieldErrors(form, file)| == 0 <==> AllRulesPass(form, file)
  {
    ErrorMapEmptyIff(Judge(form, file));
  }

  /** What the rules mean for a form that passes them all: a non-blank name
      and purpose, a WhatsApp number that is all digits, starts with "08" and
      has 10 to 13 characters, an amount of at least 1000, an accepted file
      and a date. */
  lemma AllRulesPassMeans(form: FormData, file: Option<File>)
    requires AllDigits(form.nominalPenggantian)
    ensures AllRulesPass(form, file) <==>
      && !IsBlank(form.namaLengkap)
      && !IsBlank(form.nomorWhatsApp) && MatchesWhatsAppPattern(form.nomorWhatsApp)
      && !IsBlank(form.tujuanPengeluaran)
      && form.nominalPenggantian != "" && DecimalValue(form.nominalPenggantian) >= MinimumAmount
      && file.Some?
      && form.tanggalPengeluaran != ""
  {
  }

  /** A blank name with every other field valid gives exactly one entry. */
  lemma OnlyNameBlank(form: FormData, file: Option<File>)
    requires AllDigits(form.nominalPenggantian)
    requires IsBlank(form.namaLengkap)
    requires Rule(form, file, WhatsApp).None? && Rule(form, file, Tujuan).None?
    requires Rule(form, file, Nominal).None? && Rule(form, file, Bukti).None?
    requires Rule(form, file, Tanggal).None?
    ensures FieldErrors(form, file) == map[Key(Nama) := MsgNamaRequired]
  {
    ErrorMapIndependent(Judge(form, file), Nama);
  }

  // ---------------------------------------------------------------------
  // File acceptance
  // ---------------------------------------------------------------------

  /** Why the file handler rejects a file, or None when it accepts it. The
      type is checked first, so a file with a wrong type and a wrong size
      reports the type. */
  function FileRejection(f: File): Option<string>
  {
    if f.mime !in AllowedTypes then Some(MsgFileType)
    else if f.size > MaxFileSize then Some(MsgFileSize)
    else None
  }

  /** A PNG of exactly 5242880 bytes is accepted, one byte more is rejected
      for its size, and a PDF is rejected for its type whatever its size. */
  lemma FileBoundaries(name: string, n: nat)
    ensures FileRejection(File(name, "image/png", 5242880)) == None
    ensures FileRejection(File(name, "image/png", 5242881)) == Some(MsgFileSize)
    ensures FileRejection(File(name, "application/pdf", n)) == Some(MsgFileType)
  {
    assert "application/pdf" != "image/jpeg" && "application/pdf" != "image/jpg";
    assert "application/pdf" != "image/png";
  }

  /** A file is accepted exactly when its type is JPEG, JPG or PNG and it
      holds at most 5242880 bytes; a rejection names the first failing check. */
  lemma FileAcceptedIff(f: File)
    ensures FileRejection(f).None? <==> f.mime in AllowedTypes && f.size <= 5242880
    ensures FileRejection(f) == Some(MsgFileType) <==> f.mime !in AllowedTypes
    ensures FileRejection(f) == Some(MsgFileSize) <==> f.mime in AllowedTypes && f.size > 5242880
  {
  }
}
