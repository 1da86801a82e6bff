/**
 * The verification page of src/pages/Index.tsx as a state machine: step 1
 * collects the person's data and sends a session code, step 2 confirms the
 * code and the evidence, step 3 shows the issued lookup code. The admin
 * tab looks a code up in the same in-memory store.
 *
 * Each `Press...` method is a click on one button: the click does nothing
 * when the button is not rendered or is disabled, and otherwise runs the
 * button's handler.
 */
module Flow {
  import opened Wrappers
  import opened Ascii
  import opened Codes
  import opened Records

  /** The `formData` state of the page. */
  datatype Form = Form(
    name: string,
    age: string,
    contact: string,
    contactType: ContactType,
    company: string,
    verificationCode: string,
    photo: Option<Photo>,
    movieName: string,
    movieDate: string,
    movieTime: string)

  /** The form as the page starts and as "new verification" leaves it. */
  const EmptyForm := Form("", "", "", Email, "", "", None, "", "", "")

  /** The `company` value of the film-company flow. */
  const Films := "films"

  /** Both code inputs carry `maxLength={6}`. */
  const CodeInputLength := 6

  /** The text fields of the form that the user types into. */
  datatype Field = Name | Age | Contact | Company | MovieName | MovieDate | MovieTime

  function WithField(f: Form, field: Field, value: string): Form {
    match field
    case Name => f.(name := value)
    case Age => f.(age := value)
    case Contact => f.(contact := value)
    case Company => f.(company := value)
    case MovieName => f.(movieName := value)
    case MovieDate => f.(movieDate := value)
    case MovieTime => f.(movieTime := value)
  }

  /** What the page sends to the code-delivery endpoint. */
  datatype CodeRequest = CodeRequest(contactType: ContactType, contact: string, code: string)

  /** How the delivery request ended, as the page sees it. */
  datatype Delivery =
    | Delivered                           // `response.ok && result.success`
    | Rejected(error: Option<string>)     // any other decoded reply; `result.error` if it had one
    | Unreachable                         // `fetch` or `response.json()` threw

  /** `result.error || <built-in text>`: an absent or empty error gives the built-in text (None). */
  function ShownError(error: Option<string>): (shown: Option<string>)
    ensures shown.Some? <==> error.Some? && error.value != ""
    ensures shown.Some? ==> shown == error
  {
    if error.Some? && error.value != "" then error else None
  }

  /** The toast the page shows after a click. */
  datatype Toast =
    | PhotoUploaded
    | CodeSent(code: string)
    | SendFailed(error: Option<string>)   // None: the built-in "could not send" text
    | NetworkError
    | WrongCode
    | Completed(code: string)
    | Found
    | NotFound

  /** The enable condition of the "send code" button (line 311). */
  predicate CanSendCode(f: Form) {
    f.name != "" && f.age != "" && f.contact != "" && f.company != ""
  }

  /** The film-company flow asks for the screening details. */
  predicate MovieDetailsComplete(f: Form) {
    f.company == Films ==> f.movieName != "" && f.movieDate != "" && f.movieTime != ""
  }

  /** The enable condition of the "complete verification" button (line 418). */
  predicate CanSubmit(f: Form, enteredCode: string) {
    f.photo.Some? && enteredCode != "" && |enteredCode| == 6 && MovieDetailsComplete(f)
  }

  /** The enable condition of the admin "search" button (line 503). */
  predicate CanCheck(checkCode: string) {
    |checkCode| == 6
  }

  /** A record as the page stores it: no photo, a lookup-shaped code. */
  predicate IsIssued(r: Record) {
    r.photo.None? && |r.verificationCode| <= 6 && NoLower(r.verificationCode)
  }

  /** The record carries the form's data verbatim. */
  predicate Reflects(r: Record, f: Form) {
    r.name == f.name && r.age == f.age && r.contact == f.contact &&
    r.contactType == f.contactType && r.company == f.company &&
    r.movieName == f.movieName && r.movieDate == f.movieDate && r.movieTime == f.movieTime
  }

  /** `newVerification` of `handleSubmitVerification`. */
  function NewRecord(f: Form, code: string): (r: Record)
    ensures Reflects(r, f) && HasCode(r, code) && r.photo.None?
  {
    Record(f.name, f.age, f.contact, f.contactType, f.company, code, None,
           f.movieName, f.movieDate, f.movieTime)
  }

  /** The state of one mounted page. */
  class VerificationPage {
    var step: int
    var form: Form
    var enteredCode: string
    var checkCode: string
    var verifiedData: Option<Record>
    var verifications: seq<Record>

    ghost predicate Valid()
      reads this
    {
      1 <= step <= 3 &&
      |enteredCode| <= CodeInputLength && |checkCode| <= CodeInputLength &&
      (step == 2 ==> IsSessionCode(form.verificationCode)) &&
      (step == 3 ==>
         verifications != [] &&
         form.verificationCode == verifications[|verifications| - 1].verificationCode) &&
      (forall i :: 0 <= i < |verifications| ==> IsIssued(verifications[i])) &&
      (verifiedData.Some? ==> verifiedData.value in verifications)
    }

    /** The page as React first renders it. */
    constructor ()
      ensures Valid()
      ensures step == 1 && form == EmptyForm && enteredCode == "" && checkCode == ""
      ensures verifiedData == None && verifications == []
    {
      step := 1;
      form := EmptyForm;
      enteredCode := "";
      checkCode := "";
      verifiedData := None;
      verifications := [];
    }

    /** Typing into one of the text fields. */
    method Edit(field: Field, value: string)
      requires Valid()
      modifies this
      ensures Valid()
      ensures form == WithField(old(form), field, value)
      ensures step == old(step) && enteredCode == old(enteredCode) && checkCode == old(checkCode)
      ensures verifiedData == old(verifiedData) && verifications == old(verifications)
    {
      form := WithField(form, field, value);
    }

    /** Choosing e-mail or phone in the contact-type select. */
    method SelectContactType(t: ContactType)
      requires Valid()
      modifies this
      ensures Valid()
      ensures form == old(form).(contactType := t)
      ensures step == old(step) && enteredCode == old(enteredCode) && checkCode == old(checkCode)
      ensures verifiedData == old(verifiedData) && verifications == old(verifications)
    {
      form := form.(contactType := t);
    }

    /** `handlePhotoUpload`: a chosen file replaces the photo; an empty choice changes nothing. */
    method UploadPhoto(file: Option<Photo>) returns (toast: Option<Toast>)
      requires Valid()
      modifies this
      ensures Valid()
      ensures form == if file.Some? then old(form).(photo := file) else old(form)
      ensures toast == if file.Some? then Some(PhotoUploaded) else None
      ensures step == old(step) && enteredCode == old(enteredCode) && checkCode == old(checkCode)
      ensures verifiedData == old(verifiedData) && verifications == old(verifications)
    {
      if file.Some? {
        form := form.(photo := file);
        return Some(PhotoUploaded);
      }
      return None;
    }

    /** Typing the received code; the input keeps at most six characters. */
    method TypeEnteredCode(s: string)
      requires Valid()
      modifies this
      ensures Valid()
      ensures enteredCode == if |s| <= CodeInputLength then s else s[..CodeInputLength]
      ensures step == old(step) && form == old(form) && checkCode == old(checkCode)
      ensures verifiedData == old(verifiedData) && verifications == old(verifications)
    {
      enteredCode := if |s| <= CodeInputLength then s else s[..CodeInputLength];
    }

    /** Typing the code to look up; the input keeps at most six characters. */
    method TypeCheckCode(s: string)
      requires Valid()
      modifies this
      ensures Valid()
      ensures checkCode == if |s| <= CodeInputLength then s else s[..CodeInputLength]
      ensures step == old(step) && form == old(form) && enteredCode == old(enteredCode)
      ensures verifiedData == old(verifiedData) && verifications == old(verifications)
    {
      checkCode := if |s| <= CodeInputLength then s else s[..CodeInputLength];
    }

    /**
     * The "send code" button of step 1 (`handleContactVerification`).
     * `draw` is the random part of the session code and `delivery` the
     * outcome of posting `request` to the delivery endpoint.
     */
    method PressSendCode(draw: nat, delivery: Delivery) returns (request: Option<CodeRequest>, toast: Option<Toast>)
      requires Valid()
      requires draw < 900000
      modifies this
      ensures Valid()
      ensures verifications == old(verifications) && verifiedData == old(verifiedData)
      ensures enteredCode == old(enteredCode) && checkCode == old(checkCode)
      ensures !(old(step) == 1 && CanSendCode(old(form))) ==>
        step == old(step) && form == old(form) && request == None && toast == None
      ensures old(step) == 1 && CanSendCode(old(form)) ==>
        request == Some(CodeRequest(old(form).contactType, old(form).contact, SessionCode(draw)))
      ensures old(step) == 1 && CanSendCode(old(form)) && delivery.Delivered? ==>
        step == 2 && form == old(form).(verificationCode := SessionCode(draw)) &&
        toast == Some(CodeSent(SessionCode(draw)))
      ensures old(step) == 1 && CanSendCode(old(form)) && !delivery.Delivered? ==>
        step == 1 && form == old(form) &&
        toast == Some(if delivery.Unreachable? then NetworkError else SendFailed(ShownError(delivery.error)))
    {
      if !(step == 1 && CanSendCode(form)) {
        return None, None;
      }
      var code := SessionCode(draw);
      request := Some(CodeRequest(form.contactType, form.contact, code));
      match delivery
      case Delivered =>
        form := form.(verificationCode := code);
        step := 2;
        toast := Some(CodeSent(code));
      case Rejected(error) =>
        toast := Some(SendFailed(ShownError(error)));
      case Unreachable =>
        toast := Some(NetworkError);
    }

    /**
     * The "complete verification" button of step 2
     * (`handleSubmitVerification`). `raw` is the base-36 rendering of the
     * random fraction the lookup code is cut from.
     */
    method PressSubmit(raw: string) returns (toast: Option<Toast>)
      requires Valid()
      modifies this
      ensures Valid()
      ensures enteredCode == old(enteredCode) && checkCode == old(checkCode) && verifiedData == old(verifiedData)
      ensures !(old(step) == 2 && CanSubmit(old(form), old(enteredCode))) ==>
        step == old(step) && form == old(form) && verifications == old(verifications) && toast == None
      ensures old(step) == 2 && CanSubmit(old(form), old(enteredCode)) && old(enteredCode) != old(form).verificationCode ==>
        step == 2 && form == old(form) && verifications == old(verifications) && toast == Some(WrongCode)
      ensures old(step) == 2 && CanSubmit(old(form), old(enteredCode)) && old(enteredCode) == old(form).verificationCode ==>
        step == 3 &&
        verifications == old(verifications) + [NewRecord(old(form), LookupCode(raw))] &&
        form == old(form).(verificationCode := LookupCode(raw)) &&
        toast == Some(Completed(LookupCode(raw)))
    {
      if !(step == 2 && CanSubmit(form, enteredCode)) {
        return None;
      }
      if enteredCode != form.verificationCode {
        return Some(WrongCode);
      }
      var code := LookupCode(raw);
      verifications := verifications + [NewRecord(form, code)];
      form := form.(verificationCode := code);
      step := 3;
      toast := Some(Completed(code));
    }

    /** The "new verification" button of step 3: clears the form, keeps the store. */
    method PressNewVerification()
      requires Valid()
      modifies this
      ensures Valid()
      ensures verifications == old(verifications) && verifiedData == old(verifiedData) && checkCode == old(checkCode)
      ensures old(step) == 3 ==> step == 1 && enteredCode == "" && form == EmptyForm
      ensures old(step) != 3 ==> step == old(step) && enteredCode == old(enteredCode) && form == old(form)
    {
      if step == 3 {
        step := 1;
        enteredCode := "";
        form := EmptyForm;
      }
    }

    /** The admin "search" button (`handleCheckCode`): the first record with the upper-cased code. */
    method PressCheck() returns (toast: Option<Toast>)
      requires Valid()
      modifies this
      ensures Valid()
      ensures step == old(step) && form == old(form) && enteredCode == old(enteredCode)
      ensures checkCode == old(checkCode) && verifications == old(verifications)
      ensures !CanCheck(checkCode) ==> verifiedData == old(verifiedData) && toast == None
      ensures CanCheck(checkCode) && Find(verifications, Upper(checkCode)).Some? ==>
        verifiedData == Find(verifications, Upper(checkCode)) && toast == Some(Found)
      ensures CanCheck(checkCode) && Find(verifications, Upper(checkCode)).None? ==>
        verifiedData == old(verifiedData) && toast == Some(NotFound)
    {
      if !CanCheck(checkCode) {
        return None;
      }
      var found := FindFirst(verifications, Upper(checkCode));
      if found.Some? {
        verifiedData := found;
        toast := Some(Found);
      } else {
        toast := Some(NotFound);
      }
    }

    /** The admin "check another code" button, shown while a record is displayed. */
    method PressCheckAnother()
      requires Valid()
      modifies this
      ensures Valid()
      ensures step == old(step) && form == old(form) && enteredCode == old(enteredCode)
      ensures verifications == old(verifications)
      ensures old(verifiedData).Some? ==> verifiedData == None && checkCode == ""
      ensures old(verifiedData).None? ==> verifiedData == None && checkCode == old(checkCode)
    {
      if verifiedData.Some? {
        verifiedData := None;
        checkCode := "";
      }
    }
  }

  /**
   * At step 2 the page holds a six-character session code, so the length
   * test of the submit button adds nothing to the code comparison: the
   * submission completes exactly when the code matches, a photo is present
   * and, for the film company, the screening details are filled in.
   */
  lemma SubmitCompletesIff(p: VerificationPage)
    requires p.Valid() && p.step == 2
    ensures (CanSubmit(p.form, p.enteredCode) && p.enteredCode == p.form.verificationCode) <==>
      (p.enteredCode == p.form.verificationCode && p.form.photo.Some? && MovieDetailsComplete(p.form))
  {
  }

  /**
   * A search enabled by the admin button only ever shows a record whose
   * code has six characters: a shorter lookup code (cut from a short
   * base-36 rendering) can be stored but never found.
   */
  lemma {:induction false} ShortCodesUnreachable(records: seq<Record>, checkCode: string)
    requires CanCheck(checkCode)
    ensures Find(records, Upper(checkCode)).Some? ==>
      |Find(records, Upper(checkCode)).value.verificationCode| == 6
  {
  }

  /**
   * The record appended by a completed submission is what a later search
   * for its code shows, provided no earlier record carries the same code
   * (otherwise the earlier one shadows it).
   */
  lemma {:induction false} IssuedRecordIsFound(records: seq<Record>, f: Form, raw: string, checkCode: string)
    requires forall i :: 0 <= i < |records| ==> !HasCode(records[i], LookupCode(raw))
    requires CanCheck(checkCode) && Upper(checkCode) == LookupCode(raw)
    ensures Find(records + [NewRecord(f, LookupCode(raw))], Upper(checkCode)) == Some(NewRecord(f, LookupCode(raw)))
  {
    FindAppend(records, NewRecord(f, LookupCode(raw)), LookupCode(raw));
  }

  /**
   * A search ignores the case of what was typed: two queries that differ
   * only in letter case show the same record.
   */
  lemma SearchIgnoresCase(records: seq<Record>, q1: string, q2: string)
    requires |q1| == |q2|
    requires forall i :: 0 <= i < |q1| ==> q1[i] == q2[i] || UpperChar(q1[i]) == q2[i] || q1[i] == UpperChar(q2[i])
    ensures Find(records, Upper(q1)) == Find(records, Upper(q2))
  {
    UpperIgnoresCase(q1, q2);
  }

  /** The draw that yields the walk-through's session code. */
  lemma SessionCode482913()
    ensures SessionCode(382913) == "482913"
  {
  }

  /**
   * The retail walk-through: Ivan, 25, a@b.com, retail; the code 482913 is
   * delivered and typed back, a photo is attached, and the issued code is
   * looked up in lower case. The search shows exactly the submitted data,
   * with no movie details and no photo.
   */
  method RetailWalkthrough(raw: string) returns (shown: Option<Record>)
    requires |raw| >= 8
    ensures shown == Some(Record("Ivan", "25", "a@b.com", Email, "retail", LookupCode(raw), None, "", "", ""))
  {
    var page := new VerificationPage();
    page.Edit(Name, "Ivan");
    page.Edit(Age, "25");
    page.Edit(Contact, "a@b.com");
    page.Edit(Company, "retail");
    ghost var filled := Form("Ivan", "25", "a@b.com", Email, "retail", "", None, "", "", "");
    assert page.form == filled && page.step == 1 && CanSendCode(filled);
    var request, sent := page.PressSendCode(382913, Delivered);
    var session := page.form.verificationCode;
    SessionCode482913();
    assert page.step == 2 && session == "482913";
    page.TypeEnteredCode("482913");
    var uploaded := page.UploadPhoto(Some(Photo("face.jpg")));
    ghost var confirmed := page.form;
    assert confirmed == filled.(verificationCode := session, photo := Some(Photo("face.jpg")));
    assert CanSubmit(confirmed, page.enteredCode) && page.enteredCode == confirmed.verificationCode;
    var done := page.PressSubmit(raw);
    ghost var issuedRecord := NewRecord(confirmed, LookupCode(raw));
    assert page.verifications == [issuedRecord];
    var issued := page.form.verificationCode;
    assert issued == LookupCode(raw) && |issued| == 6;
    page.TypeCheckCode(Lower(issued));
    UpperOfLower(issued);
    assert Find(page.verifications, Upper(page.checkCode)) == Some(issuedRecord);
    var found := page.PressCheck();
    shown := page.verifiedData;
  }

  /**
   * The film-company walk-through with the screening details left empty:
   * the submit button stays disabled, the page stays at step 2 and nothing
   * is stored.
   */
  method FilmsWithoutDetails(draw: nat, raw: string) returns (step: int, stored: seq<Record>)
    requires draw < 900000
    ensures step == 2 && stored == []
  {
    var page := new VerificationPage();
    page.Edit(Name, "Ivan");
    page.Edit(Age, "25");
    page.Edit(Contact, "+7 900 000-00-00");
    page.SelectContactType(Phone);
    page.Edit(Company, Films);
    ghost var filled := Form("Ivan", "25", "+7 900 000-00-00", Phone, Films, "", None, "", "", "");
    assert page.form == filled && page.step == 1 && page.verifications == [] && CanSendCode(filled);
    var request, sent := page.PressSendCode(draw, Delivered);
    assert page.step == 2 && page.verifications == [];
    page.TypeEnteredCode(page.form.verificationCode);
    var uploaded := page.UploadPhoto(Some(Photo("face.jpg")));
    assert page.form.company == Films && page.form.movieName == "";
    assert !CanSubmit(page.form, page.enteredCode);
    var done := page.PressSubmit(raw);
    step, stored := page.step, page.verifications;
  }
}
