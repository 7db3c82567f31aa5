/**
 * The booking form: four text inputs, their validation, and the submit handler
 * that posts a lead to the CRM webhook and then hands the trimmed record to
 * `onSubmit` whatever the webhook answered.
 *
 * The submit handler is asynchronous: it is split at its `await` into
 * `BeginSubmit`, which validates, raises `isSubmitting` and issues the request,
 * and `FinishSubmit`, which takes the outcome of the request as a parameter.
 */
module BookingForm {
  import opened Wrappers
  import opened Text

  datatype BookingFormData = BookingFormData(firstName: string, lastName: string, phone: string, reason: string)

  datatype BookingField = FirstName | LastName | Phone | Reason

  type Errors = map<BookingField, string>

  const FirstNameRequired := "First name is required"
  const LastNameRequired := "Last name is required"
  const PhoneRequired := "Phone number is required"
  const PhoneInvalid := "Please enter a valid phone number"
  const ReasonRequired := "Please tell us what you'd like to discuss"

  /** `\d` in a JavaScript regular expression: the ASCII digits only. */
  predicate IsAsciiDigit(c: char) {
    '0' <= c <= '9'
  }

  /** The character class `[\d\s\-+()]`. */
  predicate IsPhoneChar(c: char) {
    IsAsciiDigit(c) || IsWhitespace(c) || c == '-' || c == '+' || c == '(' || c == ')'
  }

  /** `/^[\d\s\-+()]+$/.test(s)`. */
  predicate PhonePatternMatches(s: string) {
    |s| > 0 && forall k :: 0 <= k < |s| ==> IsPhoneChar(s[k])
  }

  /** The first two checks of `validate`. */
  function NameErrors(firstName: string, lastName: string): Errors {
    var e0: Errors := map[];
    var e1 := if Trim(firstName) == "" then e0[FirstName := FirstNameRequired] else e0;
    if Trim(lastName) == "" then e1[LastName := LastNameRequired] else e1
  }

  /** `validate`, as the map of messages it stores in `errors`. */
  function Validate(d: BookingFormData): (e: Errors)
    ensures e.Keys <= {FirstName, LastName, Phone, Reason}
  {
    var e2 := NameErrors(d.firstName, d.lastName);
    var e3 :=
      if Trim(d.phone) == "" then e2[Phone := PhoneRequired]
      else if !PhonePatternMatches(d.phone) then e2[Phone := PhoneInvalid]
      else e2;
    if Trim(d.reason) == "" then e3[Reason := ReasonRequired] else e3
  }

  /** Reference statement of an acceptable form. */
  ghost predicate Acceptable(d: BookingFormData) {
    && !AllWhitespace(d.firstName)
    && !AllWhitespace(d.lastName)
    && !AllWhitespace(d.phone) && PhonePatternMatches(d.phone)
    && !AllWhitespace(d.reason)
  }

  /** What `validate` reports, field by field. */
  lemma ValidateFieldByField(d: BookingFormData)
    ensures var e := Validate(d);
      && (FirstName in e <==> AllWhitespace(d.firstName))
      && (FirstName in e ==> e[FirstName] == FirstNameRequired)
      && (LastName in e <==> AllWhitespace(d.lastName))
      && (LastName in e ==> e[LastName] == LastNameRequired)
      && (Phone in e <==> AllWhitespace(d.phone) || !PhonePatternMatches(d.phone))
      && (Phone in e ==> e[Phone] == if AllWhitespace(d.phone) then PhoneRequired else PhoneInvalid)
      && (Reason in e <==> AllWhitespace(d.reason))
      && (Reason in e ==> e[Reason] == ReasonRequired)
  {
    TrimEmptyIff(d.firstName);
    TrimEmptyIff(d.lastName);
    TrimEmptyIff(d.phone);
    TrimEmptyIff(d.reason);
  }

  /** `validate` returns `true` exactly for an acceptable form. */
  lemma ValidateEmptyIff(d: BookingFormData)
    ensures Validate(d) == map[] <==> Acceptable(d)
  {
    ValidateFieldByField(d);
    var e := Validate(d);
    if Acceptable(d) {
      assert FirstName !in e && LastName !in e && Phone !in e && Reason !in e;
      assert e.Keys == {};
    } else {
      assert FirstName in e || LastName in e || Phone in e || Reason in e;
    }
  }

  /** The record built in `handleSubmit`: every field trimmed. */
  function Trimmed(d: BookingFormData): BookingFormData {
    BookingFormData(Trim(d.firstName), Trim(d.lastName), Trim(d.phone), Trim(d.reason))
  }

  /** A record fit for `onSubmit`: trimmed, nothing blank, a phone the pattern accepts. */
  ghost predicate CleanRecord(r: BookingFormData) {
    && r.firstName != "" && Trim(r.firstName) == r.firstName
    && r.lastName != "" && Trim(r.lastName) == r.lastName
    && r.phone != "" && Trim(r.phone) == r.phone && PhonePatternMatches(r.phone)
    && r.reason != "" && Trim(r.reason) == r.reason
  }

  /** Trimming a phone number the pattern accepts leaves one it still accepts. */
  lemma TrimKeepsPhone(s: string)
    requires PhonePatternMatches(s) && !AllWhitespace(s)
    ensures PhonePatternMatches(Trim(s))
  {
    TrimEmptyIff(s);
    var i := TrimIsInfix(s);
    var t := Trim(s);
    forall k | 0 <= k < |t| ensures IsPhoneChar(t[k]) {
      assert t[k] == s[i + k];
    }
  }

  /** A form that validates yields a clean record once trimmed. */
  lemma AcceptedFormGivesCleanRecord(d: BookingFormData)
    requires Validate(d) == map[]
    ensures CleanRecord(Trimmed(d))
  {
    ValidateEmptyIff(d);
    TrimEmptyIff(d.firstName);
    TrimEmptyIff(d.lastName);
    TrimEmptyIff(d.phone);
    TrimEmptyIff(d.reason);
    TrimIdempotent(d.firstName);
    TrimIdempotent(d.lastName);
    TrimIdempotent(d.phone);
    TrimIdempotent(d.reason);
    TrimKeepsPhone(d.phone);
  }

  /** Validation looks at the inputs only after trimming, apart from the phone pattern. */
  lemma TrimmedFormValidatesAlike(d: BookingFormData)
    requires Validate(d) == map[]
    ensures Validate(Trimmed(d)) == map[]
  {
    AcceptedFormGivesCleanRecord(d);
    var r := Trimmed(d);
    TrimEmptyIff(r.firstName);
    TrimEmptyIff(r.lastName);
    TrimEmptyIff(r.phone);
    TrimEmptyIff(r.reason);
    ValidateEmptyIff(r);
  }

  // ----- the webhook request -----

  const CrmWebhookUrl := "https://voice-noob-production.up.railway.app/webhooks/leads/website"

  /** The JSON body posted to the webhook, one member per key. */
  datatype LeadPayload = LeadPayload(
    first_name: string, last_name: string, phone_number: string, notes: string, source: string)

  datatype Request = Request(url: string, body: LeadPayload)

  function PayloadOf(r: BookingFormData): LeadPayload {
    LeadPayload(r.firstName, r.lastName, r.phone, r.reason, "website")
  }

  /** The record a payload was built from. */
  function RecordOf(p: LeadPayload): BookingFormData {
    BookingFormData(p.first_name, p.last_name, p.phone_number, p.notes)
  }

  /** The payload carries the whole record: it can be read back, and it is marked as coming from the website. */
  lemma PayloadRoundTrip(r: BookingFormData)
    ensures RecordOf(PayloadOf(r)) == r
    ensures PayloadOf(r).source == "website"
  {
  }

  lemma PayloadInjective(r1: BookingFormData, r2: BookingFormData)
    requires PayloadOf(r1) == PayloadOf(r2)
    ensures r1 == r2
  {
    PayloadRoundTrip(r1);
    PayloadRoundTrip(r2);
  }

  function RequestUrl(apiKey: string): string {
    CrmWebhookUrl + "?api_key=" + apiKey
  }

  /** How the `fetch` call ended: a response with `ok` set, one without, or a rejection. */
  datatype FetchOutcome = Ok | NotOk(status: int, statusText: string) | Rejected

  /** What the handler writes to the console. */
  datatype LogEntry = FailedToSubmit(status: int, statusText: string) | ErrorSubmitting

  function LogFor(outcome: FetchOutcome): seq<LogEntry> {
    match outcome
    case Ok => []
    case NotOk(status, text) => [FailedToSubmit(status, text)]
    case Rejected => [ErrorSubmitting]
  }

  /** Only a successful response goes unlogged; every failure leaves one entry. */
  lemma LogForOutcome(outcome: FetchOutcome)
    ensures |LogFor(outcome)| <= 1
    ensures LogFor(outcome) == [] <==> outcome == Ok
  {
  }

  // ----- the component -----

  class BookingForm {
    var firstName: string
    var lastName: string
    var phone: string
    var reason: string
    var errors: Errors
    var isSubmitting: bool
    /** The trimmed record of the submission awaiting its webhook response. */
    var inFlight: Option<BookingFormData>
    /** Every request issued to the webhook, oldest first. */
    var requests: seq<Request>
    /** Every record handed to `onSubmit`, oldest first. */
    var submitted: seq<BookingFormData>
    var log: seq<LogEntry>
    /** `VITE_CRM_API_KEY`, read from the build environment. */
    const apiKey: string

    ghost predicate Valid()
      reads this
    {
      && (isSubmitting <==> inFlight.Some?)
      && |requests| == |submitted| + (if isSubmitting then 1 else 0)
      && (forall i :: 0 <= i < |submitted| ==> requests[i] == Request(RequestUrl(apiKey), PayloadOf(submitted[i])))
      && (forall i :: 0 <= i < |submitted| ==> CleanRecord(submitted[i]))
      && (inFlight.Some? ==>
            && requests[|requests| - 1] == Request(RequestUrl(apiKey), PayloadOf(inFlight.value))
            && CleanRecord(inFlight.value))
    }

    function Current(): BookingFormData
      reads this
    {
      BookingFormData(firstName, lastName, phone, reason)
    }

    constructor (apiKey: string)
      ensures Valid()
      ensures this.apiKey == apiKey
      ensures Current() == BookingFormData("", "", "", "")
      ensures errors == map[] && !isSubmitting
      ensures requests == [] && submitted == [] && log == []
    {
      firstName, lastName, phone, reason := "", "", "", "";
      errors := map[];
      isSubmitting := false;
      inFlight := None;
      requests, submitted, log := [], [], [];
      this.apiKey := apiKey;
    }

    /** An input's `onChange`: the value is stored; errors stay as they are until the next submit. */
    method Edit(f: BookingField, v: string)
      requires Valid()
      modifies this`firstName, this`lastName, this`phone, this`reason
      ensures Valid()
      ensures Current() == match f
        case FirstName => old(Current()).(firstName := v)
        case LastName => old(Current()).(lastName := v)
        case Phone => old(Current()).(phone := v)
        case Reason => old(Current()).(reason := v)
    {
      match f
      case FirstName => firstName := v;
      case LastName => lastName := v;
      case Phone => phone := v;
      case Reason => reason := v;
    }

    /** `validate`: replace the errors wholesale and say whether there are none. */
    method ValidateForm() returns (ok: bool)
      modifies this`errors
      ensures errors == Validate(Current())
      ensures ok <==> errors == map[]
    {
      var newErrors: Errors := map[];
      if Trim(firstName) == "" { newErrors := newErrors[FirstName := FirstNameRequired]; }
      if Trim(lastName) == "" { newErrors := newErrors[LastName := LastNameRequired]; }
      assert newErrors == NameErrors(firstName, lastName);
      if Trim(phone) == "" {
        newErrors := newErrors[Phone := PhoneRequired];
      } else if !PhonePatternMatches(phone) {
        newErrors := newErrors[Phone := PhoneInvalid];
      }
      if Trim(reason) == "" { newErrors := newErrors[Reason := ReasonRequired]; }
      EmptyMapHasNoKeys(newErrors);
      errors := newErrors;
      ok := |newErrors| == 0;
    }

    /**
     * `handleSubmit` up to its `await`. The submit button is disabled while a
     * submission is in flight, so a submit then changes nothing.
     */
    method BeginSubmit() returns (started: bool)
      requires Valid()
      modifies this
      ensures Valid()
      ensures Current() == old(Current()) && submitted == old(submitted) && log == old(log)
      ensures old(isSubmitting) ==> !started && unchanged(this)
      ensures !old(isSubmitting) ==> errors == Validate(Current()) && (started <==> errors == map[])
      ensures !old(isSubmitting) && !started ==> !isSubmitting && requests == old(requests)
      ensures started ==>
        && isSubmitting && inFlight == Some(Trimmed(Current()))
        && requests == old(requests) + [Request(RequestUrl(apiKey), PayloadOf(Trimmed(Current())))]
    {
      if isSubmitting {
        return false;
      }
      var ok := ValidateForm();
      if !ok {
        return false;
      }
      AcceptedFormGivesCleanRecord(Current());
      var record := Trimmed(Current());
      isSubmitting := true;
      inFlight := Some(record);
      requests := requests + [Request(RequestUrl(apiKey), PayloadOf(record))];
      started := true;
    }

    /**
     * `handleSubmit` after its `await`: a failure is logged and does not stop the
     * submission; the record goes to `onSubmit` and `isSubmitting` drops.
     */
    method FinishSubmit(outcome: FetchOutcome)
      requires Valid() && isSubmitting
      modifies this`isSubmitting, this`inFlight, this`submitted, this`log
      ensures Valid()
      ensures !isSubmitting
      ensures submitted == old(submitted) + [old(inFlight).value]
      ensures log == old(log) + LogFor(outcome)
    {
      log := log + LogFor(outcome);
      submitted := submitted + [inFlight.value];
      inFlight := None;
      isSubmitting := false;
    }
  }

  const ExampleInput := BookingFormData(" Jane", "Doe", "555 1234 ", "Automation")
  const ExampleRecord := BookingFormData("Jane", "Doe", "555 1234", "Automation")

  lemma ExamplePhoneAccepted()
    ensures PhonePatternMatches(ExampleInput.phone)
  {
    var p := ExampleInput.phone;
    forall k | 0 <= k < |p| ensures IsPhoneChar(p[k]) {
    }
  }

  /** The leading space of the example's first name is dropped. */
  lemma ExampleFirstNameTrims()
    ensures Trim(" Jane") == "Jane"
  {
    assert TrimStart(" Jane") == TrimStart(" Jane"[1..]);
    assert " Jane"[1..] == "Jane";
    TrimNoOuterSpace("Jane");
  }

  /** The trailing space of the example's phone number is dropped, and the inner one kept. */
  lemma ExamplePhoneTrims()
    ensures Trim("555 1234 ") == "555 1234"
  {
    var p := "555 1234 ";
    assert TrimStart(p) == p;
    assert TrimEnd(p) == TrimEnd(p[..|p| - 1]);
    assert p[..|p| - 1] == "555 1234";
  }

  /** The four example inputs, each trimmed. */
  lemma ExampleFieldsTrim()
    ensures Trim(" Jane") == "Jane" && Trim("Doe") == "Doe"
    ensures Trim("555 1234 ") == "555 1234" && Trim("Automation") == "Automation"
  {
    ExampleFirstNameTrims();
    ExamplePhoneTrims();
    TrimNoOuterSpace("Doe");
    TrimNoOuterSpace("Automation");
  }

  lemma ExampleInputTrims()
    ensures Trimmed(ExampleInput) == ExampleRecord
  {
    ExampleFieldsTrim();
  }

  /** The example input passes validation and trims to the example record. */
  lemma ExampleInputAccepted()
    ensures Validate(ExampleInput) == map[]
    ensures Trimmed(ExampleInput) == ExampleRecord
  {
    ExampleInputTrims();
    ExamplePhoneAccepted();
  }

  const BlankReasonInput := BookingFormData("Jane", "Doe", "5551234", "  ")

  lemma BlankReasonRejected()
    ensures Validate(BlankReasonInput) == map[Reason := ReasonRequired]
  {
    TrimNoOuterSpace("Jane");
    TrimNoOuterSpace("Doe");
    TrimNoOuterSpace("5551234");
    TrimEmptyIff("  ");
    assert PhonePatternMatches("5551234") by {
      var p := "5551234";
      forall k | 0 <= k < |p| ensures IsPhoneChar(p[k]) {
      }
    }
  }

  /** Fill the four inputs of a fresh form. */
  method FillIn(d: BookingFormData) returns (form: BookingForm)
    ensures fresh(form) && form.Valid() && form.Current() == d
    ensures !form.isSubmitting && form.requests == [] && form.submitted == [] && form.log == []
  {
    form := new BookingForm("key");
    form.Edit(FirstName, d.firstName);
    form.Edit(LastName, d.lastName);
    form.Edit(Phone, d.phone);
    form.Edit(Reason, d.reason);
  }

  /** The example lead, submitted and answered with a server error, still reaches `onSubmit`, trimmed. */
  method SubmitWithFailedWebhook() returns (sent: seq<Request>, handed: seq<BookingFormData>, logged: seq<LogEntry>)
    ensures |sent| == 1 && sent[0].body.first_name == "Jane" && sent[0].body.source == "website"
    ensures handed == [ExampleRecord]
    ensures logged == [FailedToSubmit(500, "Internal Server Error")]
  {
    var form := FillIn(ExampleInput);
    ExampleInputAccepted();
    var started := form.BeginSubmit();
    form.FinishSubmit(NotOk(500, "Internal Server Error"));
    sent, handed, logged := form.requests, form.submitted, form.log;
  }

  /** A submit with a blank reason issues no request and shows the reason's message. */
  method BlankReasonBlocksSubmit() returns (sent: seq<Request>, errors: Errors)
    ensures sent == []
    ensures errors == map[Reason := ReasonRequired]
  {
    var form := FillIn(BlankReasonInput);
    BlankReasonRejected();
    var started := form.BeginSubmit();
    sent, errors := form.requests, form.errors;
  }
}
