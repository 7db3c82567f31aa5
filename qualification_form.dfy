/**
 * The six-step qualification wizard: the answer record, the fixed step list,
 * per-step validation, the wizard's state and its four event handlers, and the
 * two values derived from the step index (progress and the slide offsets).
 */
module QualificationForm {
  import opened Wrappers
  import opened Text

  // ----- the answer record -----

  datatype Field =
    | BusinessType | Revenue | ProjectType | Timeline | Budget
    | FirstName | LastName | Email | Phone | CompanyName | ProjectDetails

  datatype QualificationData = QualificationData(
    businessType: string,
    revenue: string,
    projectType: string,
    timeline: string,
    budget: string,
    firstName: string,
    lastName: string,
    email: string,
    phone: string,
    companyName: string,
    projectDetails: string)
  {
    /** `data[field]`. */
    function Get(f: Field): string {
      match f
      case BusinessType => businessType
      case Revenue => revenue
      case ProjectType => projectType
      case Timeline => timeline
      case Budget => budget
      case FirstName => firstName
      case LastName => lastName
      case Email => email
      case Phone => phone
      case CompanyName => companyName
      case ProjectDetails => projectDetails
    }

    /** `{ ...data, [field]: value }`: that one field replaced, every other kept. */
    function With(f: Field, v: string): (d: QualificationData)
      ensures d.Get(f) == v
      ensures forall g :: g != f ==> d.Get(g) == Get(g)
    {
      match f
      case BusinessType => this.(businessType := v)
      case Revenue => this.(revenue := v)
      case ProjectType => this.(projectType := v)
      case Timeline => this.(timeline := v)
      case Budget => this.(budget := v)
      case FirstName => this.(firstName := v)
      case LastName => this.(lastName := v)
      case Email => this.(email := v)
      case Phone => this.(phone := v)
      case CompanyName => this.(companyName := v)
      case ProjectDetails => this.(projectDetails := v)
    }
  }

  const EmptyData := QualificationData("", "", "", "", "", "", "", "", "", "", "")

  type Errors = map<Field, string>

  // ----- the step registry -----

  /** The `id` of each step; the source spells them 'businessType', 'revenue', 'projectType', 'timeline', 'budget' and 'contact'. */
  datatype StepId = BusinessTypeStep | RevenueStep | ProjectTypeStep | TimelineStep | BudgetStep | ContactStep

  datatype Step = Step(id: StepId, title: string, subtitle: string)

  const STEPS: seq<Step> := [
    Step(BusinessTypeStep, "What best describes your business?", "Help us understand who we're working with"),
    Step(RevenueStep, "What's your current annual revenue?", "This helps us recommend the right solutions"),
    Step(ProjectTypeStep, "What do you need help with?", "Select the area that fits your needs best"),
    Step(TimelineStep, "When do you need this completed?", "Helps us prioritize and plan accordingly"),
    Step(BudgetStep, "What's your budget for this project?", "Be honest - this helps us serve you better"),
    Step(ContactStep, "Almost there! Let's get your details", "So we can prepare for our conversation")
  ]

  const LastStep: nat := |STEPS| - 1

  const SelectMessage := "Please select an option"

  /** The field a selection step (the first five) asks for. */
  function SelectionField(id: StepId): Option<Field> {
    match id
    case BusinessTypeStep => Some(BusinessType)
    case RevenueStep => Some(Revenue)
    case ProjectTypeStep => Some(ProjectType)
    case TimelineStep => Some(Timeline)
    case BudgetStep => Some(Budget)
    case ContactStep => None
  }

  /** The fields whose values a step's validation may look at. */
  function StepFields(id: StepId): set<Field> {
    if id == ContactStep then {FirstName, LastName, Email, Phone, CompanyName, ProjectDetails}
    else {SelectionField(id).value}
  }

  // ----- the e-mail pattern -----

  /** The character class `[^\s@]`, for every character of `s`. */
  predicate NoSpaceOrAt(s: string) {
    forall k :: 0 <= k < |s| ==> !IsWhitespace(s[k]) && s[k] != '@'
  }

  /** `/^[^\s@]+@[^\s@]+\.[^\s@]+$/.test(s)`, stated as the regular expression reads. */
  ghost predicate EmailPatternMatches(s: string) {
    exists i, j ::
      && 0 < i && i + 1 < j && j + 1 < |s|
      && s[i] == '@' && s[j] == '.'
      && NoSpaceOrAt(s[..i]) && NoSpaceOrAt(s[i + 1..j]) && NoSpaceOrAt(s[j + 1..])
  }

  /** The position of the first `c` in `s`, or `|s|` when there is none. */
  function IndexOf(s: string, c: char): (k: nat)
    ensures k <= |s|
    ensures k < |s| ==> s[k] == c
    ensures forall m :: 0 <= m < k ==> s[m] != c
  {
    if s == [] then 0 else if s[0] == c then 0 else 1 + IndexOf(s[1..], c)
  }

  /**
   * The pattern test as a matcher: a non-empty local part before the first `@`,
   * and after it a domain without `@` or white space that has a `.` neither at
   * its start nor at its end.
   */
  predicate IsEmail(s: string) {
    var at := IndexOf(s, '@');
    && 0 < at && at + 3 < |s|
    && NoSpaceOrAt(s[..at])
    && NoSpaceOrAt(s[at + 1..])
    && IndexOf(s[at + 2..|s| - 1], '.') < |s| - at - 3
  }

  lemma EmailMatcherSound(s: string)
    requires IsEmail(s)
    ensures EmailPatternMatches(s)
  {
    var at := IndexOf(s, '@');
    var inner := s[at + 2..|s| - 1];
    var k := at + 2 + IndexOf(inner, '.');
    assert s[k] == inner[k - at - 2] == '.';
    var d := s[at + 1..];
    assert s[at + 1..k] == d[..k - at - 1];
    assert s[k + 1..] == d[k - at..];
    assert NoSpaceOrAt(s[at + 1..k]) && NoSpaceOrAt(s[k + 1..]);
  }

  lemma EmailMatcherComplete(s: string, i: int, j: int)
    requires && 0 < i && i + 1 < j && j + 1 < |s|
             && s[i] == '@' && s[j] == '.'
             && NoSpaceOrAt(s[..i]) && NoSpaceOrAt(s[i + 1..j]) && NoSpaceOrAt(s[j + 1..])
    ensures IsEmail(s)
  {
    forall m | 0 <= m < i ensures s[m] != '@' {
      assert s[..i][m] == s[m];
    }
    assert IndexOf(s, '@') == i;
    var inner := s[i + 2..|s| - 1];
    assert inner[j - i - 2] == '.';
    forall m | i + 1 <= m < |s| ensures !IsWhitespace(s[m]) && s[m] != '@' {
      if m < j { assert s[i + 1..j][m - i - 1] == s[m]; }
      else if m > j { assert s[j + 1..][m - j - 1] == s[m]; }
    }
    assert NoSpaceOrAt(s[i + 1..]);
  }

  /** The matcher accepts exactly the strings the regular expression matches. */
  lemma EmailMatchesPattern(s: string)
    ensures IsEmail(s) <==> EmailPatternMatches(s)
  {
    if IsEmail(s) {
      EmailMatcherSound(s);
    }
    if EmailPatternMatches(s) {
      var i, j :| && 0 < i && i + 1 < j && j + 1 < |s|
                  && s[i] == '@' && s[j] == '.'
                  && NoSpaceOrAt(s[..i]) && NoSpaceOrAt(s[i + 1..j]) && NoSpaceOrAt(s[j + 1..]);
      EmailMatcherComplete(s, i, j);
    }
  }

  /** A string of white space only has no `@`, so the pattern cannot match it. */
  lemma BlankIsNoEmail(s: string)
    requires AllWhitespace(s)
    ensures !EmailPatternMatches(s)
  {
  }

  // ----- validation -----

  /** The contact step's checks; they look at these four answers only. */
  function ContactErrors(firstName: string, lastName: string, email: string, phone: string): (e: Errors)
    ensures e.Keys <= {FirstName, LastName, Email, Phone}
  {
    var e0: Errors := map[];
    var e1 := if Trim(firstName) == "" then e0[FirstName := "First name is required"] else e0;
    var e2 := if Trim(lastName) == "" then e1[LastName := "Last name is required"] else e1;
    var e3 :=
      if Trim(email) == "" then e2[Email := "Email is required"]
      else if !IsEmail(email) then e2[Email := "Invalid email"]
      else e2;
    if Trim(phone) == "" then e3[Phone := "Phone is required"] else e3
  }

  /** The errors of step `id` for answers `d`. */
  function ValidateStep(id: StepId, d: QualificationData): (errors: Errors)
    ensures errors.Keys <= StepFields(id)
  {
    match SelectionField(id)
    case Some(f) => if d.Get(f) == "" then map[f := SelectMessage] else map[]
    case None => ContactErrors(d.firstName, d.lastName, d.email, d.phone)
  }

  /** Reference statement of when a step lets the wizard move on. */
  ghost predicate StepAccepts(id: StepId, d: QualificationData) {
    && (SelectionField(id).Some? ==> d.Get(SelectionField(id).value) != "")
    && (id == ContactStep ==>
          && !AllWhitespace(d.firstName)
          && !AllWhitespace(d.lastName)
          && !AllWhitespace(d.phone)
          && EmailPatternMatches(d.email))
  }

  /** A selection step reports one error, "Please select an option", exactly when its field is empty. */
  lemma SelectionStepValidation(i: nat, d: QualificationData)
    requires i < LastStep
    ensures SelectionField(STEPS[i].id).Some?
    ensures var f := SelectionField(STEPS[i].id).value;
      && ValidateStep(STEPS[i].id, d).Keys <= {f}
      && (f in ValidateStep(STEPS[i].id, d) <==> d.Get(f) == "")
      && (f in ValidateStep(STEPS[i].id, d) ==> ValidateStep(STEPS[i].id, d)[f] == SelectMessage)
  {
  }

  /** What the contact step reports, field by field. */
  lemma ContactValidation(d: QualificationData)
    ensures var e := ValidateStep(ContactStep, d);
      && (FirstName in e <==> AllWhitespace(d.firstName))
      && (FirstName in e ==> e[FirstName] == "First name is required")
      && (LastName in e <==> AllWhitespace(d.lastName))
      && (LastName in e ==> e[LastName] == "Last name is required")
      && (Phone in e <==> AllWhitespace(d.phone))
      && (Phone in e ==> e[Phone] == "Phone is required")
      && (Email in e <==> !EmailPatternMatches(d.email))
      && (Email in e ==> e[Email] == if AllWhitespace(d.email) then "Email is required" else "Invalid email")
      && CompanyName !in e && ProjectDetails !in e
  {
    TrimEmptyIff(d.firstName);
    TrimEmptyIff(d.lastName);
    TrimEmptyIff(d.email);
    TrimEmptyIff(d.phone);
    EmailMatchesPattern(d.email);
    if AllWhitespace(d.email) { BlankIsNoEmail(d.email); }
  }

  /** Validation succeeds exactly when the step's requirements hold. */
  lemma ValidateStepEmptyIff(id: StepId, d: QualificationData)
    ensures ValidateStep(id, d) == map[] <==> StepAccepts(id, d)
  {
    if id == ContactStep {
      ContactValidation(d);
      var e := ValidateStep(id, d);
      if StepAccepts(id, d) {
        assert FirstName !in e && LastName !in e && Email !in e && Phone !in e;
        assert e.Keys == {};
        assert e == map[];
      } else {
        assert FirstName in e || LastName in e || Email in e || Phone in e;
      }
    } else {
      var f := SelectionField(id).value;
      if d.Get(f) == "" {
        assert f in ValidateStep(id, d);
      }
    }
  }

  /** A step looks only at its own fields: answers that agree there validate alike. */
  lemma ValidationIsLocal(id: StepId, d1: QualificationData, d2: QualificationData)
    requires forall f :: f in StepFields(id) ==> d1.Get(f) == d2.Get(f)
    ensures ValidateStep(id, d1) == ValidateStep(id, d2)
  {
    if id == ContactStep {
      assert d1.Get(FirstName) == d2.Get(FirstName) && d1.Get(LastName) == d2.Get(LastName);
      assert d1.Get(Email) == d2.Get(Email) && d1.Get(Phone) == d2.Get(Phone);
      assert (d1.firstName, d1.lastName, d1.email, d1.phone) == (d2.firstName, d2.lastName, d2.email, d2.phone);
    } else {
      assert d1.Get(SelectionField(id).value) == d2.Get(SelectionField(id).value);
    }
  }

  // ----- derived values -----

  /** The width of the progress bar, in percent. */
  function Progress(step: nat): real {
    ((step + 1) as real / |STEPS| as real) * 100.0
  }

  lemma ProgressProperties(step: nat, other: nat)
    requires step <= LastStep
    ensures 0.0 < Progress(step) <= 100.0
    ensures Progress(step) == 100.0 <==> step == LastStep
    ensures step < other ==> Progress(step) < Progress(other)
  {
  }

  /** Where a step's content stands on the horizontal axis, and how opaque it is. */
  datatype SlideFrame = SlideFrame(x: int, opacity: int)

  /** The frame an entering step starts from. */
  function SlideEnter(direction: int): SlideFrame {
    SlideFrame(if direction > 0 then 300 else -300, 0)
  }

  const SlideCenter := SlideFrame(0, 1)

  /** The frame a leaving step moves to. */
  function SlideExit(direction: int): SlideFrame {
    SlideFrame(if direction < 0 then 300 else -300, 0)
  }

  /**
   * Moving back is the mirror image of moving forward, and a step keeps moving
   * the same way: it reaches the centre from one side and leaves it by the other.
   */
  lemma SlideMirrors(direction: int)
    requires direction == 1 || direction == -1
    ensures SlideEnter(direction).x == 300 * direction
    ensures SlideCenter.x - SlideEnter(direction).x == SlideExit(direction).x - SlideCenter.x != 0
    ensures SlideCenter.opacity == 1
    ensures SlideExit(direction).x == -SlideEnter(direction).x
    ensures SlideEnter(-direction).x == -SlideEnter(direction).x
    ensures SlideExit(-direction).x == -SlideExit(direction).x
    ensures SlideEnter(direction).opacity == SlideExit(direction).opacity == 0
  {
  }

  // ----- the wizard -----

  class Wizard {
    var currentStep: nat
    var direction: int
    var formData: QualificationData
    var errors: Errors
    var showError: bool

    ghost predicate Valid()
      reads this
    {
      currentStep <= LastStep && -1 <= direction <= 1
    }

    constructor ()
      ensures Valid()
      ensures currentStep == 0 && direction == 0
      ensures formData == EmptyData && forall f :: formData.Get(f) == ""
      ensures errors == map[] && !showError
    {
      currentStep := 0;
      direction := 0;
      formData := EmptyData;
      errors := map[];
      showError := false;
    }

    /** The `'contact'` case of the switch: each check adds its message to the map. */
    method ContactStepErrors() returns (newErrors: Errors)
      ensures newErrors == ContactErrors(formData.firstName, formData.lastName, formData.email, formData.phone)
    {
      newErrors := map[];
      if Trim(formData.firstName) == "" { newErrors := newErrors[FirstName := "First name is required"]; }
      if Trim(formData.lastName) == "" { newErrors := newErrors[LastName := "Last name is required"]; }
      if Trim(formData.email) == "" {
        newErrors := newErrors[Email := "Email is required"];
      } else if !IsEmail(formData.email) {
        newErrors := newErrors[Email := "Invalid email"];
      }
      if Trim(formData.phone) == "" { newErrors := newErrors[Phone := "Phone is required"]; }
    }

    /** `validateCurrentStep`: recompute the current step's errors, replacing the old map wholesale. */
    method ValidateCurrentStep() returns (ok: bool)
      requires Valid()
      modifies this`errors
      ensures errors == ValidateStep(STEPS[currentStep].id, formData)
      ensures ok <==> errors == map[]
    {
      var id := STEPS[currentStep].id;
      var newErrors: Errors := map[];
      match id {
      case BusinessTypeStep =>
        if formData.businessType == "" { newErrors := newErrors[BusinessType := SelectMessage]; }
      case RevenueStep =>
        if formData.revenue == "" { newErrors := newErrors[Revenue := SelectMessage]; }
      case ProjectTypeStep =>
        if formData.projectType == "" { newErrors := newErrors[ProjectType := SelectMessage]; }
      case TimelineStep =>
        if formData.timeline == "" { newErrors := newErrors[Timeline := SelectMessage]; }
      case BudgetStep =>
        if formData.budget == "" { newErrors := newErrors[Budget := SelectMessage]; }
      case ContactStep =>
        newErrors := ContactStepErrors();
      }
      EmptyMapHasNoKeys(newErrors);
      errors := newErrors;
      ok := |newErrors| == 0;
    }

    /**
     * `handleNext`. Returns the record handed to `onComplete`, which happens
     * only when the last step validates.
     */
    method HandleNext() returns (completed: Option<QualificationData>)
      requires Valid()
      modifies this
      ensures Valid()
      ensures formData == old(formData)
      ensures errors == ValidateStep(STEPS[old(currentStep)].id, formData)
      ensures errors != map[] ==>
        showError && currentStep == old(currentStep) && direction == old(direction) && completed == None
      ensures errors == map[] && old(currentStep) < LastStep ==>
        !showError && direction == 1 && currentStep == old(currentStep) + 1 && completed == None
      ensures errors == map[] && old(currentStep) == LastStep ==>
        !showError && currentStep == old(currentStep) && direction == old(direction) && completed == Some(formData)
    {
      var ok := ValidateCurrentStep();
      if !ok {
        showError := true;
        return None;
      }
      showError := false;
      if currentStep < |STEPS| - 1 {
        direction := 1;
        currentStep := currentStep + 1;
        completed := None;
      } else {
        completed := Some(formData);
      }
    }

    /** `handleBack`: no validation; a step back unless already on the first step. */
    method HandleBack()
      requires Valid()
      modifies this`currentStep, this`direction
      ensures Valid()
      ensures old(currentStep) == 0 ==> currentStep == 0 && direction == old(direction)
      ensures old(currentStep) > 0 ==> currentStep == old(currentStep) - 1 && direction == -1
    {
      if currentStep > 0 {
        direction := -1;
        currentStep := currentStep - 1;
      }
    }

    /** `handleSelect`: set one answer, clear that field's error and the banner. */
    method HandleSelect(field: Field, value: string)
      requires Valid()
      modifies this`formData, this`errors, this`showError
      ensures Valid()
      ensures formData == old(formData).With(field, value)
      ensures errors == old(errors) - {field}
      ensures !showError
    {
      formData := formData.With(field, value);
      errors := errors - {field};
      showError := false;
    }

    /** `handleInputChange`: as `HandleSelect`, but the banner is left as it is. */
    method HandleInputChange(field: Field, value: string)
      requires Valid()
      modifies this`formData, this`errors
      ensures Valid()
      ensures formData == old(formData).With(field, value)
      ensures errors == old(errors) - {field}
    {
      formData := formData.With(field, value);
      errors := errors - {field};
    }
  }

  /** An edit changes the edited field and clears that field's error only. */
  lemma EditIsLocal(d: QualificationData, errors: Errors, f: Field, v: string)
    ensures d.With(f, v).Get(f) == v && f !in errors - {f}
    ensures forall g :: g != f ==> d.With(f, v).Get(g) == d.Get(g)
    ensures forall g :: g != f && g in errors ==> g in errors - {f} && (errors - {f})[g] == errors[g]
  {
  }

  /** `jane@co.com` has the shape the e-mail pattern asks for. */
  lemma ExampleEmailAccepted()
    ensures IsEmail("jane@co.com")
  {
    var s := "jane@co.com";
    assert s[..4] == "jane";
    assert s[5..7] == "co";
    assert s[8..] == "com";
    EmailMatcherComplete(s, 4, 7);
  }

  /** The contact answers of the example lead pass the contact step. */
  lemma ExampleContactAccepted(d: QualificationData)
    requires d.firstName == "Jane" && d.lastName == "Doe"
    requires d.email == "jane@co.com" && d.phone == "555-1234"
    ensures ValidateStep(ContactStep, d) == map[]
  {
    ExampleContactFields();
  }

  /** None of the example's contact answers is blank, and its e-mail is well formed. */
  lemma ExampleContactFields()
    ensures Trim("Jane") != [] && Trim("Doe") != [] && Trim("jane@co.com") != [] && Trim("555-1234") != []
    ensures IsEmail("jane@co.com")
  {
    TrimNotBlank("Jane");
    TrimNotBlank("Doe");
    TrimNotBlank("jane@co.com");
    TrimNotBlank("555-1234");
    ExampleEmailAccepted();
  }

  /** Answering the current selection step and moving on lands on the next step. */
  method AnswerAndAdvance(w: Wizard, f: Field, v: string)
    requires w.Valid() && w.currentStep < LastStep
    requires SelectionField(STEPS[w.currentStep].id) == Some(f) && v != ""
    modifies w
    ensures w.Valid() && w.currentStep == old(w.currentStep) + 1
    ensures w.formData == old(w.formData).With(f, v)
  {
    w.HandleSelect(f, v);
    assert w.formData.Get(f) == v;
    var _ := w.HandleNext();
  }

  /** The answers of an example lead: a SaaS business with 1m-5m revenue wanting automation as soon as possible. */
  const ExampleLead := QualificationData(
    "saas", "1m-5m", "automation", "asap", "10k-25k", "Jane", "Doe", "jane@co.com", "555-1234", "", "")

  /** The example lead's five selections, each chosen and confirmed, bring a fresh wizard to the contact step. */
  method AnswerSelections() returns (w: Wizard)
    ensures fresh(w) && w.Valid() && w.currentStep == LastStep
    ensures w.formData == EmptyData.(businessType := "saas", revenue := "1m-5m", projectType := "automation",
                                     timeline := "asap", budget := "10k-25k")
  {
    w := new Wizard();
    AnswerAndAdvance(w, BusinessType, "saas");
    AnswerAndAdvance(w, Revenue, "1m-5m");
    AnswerAndAdvance(w, ProjectType, "automation");
    AnswerAndAdvance(w, Timeline, "asap");
    AnswerAndAdvance(w, Budget, "10k-25k");
  }

  /** Typing the example lead's contact details stores them, clears their errors and leaves every other answer as it was. */
  method EnterContact(w: Wizard)
    requires w.Valid()
    modifies w`formData, w`errors
    ensures w.Valid()
    ensures w.formData == old(w.formData).(firstName := "Jane", lastName := "Doe", email := "jane@co.com", phone := "555-1234")
    ensures w.errors == old(w.errors) - {FirstName, LastName, Email, Phone}
  {
    w.HandleInputChange(FirstName, "Jane");
    w.HandleInputChange(LastName, "Doe");
    w.HandleInputChange(Email, "jane@co.com");
    w.HandleInputChange(Phone, "555-1234");
  }

  /**
   * A whole session: the answers of the example lead, chosen step by step, take
   * the wizard through all six steps to `onComplete`.
   */
  method CompleteSession() returns (completed: Option<QualificationData>)
    ensures completed == Some(ExampleLead)
  {
    var w := AnswerSelections();
    EnterContact(w);
    ExampleContactAccepted(w.formData);
    completed := w.HandleNext();
  }

  /** Asking to move on from an unanswered revenue step keeps the wizard there, with the error shown. */
  method RevenueLeftEmpty() returns (step: nat, errors: Errors)
    ensures step == 1
    ensures errors == map[Revenue := SelectMessage]
  {
    var w := new Wizard();
    w.HandleSelect(BusinessType, "saas");
    assert w.formData.businessType == "saas";
    var _ := w.HandleNext();
    assert w.currentStep == 1;
    assert w.formData.revenue == "";
    assert Revenue in ValidateStep(RevenueStep, w.formData);
    var _ := w.HandleNext();
    step, errors := w.currentStep, w.errors;
  }
}
