/** The portfolio contact page (portfolio/src/app/contact/page.tsx): seven form fields,
    client-side validation, and the submit state machine around one `fetch`. */
module PortfolioContactPage {
  import opened Base
  import EmailPattern
  import ContactRoute

  datatype FormData = FormData(
    name: string, email: string, company: string, projectType: string,
    budget: string, timeline: string, message: string)

  /** The `name` attribute of each input, as `handleChange` reads it. */
  datatype Field = Name | Email | Company | ProjectType | Budget | Timeline | Message

  /** The keys the page ever puts into `errors`. */
  datatype ErrorKey = NameKey | EmailKey | MessageKey | SubmitKey

  datatype SubmitStatus = Idle | Success | Error

  const EmptyForm := FormData("", "", "", "", "", "", "")

  const NameRequired := "Name is required"
  const NameTooShort := "Name must be at least 2 characters long"
  const EmailRequired := "Email is required"
  const EmailInvalid := "Please enter a valid email address"
  const MessageRequired := "Message is required"
  const MessageTooShort := "Message must be at least 10 characters long"
  const NetworkError := "Network error. Please try again."

  /** The error for the name, if any: blank after trimming, then shorter than 2. */
  function NameError(name: string): Option<string> {
    if Trim(name) == "" then Some(NameRequired)
    else if |Trim(name)| < 2 then Some(NameTooShort)
    else None
  }

  /** The error for the e-mail: blank after trimming, then the pattern on the UNTRIMMED value. */
  function EmailError(email: string): Option<string> {
    if Trim(email) == "" then Some(EmailRequired)
    else if !EmailPattern.Matches(email) then Some(EmailInvalid)
    else None
  }

  /** The error for the message: blank after trimming, then shorter than 10. */
  function MessageError(message: string): Option<string> {
    if Trim(message) == "" then Some(MessageRequired)
    else if |Trim(message)| < 10 then Some(MessageTooShort)
    else None
  }

  function WithError(errors: map<ErrorKey, string>, key: ErrorKey, e: Option<string>): map<ErrorKey, string> {
    if e.Some? then errors[key := e.value] else errors
  }

  /** The `newErrors` map that `validateForm` builds. */
  function Validation(f: FormData): map<ErrorKey, string> {
    WithError(WithError(WithError(map[], NameKey, NameError(f.name)),
                        EmailKey, EmailError(f.email)),
              MessageKey, MessageError(f.message))
  }

  /** The client's notion of a valid form: what `validateForm` returning true means. */
  predicate ClientAccepts(f: FormData) {
    && |Trim(f.name)| >= 2
    && Trim(f.email) != "" && EmailPattern.Matches(f.email)
    && |Trim(f.message)| >= 10
  }

  /** The map holds at most one error per field, only under the keys name, email and
      message, each exactly the field's own error; it is empty iff the form is valid. */
  lemma ValidationShape(f: FormData)
    ensures Validation(f).Keys <= {NameKey, EmailKey, MessageKey}
    ensures NameKey in Validation(f) <==> NameError(f.name).Some?
    ensures NameKey in Validation(f) ==> Validation(f)[NameKey] == NameError(f.name).value
    ensures EmailKey in Validation(f) <==> EmailError(f.email).Some?
    ensures EmailKey in Validation(f) ==> Validation(f)[EmailKey] == EmailError(f.email).value
    ensures MessageKey in Validation(f) <==> MessageError(f.message).Some?
    ensures MessageKey in Validation(f) ==> Validation(f)[MessageKey] == MessageError(f.message).value
    ensures Validation(f) == map[] <==> ClientAccepts(f)
  {
    if Validation(f) == map[] {
      assert NameKey !in Validation(f) && EmailKey !in Validation(f) && MessageKey !in Validation(f);
    }
  }

  /** The name rule: a blank name is required, a one-character name is too short, and
      anything longer after trimming passes. */
  lemma NameRule(name: string)
    ensures AllWhiteSpace(name) ==> NameError(name) == Some(NameRequired)
    ensures |Trim(name)| == 1 ==> NameError(name) == Some(NameTooShort)
    ensures |Trim(name)| >= 2 ==> NameError(name) == None
  {
    TrimEmptyIff(name);
  }

  /** The message rule: blank is required, 1 to 9 characters after trimming is too short. */
  lemma MessageRule(message: string)
    ensures AllWhiteSpace(message) ==> MessageError(message) == Some(MessageRequired)
    ensures 0 < |Trim(message)| < 10 ==> MessageError(message) == Some(MessageTooShort)
    ensures |Trim(message)| >= 10 ==> MessageError(message) == None
  {
    TrimEmptyIff(message);
  }

  /** The e-mail is trimmed only to decide whether it is blank: a non-blank address with
      white space anywhere in it, surrounding spaces included, is reported as invalid, not
      accepted. */
  lemma EmailCheckedUntrimmed(email: string, i: nat)
    requires !AllWhiteSpace(email)
    requires i < |email| && IsWhiteSpace(email[i])
    ensures EmailError(email) == Some(EmailInvalid)
  {
    TrimEmptyIff(email);
    EmailPattern.WhiteSpaceNeverMatches(email, i);
  }

  /** The request body `JSON.stringify(formData)` gives the handler. */
  function RequestOf(f: FormData): ContactRoute.RequestBody {
    ContactRoute.Fields(Some(f.name), Some(f.email), Some(f.message))
  }

  /** Every form the client accepts, the handler accepts too. */
  lemma ClientStrongerThanHandler(f: FormData)
    requires ClientAccepts(f)
    ensures ContactRoute.Post(RequestOf(f)).status == ContactRoute.DefaultStatus
  {
    assert |Trim(f.message)| <= |TrimStart(f.message)| <= |f.message|;
  }

  /** ... and strictly so: the handler takes forms the client refuses (no name, a short message). */
  lemma HandlerWeakerThanClient()
    ensures var f := FormData("", "a@b.co", "", "", "", "", "hi");
            !ClientAccepts(f) && ContactRoute.Post(RequestOf(f)).status == ContactRoute.DefaultStatus
  {
    assert EmailPattern.SplitsAt("a@b.co", 1, 3);
  }

  /** The value of one field. */
  function Get(f: FormData, field: Field): string {
    match field
    case Name => f.name
    case Email => f.email
    case Company => f.company
    case ProjectType => f.projectType
    case Budget => f.budget
    case Timeline => f.timeline
    case Message => f.message
  }

  /** `{ ...formData, [field]: value }`. */
  function Update(f: FormData, field: Field, value: string): FormData {
    match field
    case Name => f.(name := value)
    case Email => f.(email := value)
    case Company => f.(company := value)
    case ProjectType => f.(projectType := value)
    case Budget => f.(budget := value)
    case Timeline => f.(timeline := value)
    case Message => f.(message := value)
  }

  /** `handleChange` sets exactly the named field and leaves the other six as they were. */
  lemma UpdateOnlyNamedField(f: FormData, field: Field, value: string, other: Field)
    ensures Get(Update(f, field, value), field) == value
    ensures other != field ==> Get(Update(f, field, value), other) == Get(f, other)
  {
  }

  /** The page's state: its four `useState` values. */
  datatype PageState = PageState(
    formData: FormData, isSubmitting: bool, submitStatus: SubmitStatus,
    errors: map<ErrorKey, string>)

  /** The state after the `try`/`catch`/`finally` of `handleSubmit`, from the state the
      request started in. */
  function Settled(s: PageState, outcome: ContactRoute.FetchOutcome): PageState {
    var s' := match outcome
      case Answered(true, Parsed(_)) => s.(submitStatus := Success, formData := EmptyForm)
      case Answered(false, Parsed(error)) =>
        s.(submitStatus := Error,
           errors := if ContactRoute.Truthy(error) then map[SubmitKey := error.value] else s.errors)
      case _ => s.(submitStatus := Error, errors := map[SubmitKey := NetworkError]);
    s'.(isSubmitting := false)
  }

  /** The whole of `handleSubmit`: validation, then the request and its outcome. */
  function AfterSubmit(s: PageState, outcome: ContactRoute.FetchOutcome): PageState {
    var errors := Validation(s.formData);
    if errors != map[] then s.(errors := errors)
    else Settled(s.(isSubmitting := true, submitStatus := Idle, errors := map[]), outcome)
  }

  /** An invalid form sends nothing: only `errors` changes, to the validation errors. */
  lemma InvalidFormUnchanged(s: PageState, outcome: ContactRoute.FetchOutcome)
    requires !ClientAccepts(s.formData)
    ensures AfterSubmit(s, outcome) == s.(errors := Validation(s.formData))
    ensures AfterSubmit(s, outcome).errors != map[]
  {
    ValidationShape(s.formData);
  }

  /** An OK response with a JSON body: success, and all seven fields reset. */
  lemma OkResetsForm(s: PageState, body: Option<string>)
    requires ClientAccepts(s.formData)
    ensures var t := AfterSubmit(s, ContactRoute.Answered(true, ContactRoute.Parsed(body)));
            t.submitStatus == Success && t.formData == EmptyForm && t.errors == map[] && !t.isSubmitting
  {
    ValidationShape(s.formData);
  }

  /** A non-OK response: error, the form kept, and `errors` either `{ submit: data.error }`
      or the `{}` it was cleared to before the request. */
  lemma NotOkKeepsForm(s: PageState, error: Option<string>)
    requires ClientAccepts(s.formData)
    ensures var t := AfterSubmit(s, ContactRoute.Answered(false, ContactRoute.Parsed(error)));
            && t.submitStatus == Error && t.formData == s.formData && !t.isSubmitting
            && t.errors == (if ContactRoute.Truthy(error) then map[SubmitKey := error.value] else map[])
  {
    ValidationShape(s.formData);
  }

  /** A thrown `fetch` or an unreadable body: error, the form kept, and the network message. */
  lemma FailureReportsNetworkError(s: PageState, outcome: ContactRoute.FetchOutcome)
    requires ClientAccepts(s.formData)
    requires outcome.Threw? || outcome.body.Unparsable?
    ensures var t := AfterSubmit(s, outcome);
            && t.submitStatus == Error && t.formData == s.formData && !t.isSubmitting
            && t.errors == map[SubmitKey := NetworkError]
  {
    ValidationShape(s.formData);
  }

  /** Once a request is sent, `isSubmitting` is false afterwards whatever the outcome. */
  lemma SubmittingEndsFalse(s: PageState, outcome: ContactRoute.FetchOutcome)
    requires ClientAccepts(s.formData) || !s.isSubmitting
    ensures !AfterSubmit(s, outcome).isSubmitting
  {
    ValidationShape(s.formData);
  }

  /** A form the client accepts, answered by the real handler over a working network,
      ends in success with an empty form. */
  lemma ValidFormReachesSuccess(s: PageState)
    requires ClientAccepts(s.formData)
    ensures var t := AfterSubmit(s, ContactRoute.Deliver(ContactRoute.Post(RequestOf(s.formData))));
            t.submitStatus == Success && t.formData == EmptyForm
  {
    ClientStrongerThanHandler(s.formData);
    ValidationShape(s.formData);
  }

  /** The component: its `useState` values as fields, its handlers as methods. */
  class ContactPage {
    var formData: FormData
    var isSubmitting: bool
    var submitStatus: SubmitStatus
    var errors: map<ErrorKey, string>

    function State(): PageState
      reads this
    {
      PageState(formData, isSubmitting, submitStatus, errors)
    }

    constructor ()
      ensures State() == PageState(EmptyForm, false, Idle, map[])
    {
      formData := EmptyForm;
      isSubmitting := false;
      submitStatus := Idle;
      errors := map[];
    }

    /** `validateForm`: fills a fresh error map field by field and stores it. */
    method ValidateForm() returns (valid: bool)
      modifies this`errors
      ensures errors == Validation(formData)
      ensures valid <==> ClientAccepts(formData)
    {
      var newErrors: map<ErrorKey, string> := map[];
      var name := Trim(formData.name);
      if name == "" {
        newErrors := newErrors[NameKey := NameRequired];
      } else if |name| < 2 {
        newErrors := newErrors[NameKey := NameTooShort];
      }
      assert newErrors == WithError(map[], NameKey, NameError(formData.name));
      ghost var afterName := newErrors;
      if Trim(formData.email) == "" {
        newErrors := newErrors[EmailKey := EmailRequired];
      } else if !EmailPattern.Matches(formData.email) {
        newErrors := newErrors[EmailKey := EmailInvalid];
      }
      assert newErrors == WithError(afterName, EmailKey, EmailError(formData.email));
      ghost var afterEmail := newErrors;
      var message := Trim(formData.message);
      if message == "" {
        newErrors := newErrors[MessageKey := MessageRequired];
      } else if |message| < 10 {
        newErrors := newErrors[MessageKey := MessageTooShort];
      }
      assert newErrors == WithError(afterEmail, MessageKey, MessageError(formData.message));
      errors := newErrors;
      valid := |newErrors| == 0;
      assert valid <==> newErrors == map[];
      ValidationShape(formData);
    }

    /** `handleSubmit`, with the outcome of `fetch` and `response.json()` given. Returns the
        form data sent as the request body, or `None` when nothing was sent. */
    method HandleSubmit(outcome: ContactRoute.FetchOutcome) returns (sent: Option<FormData>)
      modifies this
      ensures State() == AfterSubmit(old(State()), outcome)
      ensures sent == if ClientAccepts(old(formData)) then Some(old(formData)) else None
    {
      var valid := ValidateForm();
      ValidationShape(formData);
      if !valid {
        return None;
      }
      isSubmitting := true;
      submitStatus := Idle;
      errors := map[];
      sent := Some(formData);
      match outcome {
        case Answered(ok, Parsed(error)) =>
          if ok {
            submitStatus := Success;
            formData := EmptyForm;
          } else {
            submitStatus := Error;
            if ContactRoute.Truthy(error) {
              errors := map[SubmitKey := error.value];
            }
          }
        case _ =>
          submitStatus := Error;
          errors := map[SubmitKey := NetworkError];
      }
      isSubmitting := false;
    }

    /** `handleChange`: replaces the named field. */
    method HandleChange(field: Field, value: string)
      modifies this`formData
      ensures formData == Update(old(formData), field, value)
      ensures Get(formData, field) == value
    {
      match field {
        case Name => formData := formData.(name := value);
        case Email => formData := formData.(email := value);
        case Company => formData := formData.(company := value);
        case ProjectType => formData := formData.(projectType := value);
        case Budget => formData := formData.(budget := value);
        case Timeline => formData := formData.(timeline := value);
        case Message => formData := formData.(message := value);
      }
    }
  }
}
