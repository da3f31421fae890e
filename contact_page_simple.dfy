/** The three-field contact page (src/app/contact/page.tsx): no client-side validation,
    a submit state machine around one `fetch`, and a single change handler. */
module SimpleContactPage {
  import opened Base
  import ContactRoute

  datatype FormData = FormData(name: string, email: string, message: string)

  datatype Field = Name | Email | Message

  datatype SubmitStatus = Idle | Success | Error

  const EmptyForm := FormData("", "", "")

  datatype PageState = PageState(formData: FormData, isSubmitting: bool, submitStatus: SubmitStatus)

  /** The request body `JSON.stringify(formData)` gives the handler. */
  function RequestOf(f: FormData): ContactRoute.RequestBody {
    ContactRoute.Fields(Some(f.name), Some(f.email), Some(f.message))
  }

  /** The state once the request is under way, before any `await` returns. */
  function Started(s: PageState): PageState {
    s.(isSubmitting := true, submitStatus := Idle)
  }

  /** The state after the `try`/`catch`/`finally`: success and an empty form only for an
      OK response whose body is JSON; an error otherwise. */
  function Settled(s: PageState, outcome: ContactRoute.FetchOutcome): PageState {
    var s' := match outcome
      case Answered(true, Parsed(_)) => s.(submitStatus := Success, formData := EmptyForm)
      case _ => s.(submitStatus := Error);
    s'.(isSubmitting := false)
  }

  function AfterSubmit(s: PageState, outcome: ContactRoute.FetchOutcome): PageState {
    Settled(Started(s), outcome)
  }

  /** Starting a submit marks the form busy and resets the status, keeping the data. */
  lemma StartMarksBusy(s: PageState)
    ensures Started(s).isSubmitting && Started(s).submitStatus == Idle
    ensures Started(s).formData == s.formData
  {
  }

  /** The outcome decides the status: success (and an empty form) exactly for an OK
      response with a JSON body; any other outcome, including an OK response whose body
      is not JSON, is an error that keeps the form. The busy flag always ends false. */
  lemma SubmitOutcome(s: PageState, outcome: ContactRoute.FetchOutcome)
    ensures var t := AfterSubmit(s, outcome);
            && !t.isSubmitting
            && (t.submitStatus == Success <==> outcome.Answered? && outcome.ok && outcome.body.Parsed?)
            && (t.submitStatus == Success ==> t.formData == EmptyForm)
            && (t.submitStatus != Success ==> t.submitStatus == Error && t.formData == s.formData)
  {
  }

  /** With no client-side validation, a form the handler rejects still reaches it, and the
      page reports the handler's 400 as an error while keeping what was typed. */
  lemma RejectedFormKeepsData(s: PageState)
    requires ContactRoute.Post(RequestOf(s.formData)).status != ContactRoute.DefaultStatus
    ensures var t := AfterSubmit(s, ContactRoute.Deliver(ContactRoute.Post(RequestOf(s.formData))));
            t.submitStatus == Error && t.formData == s.formData
  {
    var r := ContactRoute.Post(RequestOf(s.formData));
    assert r.status in {400, 500};
  }

  function Get(f: FormData, field: Field): string {
    match field
    case Name => f.name
    case Email => f.email
    case Message => f.message
  }

  /** `{ ...formData, [field]: value }`. */
  function Update(f: FormData, field: Field, value: string): FormData {
    match field
    case Name => f.(name := value)
    case Email => f.(email := value)
    case Message => f.(message := value)
  }

  /** `handleChange` sets the named field and no other. */
  lemma UpdateOnlyNamedField(f: FormData, field: Field, value: string, other: Field)
    ensures Get(Update(f, field, value), field) == value
    ensures other != field ==> Get(Update(f, field, value), other) == Get(f, other)
  {
  }

  class ContactPage {
    var formData: FormData
    var isSubmitting: bool
    var submitStatus: SubmitStatus

    function State(): PageState
      reads this
    {
      PageState(formData, isSubmitting, submitStatus)
    }

    constructor ()
      ensures State() == PageState(EmptyForm, false, Idle)
    {
      formData := EmptyForm;
      isSubmitting := false;
      submitStatus := Idle;
    }

    /** `handleSubmit`, with the outcome of `fetch` and `response.json()` given. The form is
        always sent, exactly as it stands. */
    method HandleSubmit(outcome: ContactRoute.FetchOutcome) returns (sent: FormData)
      modifies this
      ensures sent == old(formData)
      ensures State() == AfterSubmit(old(State()), outcome)
    {
      isSubmitting := true;
      submitStatus := Idle;
      sent := formData;
      match outcome {
        case Answered(ok, Parsed(_)) =>
          if ok {
            submitStatus := Success;
            formData := EmptyForm;
          } else {
            submitStatus := Error;
          }
        case _ =>
          submitStatus := Error;
      }
      isSubmitting := false;
    }

    /** `handleChange`: replaces the named field. */
    method HandleChange(field: Field, value: string)
      modifies this`formData
      ensures formData == Update(old(formData), field, value)
    {
      match field {
        case Name => formData := formData.(name := value);
        case Email => formData := formData.(email := value);
        case Message => formData := formData.(message := value);
      }
    }
  }
}
