/** The contact section's form: field edits, focus tracking and the submit cycle, which posts
    the form to the contact route and maps its answer to a status and a message. */
module ContactSection {
  import opened JsValues
  import ContactRoute

  datatype FormData = FormData(name: string, email: string, company: string, message: string, service: string)

  const EmptyForm := FormData("", "", "", "", "web-development")

  datatype Field = Name | Email | Company | Message | Service

  function FieldValue(f: FormData, field: Field): string {
    match field
    case Name => f.name
    case Email => f.email
    case Company => f.company
    case Message => f.message
    case Service => f.service
  }

  /** `{...formData, [name]: value}`: the named field takes the value, the other four keep theirs. */
  function WithField(f: FormData, field: Field, value: string): (g: FormData)
    ensures FieldValue(g, field) == value
    ensures forall other :: other != field ==> FieldValue(g, other) == FieldValue(f, other)
  {
    match field
    case Name => f.(name := value)
    case Email => f.(email := value)
    case Company => f.(company := value)
    case Message => f.(message := value)
    case Service => f.(service := value)
  }

  /** A form is determined by its five field values, so `WithField` changes exactly one thing. */
  lemma WithFieldSameValueIsIdentity(f: FormData, field: Field)
    ensures WithField(f, field, FieldValue(f, field)) == f
  {
    var g := WithField(f, field, FieldValue(f, field));
    assert forall x :: FieldValue(g, x) == FieldValue(f, x);
    assert FieldValue(g, Name) == f.name && FieldValue(g, Email) == f.email;
    assert FieldValue(g, Company) == f.company && FieldValue(g, Message) == f.message;
    assert FieldValue(g, Service) == f.service;
  }

  datatype SubmitStatus = Idle | Success | Error

  /** What the `fetch` and `response.json()` pair yields: a throw, or a response with its `ok`
      flag and the `message` and `error` fields of its JSON body. */
  datatype FetchOutcome = Thrown | Answered(ok: bool, message: Option<string>, error: Option<string>)

  const FallbackError := "Something went wrong. Please try again."
  const NetworkError := "Network error. Please check your connection and try again."

  /** The status, message and form after the request settles. */
  datatype Settled = Settled(status: SubmitStatus, message: Option<string>, form: FormData)

  function Settle(form: FormData, outcome: FetchOutcome): (r: Settled)
    ensures outcome.Thrown? ==> r == Settled(Error, Some(NetworkError), form)
    ensures outcome.Answered? && outcome.ok ==> r == Settled(Success, outcome.message, EmptyForm)
    ensures outcome.Answered? && !outcome.ok ==>
              && r.status == Error && r.form == form
              && r.message == Some(if IsFalsyString(outcome.error) then FallbackError else outcome.error.value)
    ensures r.status != Idle
    ensures r.status == Success <==> outcome.Answered? && outcome.ok
  {
    match outcome
    case Thrown => Settled(Error, Some(NetworkError), form)
    case Answered(ok, message, error) =>
      if ok then Settled(Success, message, EmptyForm)
      else Settled(Error, Some(if IsFalsyString(error) then FallbackError else error.value), form)
  }

  /** The body `JSON.stringify(formData)` sends. */
  function BodyOf(f: FormData): ContactRoute.RequestBody {
    ContactRoute.RequestBody(Some(f.name), Some(f.email), Some(f.company), Some(f.message), Some(f.service))
  }

  /** The outcome the form sees when the route answers: `ok` for a 2xx status. */
  function Answer(resp: ContactRoute.Response): FetchOutcome {
    Answered(200 <= resp.status < 300, resp.payload.message, resp.payload.error)
  }

  /** Submitting a form to the contact route: success (and an empty form) exactly when the
      name and message are filled in and the email matches the pattern; otherwise the route's
      own error message, with the form kept for correction. */
  lemma SubmitThroughRoute(f: FormData)
    ensures var s := Settle(f, Answer(ContactRoute.Post(ContactRoute.Parsed(BodyOf(f)))));
            && (s.status == Success <==> f.name != "" && f.message != "" && ContactRoute.EmailPattern(f.email))
            && (s.status == Success ==> s.message == Some(ContactRoute.ThankYouMessage) && s.form == EmptyForm)
            && (s.status == Error ==> s.form == f)
            && ((f.name == "" || f.email == "" || f.message == "") ==> s.message == Some("Missing required fields"))
            && (f.name != "" && f.email != "" && f.message != "" && !ContactRoute.EmailPattern(f.email)
                ==> s.message == Some("Invalid email format"))
  {
    var resp := ContactRoute.Post(ContactRoute.Parsed(BodyOf(f)));
    assert resp in {ContactRoute.MissingFieldsResponse, ContactRoute.InvalidEmailResponse,
                    ContactRoute.SuccessResponse, ContactRoute.ServerErrorResponse};
  }

  class ContactView {
    var formData: FormData
    var isSubmitting: bool
    var submitStatus: SubmitStatus
    var submitMessage: Option<string>
    var focusedField: Option<Field>

    constructor ()
      ensures formData == EmptyForm && !isSubmitting && submitStatus == Idle
      ensures submitMessage == Some("") && focusedField == None
    {
      formData := EmptyForm;
      isSubmitting := false;
      submitStatus := Idle;
      submitMessage := Some("");
      focusedField := None;
    }

    method HandleChange(field: Field, value: string)
      modifies this`formData
      ensures formData == WithField(old(formData), field, value)
    {
      formData := WithField(formData, field, value);
    }

    method HandleFieldFocus(field: Field)
      modifies this`focusedField
      ensures focusedField == Some(field)
    {
      focusedField := Some(field);
    }

    method HandleFieldBlur()
      modifies this`focusedField
      ensures focusedField == None
    {
      focusedField := None;
    }

    /** The synchronous start of `handleSubmit`; it returns the body to send. The page's own
        form validation, which may stop the submit before this runs, is not part of it. */
    method BeginSubmit() returns (body: ContactRoute.RequestBody)
      modifies this`isSubmitting, this`submitStatus
      ensures isSubmitting && submitStatus == Idle
      ensures body == BodyOf(formData)
    {
      isSubmitting := true;
      submitStatus := Idle;
      body := BodyOf(formData);
    }

    /** The rest of `handleSubmit`, once the request has settled with `outcome`. */
    method FinishSubmit(outcome: FetchOutcome)
      modifies this`isSubmitting, this`submitStatus, this`submitMessage, this`formData
      ensures Settled(submitStatus, submitMessage, formData) == Settle(old(formData), outcome)
      ensures !isSubmitting
    {
      match outcome {
        case Answered(ok, message, error) =>
          if ok {
            submitStatus := Success;
            submitMessage := message;
            formData := EmptyForm;
          } else {
            submitStatus := Error;
            submitMessage := Some(if IsFalsyString(error) then FallbackError else error.value);
          }
        case Thrown =>
          submitStatus := Error;
          submitMessage := Some(NetworkError);
      }
      isSubmitting := false;
    }
  }
}
