/** The `POST /api/contact` handler (src/app/api/contact/route.ts) and the view a browser
    gets of its responses. */
module ContactRoute {
  import opened Base
  import EmailPattern

  /** What `await req.json()` and the destructuring of `{ name, email, message }` give.
      `NotJson` stands for a body that is not JSON, or JSON that cannot be destructured
      (such as `null`): both throw and land in the `catch`. An absent or `null` field is `None`. */
  datatype RequestBody =
    | NotJson
    | Fields(name: Option<string>, email: Option<string>, message: Option<string>)

  /** The JSON object of a response: `{ success: true, message }` or `{ error }`. */
  datatype Payload = Acknowledged(message: string) | Failed(error: string)

  datatype Response = Response(status: int, payload: Payload)

  const MissingFields := "Missing required fields"
  const InvalidEmailFormat := "Invalid email format"
  const SendFailed := "Failed to send message. Please try again later."
  const Acknowledgement := "Thank you for your message! I'll get back to you soon."

  /** `NextResponse.json` without an explicit status answers 200. */
  const DefaultStatus := 200

  /** JavaScript truthiness of an optional string: absent and `''` are falsy. */
  predicate Truthy(f: Option<string>) {
    f.Some? && f.value != ""
  }

  /** The handler: the missing-field check, then the e-mail shape check, then the
      acknowledgement; anything thrown becomes a 500. */
  function Post(body: RequestBody): (r: Response)
    ensures r.status == DefaultStatus <==>
              body.Fields? && Truthy(body.email) && Truthy(body.message)
              && EmailPattern.Matches(body.email.value)
    ensures r.status == DefaultStatus <==> r.payload.Acknowledged?
    ensures r.status in {DefaultStatus, 400, 500}
  {
    match body
    case NotJson => Response(500, Failed(SendFailed))
    case Fields(_, email, message) =>
      if !Truthy(email) || !Truthy(message) then
        Response(400, Failed(MissingFields))
      else if !EmailPattern.Matches(email.value) then
        Response(400, Failed(InvalidEmailFormat))
      else
        Response(DefaultStatus, Acknowledged(Acknowledgement))
  }

  /** A missing or empty `email` or `message` gets 400 'Missing required fields', and
      this check comes first: an empty e-mail is never reported as badly formatted. */
  lemma MissingFieldsRejectedFirst(name: Option<string>, email: Option<string>, message: Option<string>)
    requires !Truthy(email) || !Truthy(message)
    ensures Post(Fields(name, email, message)) == Response(400, Failed(MissingFields))
    ensures Post(Fields(name, email, message)).payload != Failed(InvalidEmailFormat)
  {
  }

  /** With both fields present, the answer is 400 'Invalid email format' exactly when the
      pattern rejects the e-mail, and the acknowledgement exactly when it accepts it. */
  lemma FormatCheck(name: Option<string>, email: string, message: string)
    requires email != "" && message != ""
    ensures Post(Fields(name, Some(email), Some(message))) == Response(400, Failed(InvalidEmailFormat))
            <==> !EmailPattern.Matches(email)
    ensures Post(Fields(name, Some(email), Some(message))) == Response(DefaultStatus, Acknowledged(Acknowledgement))
            <==> EmailPattern.Matches(email)
  {
  }

  /** Every e-mail the handler accepts has exactly one `@`, no white space and at least
      five characters. */
  lemma AcceptedEmailShape(body: RequestBody)
    requires Post(body).status == DefaultStatus
    ensures body.Fields? && body.email.Some?
    ensures multiset(body.email.value)['@'] == 1
    ensures EmailPattern.NoWhiteSpace(body.email.value)
    ensures |body.email.value| >= 5
  {
    EmailPattern.MatchedAddressShape(body.email.value);
  }

  /** The message is neither trimmed nor measured: with a well-formed e-mail, any
      non-empty message of white space only is accepted. */
  lemma BlankMessageAccepted(name: Option<string>, email: string, message: string)
    requires EmailPattern.Matches(email)
    requires message != "" && AllWhiteSpace(message)
    ensures Post(Fields(name, Some(email), Some(message))) == Response(DefaultStatus, Acknowledged(Acknowledgement))
  {
    EmailPattern.MatchedAddressShape(email);
  }

  /** `name` never changes the answer. */
  lemma NameIgnored(n1: Option<string>, n2: Option<string>, email: Option<string>, message: Option<string>)
    ensures Post(Fields(n1, email, message)) == Post(Fields(n2, email, message))
  {
  }

  /** A body that cannot be read as JSON fields gets 500 with the generic error and no
      success flag. */
  lemma UnreadableBodyFails()
    ensures Post(NotJson) == Response(500, Failed(SendFailed))
    ensures !Post(NotJson).payload.Acknowledged?
  {
  }

  /** How a browser sees the outcome of `fetch` followed by `response.json()`. */
  datatype FetchOutcome =
    | Threw                                  // fetch itself rejected (network failure)
    | Answered(ok: bool, body: ReplyBody)    // a response arrived; `ok` is a 2xx status

  datatype ReplyBody =
    | Unparsable                             // `response.json()` throws
    | Parsed(error: Option<string>)          // the body's `error` field, if any

  /** The outcome a browser observes when the handler's response reaches it intact. */
  function Deliver(r: Response): (o: FetchOutcome)
    ensures o.Answered? && o.body.Parsed?
    ensures o.ok <==> 200 <= r.status < 300
    ensures o.body.error.Some? <==> r.payload.Failed?
  {
    Answered(200 <= r.status < 300,
             Parsed(if r.payload.Failed? then Some(r.payload.error) else None))
  }
}
