/** The five HTTP handlers as mappings from their inputs (the request's parts and
    the provider's reply) to a status, a response body and the service call they
    make. A body-read failure or a validation failure answers 400 and calls no
    service; a service failure answers 502; success answers 200. */
module EmailController {
  import opened Values
  import opened Text
  import opened EmailService
  import opened Validation
  import opened Request

  /** The JSON bodies the handlers answer with. */
  datatype Body =
    | ErrorBody(error: string)          // {error}
    | ErrorsBody(errors: seq<string>)   // {errors}
    | IdBody(id: string)                // {id}
    | EmailBody(email: EmailRecord)     // the provider's e-mail record, as it is
    | PageBody(page: ListPage)          // the windowed list page

  datatype Response = Response(status: int, body: Body)

  /** A handler's response and the argument it called its service with, if it did. */
  datatype Handled<C> = Handled(response: Response, call: Option<C>)

  /** The path id as validateEmailId sees it. */
  function PathId(id: string): Option<Json> {
    Some(JString(id))
  }

  /** sendEmailHandler. The service receives the parsed body itself, not the
      validated value: its strings are untrimmed and its `template_id` is not
      renamed. */
  function SendEmailHandler(read: BodyRead, isEmail: string -> bool, reply: Reply<SendData>)
    : (h: Handled<map<string, Json>>)
    ensures h.response.status in {200, 400, 502}
    ensures ParseJsonBody(read).BodyError? ==> h == Handled(Response(400, ErrorBody(InvalidJsonBody)), None)
    ensures ParseJsonBody(read).Parsed? && ValidateSendEmailRequest(ParseJsonBody(read).value, isEmail).Invalid? ==>
              h == Handled(Response(400, ErrorsBody(ValidateSendEmailRequest(ParseJsonBody(read).value, isEmail).errors)), None)
    ensures h.call.Some? <==> read.BodyJson? && read.value.JObject?
                              && ValidateSendEmailRequest(read.value.fields, isEmail).Valid?
    ensures h.call.Some? ==> read == BodyJson(JObject(h.call.value))
    ensures h.response.status == 502 <==> h.call.Some? && SendOutcome(reply).Err?
    ensures h.response.status == 502 ==> h.response.body == ErrorBody(SendOutcome(reply).error)
    ensures h.response.status == 200 <==> h.call.Some? && SendOutcome(reply).Ok?
    ensures h.response.status == 200 ==> h.response.body == IdBody(SendOutcome(reply).value)
                                         && h.response.body.id != ""
  {
    match ParseJsonBody(read)
    case BodyError(e) => Handled(Response(400, ErrorBody(e)), None)
    case Parsed(payload) =>
      match ValidateSendEmailRequest(payload, isEmail)
      case Invalid(errors) => Handled(Response(400, ErrorsBody(errors)), None)
      case Valid(_) =>
        match SendEmail(payload, reply).outcome
        case Err(e) => Handled(Response(502, ErrorBody(e)), Some(payload))
        case Ok(id) => Handled(Response(200, IdBody(id)), Some(payload))
  }

  /** retrieveEmailHandler: the untrimmed path id goes to the service once its
      trimmed value is non-empty. */
  function RetrieveEmailHandler(id: string, reply: Reply<EmailRecord>): (h: Handled<string>)
    ensures h.response.status in {200, 400, 502}
    ensures h.response.status == 400 <==> Trim(id) == ""
    ensures h.response.status == 400 ==> h.response.body == ErrorsBody([RequiredMessage("id")])
    ensures h.call.Some? <==> Trim(id) != ""
    ensures h.call.Some? ==> h.call.value == id
    ensures h.response.status == 502 <==> h.call.Some? && Settle(reply).Err?
    ensures h.response.status == 502 ==> h.response.body == ErrorBody(Settle(reply).error)
    ensures h.response.status == 200 ==> h.response.body == EmailBody(reply.data.value)
  {
    match ValidateEmailId(PathId(id))
    case Invalid(errors) => Handled(Response(400, ErrorsBody(errors)), None)
    case Valid(_) =>
      match Settle(reply)
      case Err(e) => Handled(Response(502, ErrorBody(e)), Some(id))
      case Ok(email) => Handled(Response(200, EmailBody(email)), Some(id))
  }

  /** listEmailsHandler: the query strings are validated and the validated query
      (numbers, absent parameters left out) is what the service plans with. */
  function ListEmailsHandler(limit: Option<string>, skip: Option<string>, take: Option<string>,
                             toNumber: string -> Option<real>, reply: Reply<ListPage>)
    : (h: Handled<ListEmailsQuery>)
    ensures h.response.status in {200, 400, 502}
    ensures var v := ValidateListEmailsQuery(QueryOf(limit, skip, take), toNumber);
            && (h.response.status == 400 <==> v.Invalid?)
            && (v.Invalid? ==> h.response.body == ErrorsBody(v.errors))
            && (h.call.Some? <==> v.Valid?)
            && (h.call.Some? ==> h.call.value == v.value && InBounds(h.call.value))
    ensures h.call.Some? ==>
              var c := ListEmails(h.call.value, reply);
              && (h.response.status == 502 <==> c.outcome.Err?)
              && (c.outcome.Err? ==> h.response.body == ErrorBody(c.outcome.error))
              && (c.outcome.Ok? ==> h.response.body == PageBody(c.outcome.value))
  {
    match ValidateListEmailsQuery(QueryOf(limit, skip, take), toNumber)
    case Invalid(errors) => Handled(Response(400, ErrorsBody(errors)), None)
    case Valid(query) =>
      match ListEmails(query, reply).outcome
      case Err(e) => Handled(Response(502, ErrorBody(e)), Some(query))
      case Ok(page) => Handled(Response(200, PageBody(page)), Some(query))
  }

  /** The query object the handler builds: each parameter is the query string's
      value, or undefined when it is not in the URL. */
  function QueryOf(limit: Option<string>, skip: Option<string>, take: Option<string>): QueryParams {
    QueryParams(AsJson(limit), AsJson(skip), AsJson(take))
  }

  function AsJson(v: Option<string>): Option<Json> {
    match v
    case None => None
    case Some(s) => Some(JString(s))
  }

  /** cancelEmailHandler: as retrieveEmailHandler, with the cancel reply. */
  function CancelEmailHandler(id: string, reply: Reply<EmailRecord>): (h: Handled<string>)
    ensures h.response.status in {200, 400, 502}
    ensures h.response.status == 400 <==> Trim(id) == ""
    ensures h.response.status == 400 ==> h.response.body == ErrorsBody([RequiredMessage("id")])
    ensures h.call.Some? <==> Trim(id) != ""
    ensures h.call.Some? ==> h.call.value == id
    ensures h.response.status == 502 <==> h.call.Some? && Settle(reply).Err?
    ensures h.response.status == 502 ==> h.response.body == ErrorBody(Settle(reply).error)
    ensures h.response.status == 200 ==> h.response.body == EmailBody(reply.data.value)
  {
    match ValidateEmailId(PathId(id))
    case Invalid(errors) => Handled(Response(400, ErrorsBody(errors)), None)
    case Valid(_) =>
      match Settle(reply)
      case Err(e) => Handled(Response(502, ErrorBody(e)), Some(id))
      case Ok(email) => Handled(Response(200, EmailBody(email)), Some(id))
  }

  /** rescheduleEmailHandler: the id is checked before the body is read; the service
      gets the untrimmed id and the trimmed `scheduledAt`. */
  function RescheduleEmailHandler(id: string, read: BodyRead, reply: Reply<EmailRecord>): (h: Handled<(string, string)>)
    ensures h.response.status in {200, 400, 502}
    ensures Trim(id) == "" ==> h == Handled(Response(400, ErrorsBody([RequiredMessage("id")])), None)
    ensures Trim(id) != "" && ParseJsonBody(read).BodyError? ==>
              h == Handled(Response(400, ErrorBody(InvalidJsonBody)), None)
    ensures Trim(id) != "" && ParseJsonBody(read).Parsed?
              && ValidateRescheduleEmailRequest(ParseJsonBody(read).value).Invalid? ==>
              h == Handled(Response(400, ErrorsBody([RequiredMessage("scheduledAt")])), None)
    ensures h.call.Some? <==> Trim(id) != "" && ParseJsonBody(read).Parsed?
                              && ValidateRescheduleEmailRequest(ParseJsonBody(read).value).Valid?
    ensures h.call.Some? ==> h.call.value == (id, ValidateRescheduleEmailRequest(ParseJsonBody(read).value).value)
    ensures h.response.status == 502 <==> h.call.Some? && Settle(reply).Err?
    ensures h.response.status == 502 ==> h.response.body == ErrorBody(Settle(reply).error)
    ensures h.response.status == 200 ==> h.call.Some? && h.response.body == EmailBody(reply.data.value)
  {
    match ValidateEmailId(PathId(id))
    case Invalid(errors) => Handled(Response(400, ErrorsBody(errors)), None)
    case Valid(_) =>
      match ParseJsonBody(read)
      case BodyError(e) => Handled(Response(400, ErrorBody(e)), None)
      case Parsed(body) =>
        match ValidateRescheduleEmailRequest(body)
        case Invalid(errors) => Handled(Response(400, ErrorsBody(errors)), None)
        case Valid(scheduledAt) =>
          match Settle(reply)
          case Err(e) => Handled(Response(502, ErrorBody(e)), Some((id, scheduledAt)))
          case Ok(email) => Handled(Response(200, EmailBody(email)), Some((id, scheduledAt)))
  }

  // ---------------------------------------------------------------------------
  // Consequences

  /** The send handler forwards the parsed body of a valid request unchanged. */
  lemma SendForwardsParsedBody(p: map<string, Json>, isEmail: string -> bool, reply: Reply<SendData>)
    requires ValidateSendEmailRequest(p, isEmail).Valid?
    ensures SendEmailHandler(BodyJson(JObject(p)), isEmail, reply).call == Some(p)
  {
  }

  /** Hence a request that spells the template as `template_id` (the only spelling
      validation accepts) and not `templateId` reaches the provider with a `template` that has
      no `id`, and with `template_id` as an untouched top-level field. */
  lemma ForwardedBodyLosesTemplateId(p: map<string, Json>, isEmail: string -> bool)
    requires "template_id" in p && "templateId" !in p
    ensures "id" !in SendRequestFor(p)["template"].fields
    ensures "template_id" in SendRequestFor(p) && SendRequestFor(p)["template_id"] == p["template_id"]
  {
    assert "template_id" !in {"templateId", "variables"};
  }

  /** Every accepted send request carries `template_id`. */
  lemma ValidRequestHasTemplateId(p: map<string, Json>, isEmail: string -> bool)
    requires ValidateSendEmailRequest(p, isEmail).Valid?
    ensures "template_id" in p
  {
    assert IsText(Lookup(p, "template_id"));
  }

  /** A malformed body never outranks a bad id: the id error comes first. */
  lemma BadIdBeforeBadBody(id: string, reply: Reply<EmailRecord>)
    requires Trim(id) == ""
    ensures RescheduleEmailHandler(id, BodyThrows, reply).response == Response(400, ErrorsBody([RequiredMessage("id")]))
  {
  }

  /** A padded id passes validation and is forwarded with its padding. */
  lemma PaddedIdForwarded(id: string, reply: Reply<EmailRecord>)
    requires Trim(id) != "" && Trim(id) != id
    ensures RetrieveEmailHandler(id, reply).call == Some(id)
    ensures CancelEmailHandler(id, reply).call == Some(id)
    ensures RetrieveEmailHandler(id, reply).call.value != Trim(id)
  {
  }

  /** A provider exception surfaces as a 502 with its message, never as a 200. */
  lemma ThrownServiceIs502(id: string, message: string)
    requires Trim(id) != ""
    ensures RetrieveEmailHandler(id, Threw(ErrorInstance(message))).response == Response(502, ErrorBody(message))
    ensures CancelEmailHandler(id, Threw(NonError)).response == Response(502, ErrorBody(UnknownError))
  {
  }

  /** A reply without an error whose record is null or missing is a provider
      failure: retrieve, cancel and reschedule answer 502 "Resend response missing
      data", never 200. */
  lemma MissingRecordIs502(id: string, p: map<string, Json>)
    requires Trim(id) != ""
    requires IsText(Lookup(p, "scheduledAt"))
    ensures RetrieveEmailHandler(id, Returned(None, None)).response == Response(502, ErrorBody(MissingData))
    ensures CancelEmailHandler(id, Returned(None, None)).response == Response(502, ErrorBody(MissingData))
    ensures RescheduleEmailHandler(id, BodyJson(JObject(p)), Returned(None, None)).response
         == Response(502, ErrorBody(MissingData))
  {
  }
}
