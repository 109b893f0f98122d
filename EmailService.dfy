/** The gateway over the email provider: the shapes it exchanges, the handling of a
    provider reply, the shaping of a send request, and the list pagination planner.
    A provider call is not made here: what the provider answered is an input. */
module EmailService {
  import opened Values

  /** A value of the `variables` record: a string or a number. */
  datatype VariableValue = VString(s: string) | VNumber(n: real)

  /** The service-facing shape of a send request. */
  datatype SendEmailRequestBody = SendEmailRequestBody(
    from: string,
    to: string,
    subject: string,
    templateId: string,
    variables: Option<map<string, VariableValue>>,
    scheduledAt: Option<string>)

  /** The pagination parameters of a list request; `None` is `undefined`. */
  datatype ListEmailsQuery = ListEmailsQuery(limit: Option<int>, skip: Option<int>, take: Option<int>)

  /** The bounds the query validator guarantees. */
  predicate InBounds(q: ListEmailsQuery) {
    && (q.limit.Some? ==> 1 <= q.limit.value <= 100)
    && (q.skip.Some? ==> 0 <= q.skip.value <= 100)
    && (q.take.Some? ==> 1 <= q.take.value <= 100)
  }

  // ---------------------------------------------------------------------------
  // Provider replies and their handling

  /** The structured error of a provider reply; its message may be missing. */
  datatype ProviderError = ProviderError(message: Option<string>)

  /** What a provider call threw: an `Error` with its message, or anything else. */
  datatype Thrown = ErrorInstance(message: string) | NonError

  /** The settled provider call: `{data, error}` as returned, or a thrown value. A
      `data` that is null or absent is `None`; the provider's data are objects, so
      `!data` holds exactly for `None`. */
  datatype Reply<T> = Returned(data: Option<T>, error: Option<ProviderError>) | Threw(thrown: Thrown)

  /** A record the provider returns for one e-mail (retrieved, cancelled or
      rescheduled): an object, passed on as it is. */
  type EmailRecord = map<string, Json>

  /** The result of a service operation. */
  datatype Outcome<T> = Ok(value: T) | Err(error: string)

  /** The data of a send reply: an object whose `id` may be missing. */
  datatype SendData = SendData(id: Option<string>)

  /** A page of the provider's listing: its items, its `has_more` flag and every
      other field of the response object. */
  datatype ListPage = ListPage(items: seq<Json>, hasMore: bool, others: map<string, Json>)

  const ResendErrorFallback := "Resend error"
  const MissingData := "Resend response missing data"
  const MissingId := "Resend response missing id"
  const UnknownError := "Unknown error"

  /** The message a `catch` block reports. */
  function CaughtMessage(t: Thrown): string {
    match t
    case ErrorInstance(m) => m
    case NonError => UnknownError
  }

  /** `error.message ?? "Resend error"` */
  function ErrorMessage(e: ProviderError): string {
    e.message.GetOr(ResendErrorFallback)
  }

  /** The reply handling of retrieveEmail, cancelEmail, rescheduleEmail and
      listEmails: a thrown call and a structured error win over any data, and
      success is never inferred from the absence of an error. */
  function Settle<T>(reply: Reply<T>): (r: Outcome<T>)
    ensures r.Ok? <==> reply.Returned? && reply.error.None? && reply.data.Some?
    ensures r.Ok? ==> r.value == reply.data.value
    ensures reply.Threw? ==> r == Err(CaughtMessage(reply.thrown))
    ensures reply.Returned? && reply.error.Some? ==> r == Err(ErrorMessage(reply.error.value))
    ensures reply.Returned? && reply.error.None? && reply.data.None? ==> r == Err(MissingData)
  {
    match reply
    case Threw(t) => Err(CaughtMessage(t))
    case Returned(data, error) =>
      if error.Some? then Err(ErrorMessage(error.value))
      else if data.None? then Err(MissingData)
      else Ok(data.value)
  }

  /** The reply handling of sendEmail: as `Settle`, but a reply whose data is
      missing or carries no (or an empty) id fails with "missing id". */
  function SendOutcome(reply: Reply<SendData>): (r: Outcome<string>)
    ensures r.Ok? <==> reply.Returned? && reply.error.None? && reply.data.Some?
                        && reply.data.value.id.Some? && reply.data.value.id.value != ""
    ensures r.Ok? ==> r.value == reply.data.value.id.value && r.value != ""
    ensures reply.Threw? ==> r == Err(CaughtMessage(reply.thrown))
    ensures reply.Returned? && reply.error.Some? ==> r == Err(ErrorMessage(reply.error.value))
    ensures reply.Returned? && reply.error.None? && !r.Ok? ==> r == Err(MissingId)
  {
    match reply
    case Threw(t) => Err(CaughtMessage(t))
    case Returned(data, error) =>
      if error.Some? then Err(ErrorMessage(error.value))
      else if data.None? || data.value.id.None? || data.value.id.value == "" then Err(MissingId)
      else Ok(data.value.id.value)
  }

  // ---------------------------------------------------------------------------
  // Shaping of the send request

  /** `template`: `{id: templateId}`, with `variables` added only when the payload's
      `variables` is truthy. An undefined `templateId` leaves no `id` key, as JSON
      serialisation drops undefined properties. */
  function TemplateFor(payload: map<string, Json>): (t: map<string, Json>)
    ensures "id" in t <==> "templateId" in payload
    ensures "id" in t ==> t["id"] == payload["templateId"]
    ensures "variables" in t <==> "variables" in payload && Truthy(payload["variables"])
    ensures "variables" in t ==> t["variables"] == payload["variables"]
    ensures t.Keys <= {"id", "variables"}
  {
    var withId: map<string, Json> := if "templateId" in payload then map["id" := payload["templateId"]] else map[];
    if "variables" in payload && Truthy(payload["variables"]) then withId["variables" := payload["variables"]]
    else withId
  }

  /** The request sendEmail hands to the provider, `{...rest, template}`: every
      field of the payload except `templateId` and `variables`, forwarded as it is,
      plus `template`. */
  function SendRequestFor(payload: map<string, Json>): (req: map<string, Json>)
    ensures req.Keys == payload.Keys - {"templateId", "variables"} + {"template"}
    ensures forall k | k in req && k != "template" :: req[k] == payload[k]
    ensures req["template"] == JObject(TemplateFor(payload))
  {
    (payload - {"templateId", "variables"})["template" := JObject(TemplateFor(payload))]
  }

  /** sendEmail: the request it sends and the result it reports for the reply. */
  datatype SendCall = SendCall(request: map<string, Json>, outcome: Outcome<string>)

  function SendEmail(payload: map<string, Json>, reply: Reply<SendData>): (c: SendCall)
    ensures c.request == SendRequestFor(payload)
    ensures c.outcome == SendOutcome(reply)
  {
    SendCall(SendRequestFor(payload), SendOutcome(reply))
  }

  // ---------------------------------------------------------------------------
  // The pagination planner

  function Min(a: int, b: int): int { if a <= b then a else b }
  function Max(a: int, b: int): int { if a >= b then a else b }

  /** `query.skip ?? 0` */
  function EffectiveSkip(q: ListEmailsQuery): int {
    q.skip.GetOr(0)
  }

  /** `query.take ?? query.limit`: `take` wins, `limit` is its older alias. */
  function EffectiveTake(q: ListEmailsQuery): (t: Option<int>)
    ensures q.take.Some? ==> t == q.take
    ensures q.take.None? ==> t == q.limit
  {
    if q.take.Some? then q.take else q.limit
  }

  /** The `limit` option sent upstream, `None` when no options object is sent at all.
      It never exceeds the provider's maximum of 100. */
  function UpstreamLimit(q: ListEmailsQuery): (limit: Option<int>)
    ensures limit.None? <==> EffectiveSkip(q) <= 0 && EffectiveTake(q).None?
    ensures limit.Some? ==> limit.value <= 100
  {
    var skip := EffectiveSkip(q);
    var take := EffectiveTake(q);
    var requested := if skip > 0 then Some(take.GetOr(20) + skip) else take;
    if requested.Some? then Some(Min(requested.value, 100)) else None
  }

  /** JavaScript's relative index of `slice`: negative counts from the end, and the
      result is clamped to `[0, len]`. */
  function RelativeIndex(i: int, len: nat): (k: nat)
    ensures k <= len
    ensures 0 <= i ==> k == Min(i, len)
  {
    if i < 0 then (if len + i < 0 then 0 else len + i)
    else if i > len then len
    else i
  }

  /** `s.slice(start, end)` */
  function Slice<T>(s: seq<T>, start: int, end: int): (r: seq<T>)
    ensures |r| <= |s|
  {
    var from := RelativeIndex(start, |s|);
    var to := RelativeIndex(end, |s|);
    if from < to then s[from..to] else []
  }

  /** The local window applied to the upstream page. */
  function Window(q: ListEmailsQuery, page: ListPage): (w: ListPage)
    ensures w.others == page.others
    ensures page.hasMore ==> w.hasMore
  {
    var skip := EffectiveSkip(q);
    var take := EffectiveTake(q);
    if skip == 0 && take.None? then page
    else
      var end := skip + take.GetOr(|page.items|);
      ListPage(Slice(page.items, skip, end), page.hasMore || end < |page.items|, page.others)
  }

  /** listEmails: the upstream limit it requests and the result it reports. */
  datatype ListCall = ListCall(limit: Option<int>, outcome: Outcome<ListPage>)

  function ListEmails(q: ListEmailsQuery, reply: Reply<ListPage>): (c: ListCall)
    ensures c.limit == UpstreamLimit(q)
    ensures c.outcome.Ok? <==> Settle(reply).Ok?
    ensures c.outcome.Ok? ==> c.outcome.value == Window(q, reply.data.value)
    ensures c.outcome.Err? ==> c.outcome == Settle(reply)
  {
    var outcome := match Settle(reply)
      case Ok(page) => Ok(Window(q, page))
      case Err(e) => Err(e);
    ListCall(UpstreamLimit(q), outcome)
  }

  // ---------------------------------------------------------------------------
  // Properties of the planner for validated queries

  /** For a validated query, no limit is sent exactly when neither skip nor take
      (nor limit) was given; otherwise the fetch size is the window's end, with 20
      as the page size when only skip was given, capped at 100. */
  lemma UpstreamLimitForValidQuery(q: ListEmailsQuery)
    requires InBounds(q)
    ensures UpstreamLimit(q).None? <==> EffectiveSkip(q) == 0 && EffectiveTake(q).None?
    ensures UpstreamLimit(q).Some? ==> 1 <= UpstreamLimit(q).value <= 100
    ensures UpstreamLimit(q).Some? ==>
      UpstreamLimit(q).value == Min(EffectiveSkip(q) + EffectiveTake(q).GetOr(20), 100)
  {
  }

  /** When the query gives neither skip nor take, no limit is sent and the upstream
      page comes back as it is. */
  lemma DefaultListIsPassThrough(q: ListEmailsQuery, page: ListPage)
    requires EffectiveSkip(q) == 0 && EffectiveTake(q).None?
    ensures UpstreamLimit(q) == None
    ensures Window(q, page) == page
  {
  }

  /** Otherwise the items are `items[skip .. min(skip + (take ?? len), len)]`, empty
      once skip reaches the end, `has_more` is upstream's flag or a local
      truncation, and every other field is upstream's. */
  lemma WindowOfValidQuery(q: ListEmailsQuery, page: ListPage)
    requires InBounds(q)
    requires !(EffectiveSkip(q) == 0 && EffectiveTake(q).None?)
    ensures var skip, len := EffectiveSkip(q), |page.items|;
            var end := skip + EffectiveTake(q).GetOr(len);
            && Window(q, page).items == (if skip >= len then [] else page.items[skip..Min(end, len)])
            && |Window(q, page).items| == Max(0, Min(EffectiveTake(q).GetOr(len), len - skip))
            && Window(q, page).hasMore == (page.hasMore || end < len)
            && Window(q, page).others == page.others
  {
  }

  /** The worked example: skip 5 and take 10 fetch 15 items; fifteen items without
      more upstream give items 5 to 14 and no more. */
  lemma SkipFiveTakeTen(page: ListPage)
    requires |page.items| == 15 && !page.hasMore
    ensures var q := ListEmailsQuery(None, Some(5), Some(10));
            && UpstreamLimit(q) == Some(15)
            && Window(q, page) == ListPage(page.items[5..15], false, page.others)
  {
  }
}
