/** The request validators: each turns untrusted input into a trimmed, typed value
    or into the list of distinct error messages of the fields that failed, in the
    order of the schema's fields. A schema field's rules all run, so one field can
    raise the same message more than once; the final list drops the repeats. */
module Validation {
  import opened Values
  import opened Text
  import opened Lists
  import opened EmailService

  datatype Validated<T> = Valid(value: T) | Invalid(errors: seq<string>)

  /** The result of one schema field: its parsed value, or the messages of the rules
      it broke (never none). */
  datatype Checked<T> = Passed(value: T) | Failed(issues: seq<string>) {
    function Issues(): seq<string> {
      if Failed? then issues else []
    }
  }

  function RequiredMessage(field: string): string {
    "Invalid or missing '" + field + "'"
  }

  function InvalidMessage(field: string): string {
    "Invalid '" + field + "'"
  }

  /** zod's default messages, used where the schema gives none. */
  const ZodRequired := "Required"
  const ZodInvalidUnion := "Invalid input"
  function ZodExpectedObject(v: Json): string {
    "Expected object, received " + TypeName(v)
  }

  // ---------------------------------------------------------------------------
  // Field rules

  /** A string whose trimmed value is not empty. */
  predicate IsText(v: Option<Json>) {
    v.Some? && v.value.JString? && Trim(v.value.s) != ""
  }

  /** A required string field, trimmed, at least one character long. */
  function RequiredText(v: Option<Json>, message: string): (c: Checked<string>)
    ensures c.Passed? <==> IsText(v)
    ensures c.Passed? ==> c.value == Trim(v.value.s) && c.value != ""
    ensures c.Failed? ==> c.issues == [message]
  {
    match v
    case Some(JString(s)) => if Trim(s) == "" then Failed([message]) else Passed(Trim(s))
    case _ => Failed([message])
  }

  /** Absent, or a string whose trimmed value is not empty. */
  predicate TextOrAbsent(v: Option<Json>) {
    v.None? || IsText(v)
  }

  /** An optional string field: absent is fine, anything else must be text. */
  function OptionalText(v: Option<Json>, message: string): (c: Checked<Option<string>>)
    ensures c.Passed? <==> TextOrAbsent(v)
    ensures c.Passed? && v.Some? ==> c.value == Some(Trim(v.value.s))
    ensures c.Passed? && v.None? ==> c.value == None
    ensures c.Failed? ==> c.issues == [message]
  {
    match v
    case None => Passed(None)
    case Some(JString(s)) => if Trim(s) == "" then Failed([message]) else Passed(Some(Trim(s)))
    case Some(_) => Failed([message])
  }

  /** Non-blank text whose trimmed value the e-mail check accepts. */
  predicate IsEmailText(v: Option<Json>, isEmail: string -> bool) {
    IsText(v) && isEmail(Trim(v.value.s))
  }

  /** A required e-mail field: trimmed, at least one character, and accepted by the
      e-mail check. An empty string breaks both rules and raises the message twice. */
  function EmailText(v: Option<Json>, message: string, isEmail: string -> bool): (c: Checked<string>)
    ensures c.Passed? <==> IsEmailText(v, isEmail)
    ensures c.Passed? ==> c.value == Trim(v.value.s)
    ensures c.Failed? ==> c.issues != [] && Uniform(c.issues, message)
  {
    match v
    case Some(JString(s)) =>
      var t := Trim(s);
      if t != "" && isEmail(t) then Passed(t)
      else Failed((if t == "" then [message] else []) + (if isEmail(t) then [] else [message]))
    case _ => Failed([message])
  }

  predicate IsVariableValue(v: Json) {
    v.JString? || v.JNumber?
  }

  /** Absent, or an object whose every value is a string or a number. */
  predicate VariablesOrAbsent(v: Option<Json>) {
    v.None? || (v.value.JObject? && forall k | k in v.value.fields :: IsVariableValue(v.value.fields[k]))
  }

  /** `m` holds the entries of the object `fields` unchanged: the same keys, a string
      entry as that string and a number entry as that number. */
  predicate VariablesCopied(m: map<string, VariableValue>, fields: map<string, Json>) {
    && m.Keys == fields.Keys
    && forall k | k in fields ::
         && (fields[k].JString? ==> m[k] == VString(fields[k].s))
         && (fields[k].JNumber? ==> m[k] == VNumber(fields[k].n))
  }

  function ToVariableValue(v: Json): VariableValue
    requires IsVariableValue(v)
  {
    if v.JString? then VString(v.s) else VNumber(v.n)
  }

  /** `variables`: optional; when present an object whose values are strings or
      numbers. Its messages are zod's defaults; an object with several bad entries
      raises "Invalid input" once per entry, which the final list collapses, so one
      is kept here. */
  function VariablesField(v: Option<Json>): (c: Checked<Option<map<string, VariableValue>>>)
    ensures c.Passed? <==> VariablesOrAbsent(v)
    ensures c.Passed? ==> (c.value.Some? <==> v.Some?)
    ensures c.Passed? && v.Some? ==> VariablesCopied(c.value.value, v.value.fields)
    ensures c.Failed? ==> |c.issues| == 1
    ensures c.Failed? ==> IsZodDefault(c.issues[0])
  {
    match v
    case None => Passed(None)
    case Some(JObject(m)) =>
      if forall k | k in m :: IsVariableValue(m[k]) then Passed(Some(map k | k in m :: ToVariableValue(m[k])))
      else Failed([ZodInvalidUnion])
    case Some(other) => Failed([ZodExpectedObject(other)])
  }

  // ---------------------------------------------------------------------------
  // validateSendEmailRequest

  /** The schema's fields and their rules, in the schema's order. */
  function ToField(p: map<string, Json>): Checked<string> { RequiredText(Lookup(p, "to"), RequiredMessage("to")) }
  function SubjectField(p: map<string, Json>): Checked<string> { RequiredText(Lookup(p, "subject"), RequiredMessage("subject")) }
  function TemplateIdField(p: map<string, Json>): Checked<string> { RequiredText(Lookup(p, "template_id"), RequiredMessage("template_id")) }
  function ScheduledAtField(p: map<string, Json>): Checked<Option<string>> { OptionalText(Lookup(p, "scheduledAt"), InvalidMessage("scheduledAt")) }
  function FromField(p: map<string, Json>, isEmail: string -> bool): Checked<string> { EmailText(Lookup(p, "from"), RequiredMessage("from"), isEmail) }

  /** Every message the schema raises, field by field, repeats included. */
  function SendIssues(p: map<string, Json>, isEmail: string -> bool): seq<string> {
    ToField(p).Issues() + SubjectField(p).Issues() + TemplateIdField(p).Issues()
    + VariablesField(Lookup(p, "variables")).Issues() + ScheduledAtField(p).Issues()
    + FromField(p, isEmail).Issues()
  }

  /** The fields a send request must carry other than `from`, stated rule by rule. */
  predicate ContentAcceptable(p: map<string, Json>) {
    && IsText(Lookup(p, "to"))
    && IsText(Lookup(p, "subject"))
    && IsText(Lookup(p, "template_id"))
    && VariablesOrAbsent(Lookup(p, "variables"))
    && TextOrAbsent(Lookup(p, "scheduledAt"))
  }

  /** `from`: non-blank text whose trimmed value the e-mail check accepts. */
  predicate SenderAcceptable(p: map<string, Json>, isEmail: string -> bool) {
    IsEmailText(Lookup(p, "from"), isEmail)
  }

  /** validateSendEmailRequest over the fields of the parsed body. On success every
      string is trimmed and `template_id` is renamed to `templateId`; on failure the
      list is non-empty and free of duplicates. */
  function ValidateSendEmailRequest(p: map<string, Json>, isEmail: string -> bool): (r: Validated<SendEmailRequestBody>)
    ensures r.Valid? <==> ContentAcceptable(p) && SenderAcceptable(p, isEmail)
    ensures r.Valid? ==>
      && r.value.to == Trim(Lookup(p, "to").value.s)
      && r.value.subject == Trim(Lookup(p, "subject").value.s)
      && r.value.templateId == Trim(Lookup(p, "template_id").value.s)
      && r.value.from == Trim(Lookup(p, "from").value.s)
      && (r.value.scheduledAt.Some? <==> Lookup(p, "scheduledAt").Some?)
      && (r.value.scheduledAt.Some? ==> r.value.scheduledAt.value == Trim(Lookup(p, "scheduledAt").value.s))
      && (r.value.variables.Some? <==> Lookup(p, "variables").Some?)
      && (r.value.variables.Some? ==> VariablesCopied(r.value.variables.value, Lookup(p, "variables").value.fields))
    ensures r.Invalid? ==> r.errors != [] && NoDuplicates(r.errors)
  {
    var to, subject, templateId := ToField(p), SubjectField(p), TemplateIdField(p);
    var variables, scheduledAt, from := VariablesField(Lookup(p, "variables")), ScheduledAtField(p), FromField(p, isEmail);
    if to.Passed? && subject.Passed? && templateId.Passed? && variables.Passed? && scheduledAt.Passed? && from.Passed? then
      Valid(SendEmailRequestBody(from.value, to.value, subject.value, templateId.value, variables.value, scheduledAt.value))
    else
      assert SendIssues(p, isEmail) != [];
      Invalid(Dedup(SendIssues(p, isEmail)))
  }

  /** The messages a rejected send request gets, written field by field: one per
      failing field, in the order to, subject, template_id, variables, scheduledAt,
      from. */
  function ExpectedSendErrors(p: map<string, Json>, isEmail: string -> bool): seq<string> {
    (if IsText(Lookup(p, "to")) then [] else [RequiredMessage("to")])
    + (if IsText(Lookup(p, "subject")) then [] else [RequiredMessage("subject")])
    + (if IsText(Lookup(p, "template_id")) then [] else [RequiredMessage("template_id")])
    + VariablesField(Lookup(p, "variables")).Issues()
    + (if TextOrAbsent(Lookup(p, "scheduledAt")) then [] else [InvalidMessage("scheduledAt")])
    + (if IsEmailText(Lookup(p, "from"), isEmail) then [] else [RequiredMessage("from")])
  }

  /** The two zod defaults `variables` can raise. */
  ghost predicate IsZodDefault(m: string) {
    m == ZodInvalidUnion || exists v: Json :: m == ZodExpectedObject(v)
  }

  /** The messages of different fields differ. */
  lemma MessagesDiffer()
    ensures RequiredMessage("to") != RequiredMessage("subject")
    ensures RequiredMessage("to") != RequiredMessage("template_id")
    ensures RequiredMessage("to") != RequiredMessage("from")
    ensures RequiredMessage("subject") != RequiredMessage("template_id")
    ensures RequiredMessage("subject") != RequiredMessage("from")
    ensures RequiredMessage("template_id") != RequiredMessage("from")
    ensures InvalidMessage("scheduledAt") != RequiredMessage("to")
    ensures InvalidMessage("scheduledAt") != RequiredMessage("subject")
    ensures InvalidMessage("scheduledAt") != RequiredMessage("template_id")
    ensures InvalidMessage("scheduledAt") != RequiredMessage("from")
  {
  }

  /** zod's messages for `variables` differ from every field message. */
  lemma VariablesMessagesDiffer(m: string)
    requires IsZodDefault(m)
    ensures m !in [RequiredMessage("to"), RequiredMessage("subject"), RequiredMessage("template_id"),
                   InvalidMessage("scheduledAt"), RequiredMessage("from")]
  {
    if m == ZodInvalidUnion {
      assert m[8] == 'i';
    } else {
      var v: Json :| m == ZodExpectedObject(v);
      assert m[0] == 'E';
    }
  }

  /** A rejected send request gets exactly one message per failing field, in the
      schema's field order. */
  lemma SendErrorsInSchemaOrder(p: map<string, Json>, isEmail: string -> bool)
    requires !(ContentAcceptable(p) && SenderAcceptable(p, isEmail))
    ensures ValidateSendEmailRequest(p, isEmail) == Invalid(ExpectedSendErrors(p, isEmail))
  {
    SendIssuesCollapse(p, isEmail);
  }

  lemma SendIssuesCollapse(p: map<string, Json>, isEmail: string -> bool)
    ensures Dedup(SendIssues(p, isEmail)) == ExpectedSendErrors(p, isEmail)
  {
    var a := ToField(p).Issues();
    var b := SubjectField(p).Issues();
    var c := TemplateIdField(p).Issues();
    var d := VariablesField(Lookup(p, "variables")).Issues();
    var e := ScheduledAtField(p).Issues();
    var f := FromField(p, isEmail).Issues();
    var mA, mB, mC := RequiredMessage("to"), RequiredMessage("subject"), RequiredMessage("template_id");
    var mD := if d == [] then ZodInvalidUnion else d[0];
    var mE, mF := InvalidMessage("scheduledAt"), RequiredMessage("from");
    MessagesDiffer();
    VariablesMessagesDiffer(mD);
    RequiredTextBlock(Lookup(p, "to"), mA);
    RequiredTextBlock(Lookup(p, "subject"), mB);
    RequiredTextBlock(Lookup(p, "template_id"), mC);
    VariablesBlock(Lookup(p, "variables"));
    OptionalTextBlock(Lookup(p, "scheduledAt"), mE);
    EmailTextBlock(Lookup(p, "from"), mF, isEmail);
    DedupOfSixBlocks(a, b, c, d, e, f, mA, mB, mC, mD, mE, mF);
    assert SendIssues(p, isEmail) == a + b + c + d + e + f;
  }

  lemma RequiredTextBlock(v: Option<Json>, m: string)
    ensures Uniform(RequiredText(v, m).Issues(), m)
    ensures Collapse(RequiredText(v, m).Issues(), m) == if IsText(v) then [] else [m]
  {
  }

  lemma OptionalTextBlock(v: Option<Json>, m: string)
    ensures Uniform(OptionalText(v, m).Issues(), m)
    ensures Collapse(OptionalText(v, m).Issues(), m) == if TextOrAbsent(v) then [] else [m]
  {
  }

  lemma EmailTextBlock(v: Option<Json>, m: string, isEmail: string -> bool)
    ensures Uniform(EmailText(v, m, isEmail).Issues(), m)
    ensures Collapse(EmailText(v, m, isEmail).Issues(), m) == if IsEmailText(v, isEmail) then [] else [m]
  {
  }

  lemma VariablesBlock(v: Option<Json>)
    ensures var d := VariablesField(v).Issues();
            |d| <= 1 && (d != [] ==> IsZodDefault(d[0]))
            && Uniform(d, if d == [] then ZodInvalidUnion else d[0])
            && Collapse(d, if d == [] then ZodInvalidUnion else d[0]) == d
  {
  }

  /** A request whose other fields are fine and whose `from` is non-blank text that
      the e-mail check refuses gets exactly the `from` message. */
  lemma FromNotAnEmail(p: map<string, Json>, isEmail: string -> bool)
    requires ContentAcceptable(p)
    requires IsText(Lookup(p, "from")) && !isEmail(Trim(Lookup(p, "from").value.s))
    ensures ValidateSendEmailRequest(p, isEmail) == Invalid([RequiredMessage("from")])
  {
    assert VariablesField(Lookup(p, "variables")).Issues() == [];
    assert ExpectedSendErrors(p, isEmail) == [RequiredMessage("from")];
    SendErrorsInSchemaOrder(p, isEmail);
  }

  /** A string field holding only whitespace. */
  predicate IsBlank(v: Option<Json>) {
    v.Some? && v.value.JString? && AllWhitespace(v.value.s)
  }

  /** A blank e-mail field breaks the length rule and, unless the e-mail check
      accepts the empty string, the e-mail rule too: the message comes twice. */
  lemma EmailTextOfBlank(v: Option<Json>, m: string, isEmail: string -> bool)
    requires IsBlank(v)
    ensures EmailText(v, m, isEmail) == Failed(if isEmail("") then [m] else [m, m])
  {
  }

  /** A blank `from` is reported once, however many of its rules it breaks. */
  lemma BlankFromReportedOnce(p: map<string, Json>, isEmail: string -> bool)
    requires ContentAcceptable(p)
    requires IsBlank(Lookup(p, "from"))
    ensures ValidateSendEmailRequest(p, isEmail) == Invalid([RequiredMessage("from")])
  {
    assert !IsText(Lookup(p, "from"));
    assert VariablesField(Lookup(p, "variables")).Issues() == [];
    assert ExpectedSendErrors(p, isEmail) == [RequiredMessage("from")];
    SendErrorsInSchemaOrder(p, isEmail);
  }

  /** A present but blank or non-string `scheduledAt`, with every other field fine,
      gets exactly the `scheduledAt` message. */
  lemma BlankScheduledAt(p: map<string, Json>, isEmail: string -> bool)
    requires IsText(Lookup(p, "to")) && IsText(Lookup(p, "subject")) && IsText(Lookup(p, "template_id"))
    requires VariablesOrAbsent(Lookup(p, "variables")) && SenderAcceptable(p, isEmail)
    requires Lookup(p, "scheduledAt").Some? && !IsText(Lookup(p, "scheduledAt"))
    ensures ValidateSendEmailRequest(p, isEmail) == Invalid([InvalidMessage("scheduledAt")])
  {
    OnlyScheduledAtFails(p, isEmail);
    SendErrorsInSchemaOrder(p, isEmail);
  }

  lemma OnlyScheduledAtFails(p: map<string, Json>, isEmail: string -> bool)
    requires IsText(Lookup(p, "to")) && IsText(Lookup(p, "subject")) && IsText(Lookup(p, "template_id"))
    requires VariablesOrAbsent(Lookup(p, "variables")) && SenderAcceptable(p, isEmail)
    requires Lookup(p, "scheduledAt").Some? && !IsText(Lookup(p, "scheduledAt"))
    ensures ExpectedSendErrors(p, isEmail) == [InvalidMessage("scheduledAt")]
  {
    var none: seq<string> := [];
    assert VariablesField(Lookup(p, "variables")).Issues() == none;
    assert !TextOrAbsent(Lookup(p, "scheduledAt"));
    assert ExpectedSendErrors(p, isEmail) == none + none + none + none + [InvalidMessage("scheduledAt")] + none;
  }

  /** The four required fields all blank or missing, nothing else wrong: four
      messages, once each, in schema order. */
  lemma AllRequiredBlank(p: map<string, Json>, isEmail: string -> bool)
    requires !IsText(Lookup(p, "to")) && !IsText(Lookup(p, "subject"))
    requires !IsText(Lookup(p, "template_id")) && !IsText(Lookup(p, "from"))
    requires "variables" !in p && "scheduledAt" !in p
    ensures ValidateSendEmailRequest(p, isEmail)
         == Invalid([RequiredMessage("to"), RequiredMessage("subject"), RequiredMessage("template_id"), RequiredMessage("from")])
  {
    assert VariablesField(Lookup(p, "variables")).Issues() == [];
    assert ExpectedSendErrors(p, isEmail)
        == [RequiredMessage("to"), RequiredMessage("subject"), RequiredMessage("template_id"), RequiredMessage("from")];
    SendErrorsInSchemaOrder(p, isEmail);
  }

  // ---------------------------------------------------------------------------
  // validateEmailId and validateRescheduleEmailRequest

  /** validateEmailId: accepts exactly a string with a non-blank trimmed value, and
      carries no value; otherwise exactly the `id` message. */
  function ValidateEmailId(id: Option<Json>): (r: Validated<()>)
    ensures r.Valid? <==> IsText(id)
    ensures r.Invalid? ==> r.errors == [RequiredMessage("id")]
  {
    match RequiredText(id, RequiredMessage("id"))
    case Passed(_) => Valid(())
    case Failed(issues) => Invalid(Dedup(issues))
  }

  /** A string id is accepted exactly when it is not all whitespace; the empty and
      the whitespace-only id get the id message. */
  lemma EmailIdOfString(id: string)
    ensures ValidateEmailId(Some(JString(id)))
         == if AllWhitespace(id) then Invalid([RequiredMessage("id")]) else Valid(())
  {
  }

  /** validateRescheduleEmailRequest: the trimmed `scheduledAt`, not parsed any
      further, or exactly the `scheduledAt` message when it is missing or blank. */
  function ValidateRescheduleEmailRequest(p: map<string, Json>): (r: Validated<string>)
    ensures r.Valid? <==> IsText(Lookup(p, "scheduledAt"))
    ensures r.Valid? ==> r.value == Trim(Lookup(p, "scheduledAt").value.s)
    ensures r.Invalid? ==> r.errors == [RequiredMessage("scheduledAt")]
  {
    match RequiredText(Lookup(p, "scheduledAt"), RequiredMessage("scheduledAt"))
    case Passed(t) => Valid(t)
    case Failed(issues) => Invalid(Dedup(issues))
  }

  /** A missing `scheduledAt` and a whitespace-only one are rejected; any other
      string is accepted trimmed, and one with nothing to trim ("in 2min", an ISO
      timestamp) comes back as it is. */
  lemma RescheduleOfString(s: string)
    ensures ValidateRescheduleEmailRequest(map[]) == Invalid([RequiredMessage("scheduledAt")])
    ensures ValidateRescheduleEmailRequest(map["scheduledAt" := JString(s)])
         == if AllWhitespace(s) then Invalid([RequiredMessage("scheduledAt")]) else Valid(Trim(s))
    ensures Trimmed(s) && s != "" ==> ValidateRescheduleEmailRequest(map["scheduledAt" := JString(s)]) == Valid(s)
  {
    if Trimmed(s) && s != "" {
      TrimOfTrimmed(s);
    }
  }

  // ---------------------------------------------------------------------------
  // validateListEmailsQuery

  /** The three query parameters as they arrive; `None` is `undefined`. */
  datatype QueryParams = QueryParams(limit: Option<Json>, skip: Option<Json>, take: Option<Json>)

  /** What parseNumberParam hands on to the number schema: `undefined`, the invalid
      marker, a parsed number, or a non-string value passed through unchanged. */
  datatype Preprocessed = PUndefined | PInvalid | PNumber(x: real) | PRaw(v: Json)

  /** parseNumberParam. `toNumber` is `Number(...)` followed by the finiteness test:
      `None` for a string that does not denote a finite number. */
  function ParseNumberParam(v: Option<Json>, toNumber: string -> Option<real>): (r: Preprocessed)
    ensures r.PUndefined? <==> v.None? || v.value.JNull?
    ensures r.PInvalid? <==> v.Some? && v.value.JString? && (Trim(v.value.s) == "" || toNumber(Trim(v.value.s)).None?)
    ensures r.PNumber? ==> v.Some? && v.value.JString? && toNumber(Trim(v.value.s)) == Some(r.x)
    ensures r.PRaw? ==> v.Some? && r.v == v.value && !v.value.JString? && !v.value.JNull?
  {
    match v
    case None => PUndefined
    case Some(JNull) => PUndefined
    case Some(JString(s)) =>
      var t := Trim(s);
      if |t| == 0 then PInvalid
      else (match toNumber(t) case Some(x) => PNumber(x) case None => PInvalid)
    case Some(other) => PRaw(other)
  }

  predicate IsInteger(x: real) {
    x.Floor as real == x
  }

  /** An integer within `[lo, hi]`. */
  predicate IntegerIn(x: real, lo: int, hi: int) {
    IsInteger(x) && lo as real <= x <= hi as real
  }

  /** The checks `.int()`, `.min(lo)` and `.max(hi)`, which all run. */
  function NumberChecks(x: real, message: string, lo: int, hi: int): (c: Checked<int>)
    ensures c.Passed? <==> IntegerIn(x, lo, hi)
    ensures c.Passed? ==> c.value as real == x && lo <= c.value <= hi
    ensures c.Failed? ==> c.issues != [] && Uniform(c.issues, message)
  {
    var issues := (if IsInteger(x) then [] else [message])
                + (if x < lo as real then [message] else [])
                + (if x > hi as real then [message] else []);
    if issues == [] then Passed(x.Floor) else Failed(issues)
  }

  /** The number a parameter denotes, if any: a non-blank string that parses, or a
      JSON number. */
  function NumericValue(v: Option<Json>, toNumber: string -> Option<real>): Option<real> {
    if v.Some? && v.value.JString? && Trim(v.value.s) != "" then toNumber(Trim(v.value.s))
    else if v.Some? && v.value.JNumber? then Some(v.value.n)
    else None
  }

  /** A present parameter denoting an integer within `[lo, hi]`. */
  predicate DenotesIntegerIn(v: Option<Json>, toNumber: string -> Option<real>, lo: int, hi: int) {
    NumericValue(v, toNumber).Some? && IntegerIn(NumericValue(v, toNumber).value, lo, hi)
  }

  /** An optional numeric parameter: absent, or an integer within `[lo, hi]`. */
  predicate AcceptsNumber(v: Option<Json>, toNumber: string -> Option<real>, lo: int, hi: int) {
    v.None? || DenotesIntegerIn(v, toNumber, lo, hi)
  }

  /** A present numeric schema field: preprocessed, then checked. A JSON null is
      turned into `undefined` by the preprocessing, after the optional test, so it
      meets the number schema as missing. */
  function NumberField(v: Option<Json>, toNumber: string -> Option<real>, message: string, lo: int, hi: int)
    : (c: Checked<int>)
    requires v.Some?
    ensures c.Passed? <==> DenotesIntegerIn(v, toNumber, lo, hi)
    ensures c.Passed? ==> c.value as real == NumericValue(v, toNumber).value && lo <= c.value <= hi
    ensures c.Failed? ==> c.issues != []
    ensures c.Failed? && !v.value.JNull? ==> Uniform(c.issues, message)
    ensures v.value.JNull? ==> c == Failed([ZodRequired])
  {
    match ParseNumberParam(v, toNumber)
    case PUndefined => Failed([ZodRequired])
    case PInvalid => Failed([message])
    case PNumber(x) => NumberChecks(x, message, lo, hi)
    case PRaw(JNumber(x)) => NumberChecks(x, message, lo, hi)
    case PRaw(_) => Failed([message])
  }

  /** One optional numeric schema field: `undefined` skips it. */
  function OptionalNumber(v: Option<Json>, toNumber: string -> Option<real>, message: string, lo: int, hi: int)
    : (c: Checked<Option<int>>)
    ensures c.Passed? <==> AcceptsNumber(v, toNumber, lo, hi)
    ensures c.Passed? ==> (c.value.None? <==> v.None?)
    ensures c.Passed? && c.value.Some? ==> c.value.value as real == NumericValue(v, toNumber).value
    ensures c.Passed? && c.value.Some? ==> lo <= c.value.value <= hi
    ensures c.Failed? ==> c.issues != []
    ensures c.Failed? && (v.Some? ==> !v.value.JNull?) ==> Uniform(c.issues, message)
    ensures c.Failed? && v.Some? && v.value.JNull? ==> c.issues == [ZodRequired]
  {
    if v.None? then Passed(None)
    else
      match NumberField(v, toNumber, message, lo, hi)
      case Passed(n) => Passed(Some(n))
      case Failed(issues) => Failed(issues)
  }

  function LimitField(q: QueryParams, toNumber: string -> Option<real>): Checked<Option<int>> {
    OptionalNumber(q.limit, toNumber, InvalidMessage("limit"), 1, 100)
  }
  function TakeField(q: QueryParams, toNumber: string -> Option<real>): Checked<Option<int>> {
    OptionalNumber(q.take, toNumber, InvalidMessage("take"), 1, 100)
  }
  function SkipField(q: QueryParams, toNumber: string -> Option<real>): Checked<Option<int>> {
    OptionalNumber(q.skip, toNumber, InvalidMessage("skip"), 0, 100)
  }

  /** Every message the list schema raises, in its field order limit, take, skip. */
  function ListIssues(q: QueryParams, toNumber: string -> Option<real>): seq<string> {
    LimitField(q, toNumber).Issues() + TakeField(q, toNumber).Issues() + SkipField(q, toNumber).Issues()
  }

  /** Every parameter absent or an integer within its range: limit and take in
      [1, 100], skip in [0, 100]. */
  predicate QueryAcceptable(q: QueryParams, toNumber: string -> Option<real>) {
    AcceptsNumber(q.limit, toNumber, 1, 100) && AcceptsNumber(q.take, toNumber, 1, 100)
    && AcceptsNumber(q.skip, toNumber, 0, 100)
  }

  /** validateListEmailsQuery: absent parameters stay undefined and pass; the others
      must be integers with limit and take in [1, 100] and skip in [0, 100]. */
  function ValidateListEmailsQuery(q: QueryParams, toNumber: string -> Option<real>): (r: Validated<ListEmailsQuery>)
    ensures r.Valid? <==> QueryAcceptable(q, toNumber)
    ensures r.Valid? ==> InBounds(r.value)
    ensures r.Valid? ==> (r.value.limit.None? <==> q.limit.None?) && (r.value.take.None? <==> q.take.None?)
                         && (r.value.skip.None? <==> q.skip.None?)
    ensures r.Valid? && r.value.limit.Some? ==> r.value.limit.value as real == NumericValue(q.limit, toNumber).value
    ensures r.Valid? && r.value.take.Some? ==> r.value.take.value as real == NumericValue(q.take, toNumber).value
    ensures r.Valid? && r.value.skip.Some? ==> r.value.skip.value as real == NumericValue(q.skip, toNumber).value
    ensures r.Invalid? ==> r.errors != [] && NoDuplicates(r.errors)
  {
    var limit, take, skip := LimitField(q, toNumber), TakeField(q, toNumber), SkipField(q, toNumber);
    if limit.Passed? && take.Passed? && skip.Passed? then
      Valid(ListEmailsQuery(limit.value, skip.value, take.value))
    else
      assert ListIssues(q, toNumber) != [];
      Invalid(Dedup(ListIssues(q, toNumber)))
  }

  /** The messages a rejected query gets, written parameter by parameter. */
  function ExpectedListErrors(q: QueryParams, toNumber: string -> Option<real>): seq<string> {
    (if AcceptsNumber(q.limit, toNumber, 1, 100) then [] else [InvalidMessage("limit")])
    + (if AcceptsNumber(q.take, toNumber, 1, 100) then [] else [InvalidMessage("take")])
    + (if AcceptsNumber(q.skip, toNumber, 0, 100) then [] else [InvalidMessage("skip")])
  }

  /** Without JSON nulls (the handler passes only strings or undefined), a rejected
      query gets one message per failing parameter, in the order limit, take, skip. */
  lemma ListErrorsInSchemaOrder(q: QueryParams, toNumber: string -> Option<real>)
    requires q.limit != Some(JNull) && q.take != Some(JNull) && q.skip != Some(JNull)
    requires !QueryAcceptable(q, toNumber)
    ensures ValidateListEmailsQuery(q, toNumber) == Invalid(ExpectedListErrors(q, toNumber))
  {
    var a, b, c := LimitField(q, toNumber).Issues(), TakeField(q, toNumber).Issues(), SkipField(q, toNumber).Issues();
    assert InvalidMessage("limit") != InvalidMessage("take") && InvalidMessage("limit") != InvalidMessage("skip")
        && InvalidMessage("take") != InvalidMessage("skip") by {
      assert InvalidMessage("limit")[9] == 'l' && InvalidMessage("take")[9] == 't' && InvalidMessage("skip")[9] == 's';
    }
    DedupOfThreeBlocks(a, b, c, InvalidMessage("limit"), InvalidMessage("take"), InvalidMessage("skip"));
  }

  /** A JSON null is missing to the number schema: zod's "Required", not the
      parameter's own message. */
  lemma NullParamIsRequired(toNumber: string -> Option<real>)
    ensures ValidateListEmailsQuery(QueryParams(Some(JNull), None, None), toNumber) == Invalid([ZodRequired])
  {
  }

  lemma EmptyQueryAccepted(toNumber: string -> Option<real>)
    ensures ValidateListEmailsQuery(QueryParams(None, None, None), toNumber) == Valid(ListEmailsQuery(None, None, None))
  {
  }

  /** `limit` of 0 is below the range. */
  lemma ZeroLimitRejected(s: string, toNumber: string -> Option<real>)
    requires Trim(s) != "" && toNumber(Trim(s)) == Some(0.0)
    ensures ValidateListEmailsQuery(QueryParams(Some(JString(s)), None, None), toNumber) == Invalid([InvalidMessage("limit")])
  {
    ListErrorsInSchemaOrder(QueryParams(Some(JString(s)), None, None), toNumber);
  }

  /** `skip` of -1 is below the range. */
  lemma NegativeSkipRejected(s: string, toNumber: string -> Option<real>)
    requires Trim(s) != "" && toNumber(Trim(s)) == Some(-1.0)
    ensures ValidateListEmailsQuery(QueryParams(None, Some(JString(s)), None), toNumber) == Invalid([InvalidMessage("skip")])
  {
    ListErrorsInSchemaOrder(QueryParams(None, Some(JString(s)), None), toNumber);
  }

  /** `take` of 0 is below the range... */
  lemma ZeroTakeRejected(s: string, toNumber: string -> Option<real>)
    requires Trim(s) != "" && toNumber(Trim(s)) == Some(0.0)
    ensures ValidateListEmailsQuery(QueryParams(None, None, Some(JString(s))), toNumber) == Invalid([InvalidMessage("take")])
  {
    ListErrorsInSchemaOrder(QueryParams(None, None, Some(JString(s))), toNumber);
  }

  /** ... while a `skip` of 0 is within its range. */
  lemma ZeroSkipAccepted(s: string, toNumber: string -> Option<real>)
    requires Trim(s) != "" && toNumber(Trim(s)) == Some(0.0)
    ensures ValidateListEmailsQuery(QueryParams(None, Some(JString(s)), None), toNumber) == Valid(ListEmailsQuery(None, Some(0), None))
  {
    var q := QueryParams(None, Some(JString(s)), None);
    assert NumericValue(q.skip, toNumber) == Some(0.0) && IsInteger(0.0);
    assert QueryAcceptable(q, toNumber);
  }

  /** A fractional value breaks `.int()` only. */
  lemma FractionalLimitRejected(s: string, toNumber: string -> Option<real>)
    requires Trim(s) != "" && toNumber(Trim(s)) == Some(2.5)
    ensures ValidateListEmailsQuery(QueryParams(Some(JString(s)), None, None), toNumber) == Invalid([InvalidMessage("limit")])
  {
    ListErrorsInSchemaOrder(QueryParams(Some(JString(s)), None, None), toNumber);
  }

  /** A `limit` of 25 is accepted as the integer 25. */
  lemma LimitAccepted(s: string, toNumber: string -> Option<real>)
    requires Trim(s) != "" && toNumber(Trim(s)) == Some(25.0)
    ensures ValidateListEmailsQuery(QueryParams(Some(JString(s)), None, None), toNumber)
         == Valid(ListEmailsQuery(Some(25), None, None))
  {
    var q := QueryParams(Some(JString(s)), None, None);
    assert NumericValue(q.limit, toNumber) == Some(25.0);
    assert IsInteger(25.0);
    assert QueryAcceptable(q, toNumber);
    var r := ValidateListEmailsQuery(q, toNumber);
    assert r.value.limit.value as real == 25.0;
  }

  /** `skip` 5 with `take` 10 is accepted as those integers. */
  lemma SkipAndTakeAccepted(five: string, ten: string, toNumber: string -> Option<real>)
    requires Trim(five) != "" && toNumber(Trim(five)) == Some(5.0)
    requires Trim(ten) != "" && toNumber(Trim(ten)) == Some(10.0)
    ensures ValidateListEmailsQuery(QueryParams(None, Some(JString(five)), Some(JString(ten))), toNumber)
         == Valid(ListEmailsQuery(None, Some(5), Some(10)))
  {
    var q := QueryParams(None, Some(JString(five)), Some(JString(ten)));
    assert NumericValue(q.skip, toNumber) == Some(5.0) && NumericValue(q.take, toNumber) == Some(10.0);
    assert IsInteger(5.0) && IsInteger(10.0);
    assert QueryAcceptable(q, toNumber);
    var r := ValidateListEmailsQuery(q, toNumber);
    assert r.value.skip.value as real == 5.0 && r.value.take.value as real == 10.0;
  }
}
