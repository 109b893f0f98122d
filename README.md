# Resend e-mail API: validation, pagination and response mapping in Dafny

This project models the request-handling core of a small HTTP back end that sends,
retrieves, lists, cancels and reschedules e-mails through the Resend provider. It
also models the query-string helper of its web front end. The model covers:

- **Validators** (`Validation`, `Request`). They turn untrusted input into either a
  trimmed, typed value or a duplicate-free list of error messages in schema field
  order. The input is a JSON body, a path id or query strings.
- **Provider-call shaping** (`EmailService`):
  - the `template` object of a send;
  - the mapping of a provider reply (structured error, missing data, exception or
    data) to an outcome;
  - the `listEmails` planner, which picks the upstream `limit` and then cuts a
    local window out of the returned page.
- **HTTP handlers** (`EmailController`). The five handlers map body-read,
  validation and service outcomes to a 400, 502 or 200 response, and record the
  argument each passes to its service.
- **Front-end helpers** (`Client`). `buildQuery` is a method with a loop proved
  against a specification function; `emptyResponse` is a function.

Module layout:

- `Values`: `Option` and JSON values.
- `Text`: JavaScript's `String.prototype.trim`, with its whitespace set written out.
- `Lists`: `Array.from(new Set(xs))`, that is, removing duplicates while keeping
  first occurrences. It also holds the lemmas that reduce such a list block by
  block.

Some parts are parameters rather than definitions:

- zod's `.email()` check is a parameter `isEmail`.
- `Number(s)` followed by `Number.isFinite` is a parameter `toNumber`. It returns
  `None` for a string that is not a finite number.
- URL form encoding is a parameter `encode`.
- Each provider reply is an input value: `Returned(data, error)` or `Threw(e)`.

Where the tests and the code differ, the model follows the code:

- `backend/tests/validation_test.ts` still sends an `html` field and expects
  `"Invalid or missing 'html'"`.
- The schema requires `template_id` (backend/src/utils/validation.ts:36-42), and that
  is what is modelled. The tests are used only for message order and format.

Two behaviours of the code are reproduced as written:

- **The send handler forwards the raw body.** It passes the parsed body to the
  service, not the validated value, so `template_id` is neither trimmed nor renamed
  to `templateId`. The `template` built for the provider therefore has `id`
  undefined, and serialisation drops that key
  (`EmailController.ForwardedBodyLosesTemplateId`).
- **Id handlers forward the untrimmed id.** The retrieve, cancel and reschedule
  handlers validate the trimmed path id but pass the original, untrimmed one on.

## Model

| member | source | states |
|---|---|---|
| Text.Trim | backend/src/utils/validation.ts:27 | the result has no whitespace at either end, and it is empty exactly when the input is all whitespace |
| Text.TrimDropsOnlyWhitespace | backend/src/utils/validation.ts:27 | the trimmed string is the piece of the input that starts after its leading whitespace; everything cut off on both sides is whitespace |
| Text.TrimOfTrimmed | backend/src/utils/validation.ts:27 | a string with no whitespace at either end is left unchanged |
| Text.TrimIdempotent | backend/src/utils/validation.ts:27 | trimming twice is trimming once |
| Lists.Dedup | backend/src/utils/validation.ts:144-146 | the result has no duplicates, holds exactly the input's elements, is no longer than the input, and lists them in the order of their first occurrences, as a `Set` keeps insertion order |
| Lists.DedupOfDistinct | backend/src/utils/validation.ts:144-146 | a list without duplicates is left unchanged |
| Lists.DedupOfRepeated | backend/src/utils/validation.ts:144-146 | one message repeated any number of times collapses to one |
| Lists.DedupDisjointAppend | backend/src/utils/validation.ts:144-146 | removing duplicates from two lists with no common element works on each part separately |
| Lists.DedupOfUniformBlocks | backend/src/utils/validation.ts:144-146 | a list made of blocks, each repeating its own distinct message, collapses to one message per non-empty block, in block order |
| Lists.DedupOfSixBlocks | backend/src/utils/validation.ts:144-146 | the six-field case of block-wise collapsing used by the send schema |
| Lists.DedupOfThreeBlocks | backend/src/utils/validation.ts:144-146 | the three-field case used by the list-query schema |
| Validation.RequiredText | backend/src/utils/validation.ts:22-28 | passes exactly a string whose trimmed value is non-empty, with that trimmed value; otherwise exactly the field's message |
| Validation.OptionalText | backend/src/utils/validation.ts:44-50 | an absent field passes as absent; a present one passes exactly when it is non-blank text, trimmed; otherwise exactly the field's message |
| Validation.EmailText | backend/src/utils/validation.ts:51-58 | passes exactly non-blank text whose trimmed value satisfies the e-mail check; every failure message is the field's message |
| Validation.EmailTextOfBlank | backend/src/utils/validation.ts:51-58 | a blank `from` raises the message twice (length and e-mail rules), once if the e-mail check accepts the empty string |
| Validation.VariablesField | backend/src/utils/validation.ts:43 | absent passes as absent; otherwise passes exactly an object whose values are strings or numbers, with the same keys and every string or number entry unchanged; a failure is one zod default message ("Invalid input" or "Expected object, received …") |
| Validation.VariablesMessagesDiffer | backend/src/utils/validation.ts:43 | zod's messages for `variables` differ from every field message of the schema |
| Validation.MessagesDiffer | backend/src/utils/validation.ts:21-59 | the field messages of the send schema are pairwise different |
| Validation.ValidateSendEmailRequest | backend/src/utils/validation.ts:135-152 | valid exactly when every field rule holds; the value carries trimmed strings, `templateId` is the trimmed `template_id`, `scheduledAt` and `variables` are present exactly when given, and `variables` holds the body's entries unchanged; a rejection lists at least one message and no message twice |
| Validation.SendErrorsInSchemaOrder | backend/src/utils/validation.ts:21-59 | a rejected request gets exactly one message per failing field, in the order to, subject, template_id, variables, scheduledAt, from |
| Validation.SendIssuesCollapse | backend/src/utils/validation.ts:144-146 | the deduplicated list of every raised message equals the one-per-failing-field list |
| Validation.RequiredTextBlock | backend/src/utils/validation.ts:22-28 | a required field's messages are one repeated message that collapses to one exactly when the field fails |
| Validation.OptionalTextBlock | backend/src/utils/validation.ts:44-50 | the same for the optional `scheduledAt` |
| Validation.EmailTextBlock | backend/src/utils/validation.ts:51-58 | the same for `from`, whose two rules raise the same message |
| Validation.VariablesBlock | backend/src/utils/validation.ts:43 | `variables` contributes at most one zod default message |
| Validation.FromNotAnEmail | backend/src/utils/validation.ts:51-58 | with every other field fine, non-blank text refused by the e-mail check gives exactly the `from` message |
| Validation.BlankFromReportedOnce | backend/src/utils/validation.ts:51-58 | with every other field fine, a blank `from` gives the `from` message exactly once although two rules fail |
| Validation.BlankScheduledAt | backend/src/utils/validation.ts:44-50 | with every other field fine, a present but blank or non-string `scheduledAt` gives exactly "Invalid 'scheduledAt'" |
| Validation.OnlyScheduledAtFails | backend/src/utils/validation.ts:44-50 | in that case `scheduledAt` is the only failing field |
| Validation.AllRequiredBlank | backend/tests/validation_test.ts:20-38 | four blank or missing required fields give their four messages once each, in the order to, subject, template_id, from |
| Validation.ValidateEmailId | backend/src/utils/validation.ts:154-168 | valid, with no value, exactly when the id is a string with a non-empty trim; otherwise exactly "Invalid or missing 'id'" |
| Validation.EmailIdOfString | backend/src/utils/validation.ts:154-168 | a string id is rejected with exactly the id message when it is empty or all whitespace, and accepted otherwise |
| Validation.ValidateRescheduleEmailRequest | backend/src/utils/validation.ts:170-186 | valid exactly when `scheduledAt` is non-blank text, with its trimmed value and no further parsing; otherwise exactly "Invalid or missing 'scheduledAt'" |
| Validation.RescheduleOfString | backend/tests/validation_test.ts:103-136 | a missing `scheduledAt` is rejected; a string one is rejected exactly when blank and otherwise accepted trimmed; a non-empty, already trimmed one (such as "in 2min") is accepted as it is |
| Validation.ParseNumberParam | backend/src/utils/validation.ts:73-86 | undefined and null become undefined; a blank or non-finite string becomes the invalid marker; another string becomes its number; any other value passes through |
| Validation.NumberChecks | backend/src/utils/validation.ts:92-98 | passes exactly an integer within the bounds, as that integer; every failure message is the field's message |
| Validation.NumberField | backend/src/utils/validation.ts:88-100 | a given parameter passes exactly when it denotes an integer in range, with that value; JSON null fails with zod's "Required" alone; any other failure repeats only the parameter's message |
| Validation.OptionalNumber | backend/src/utils/validation.ts:88-100 | an absent parameter passes as absent; otherwise it passes exactly when it denotes an integer in range, with that value; JSON null gets zod's "Required" |
| Validation.ValidateListEmailsQuery | backend/src/utils/validation.ts:188-211 | valid exactly when every given parameter is an integer with limit and take in [1, 100] and skip in [0, 100]; absent parameters stay absent, given ones keep their numeric value; a rejection is non-empty and duplicate-free |
| Validation.ListErrorsInSchemaOrder | backend/src/utils/validation.ts:88-125 | without JSON nulls, a rejected query gets one "Invalid '<field>'" per failing parameter, in the order limit, take, skip |
| Validation.NullParamIsRequired | backend/src/utils/validation.ts:73-76 | a JSON null parameter is reported with zod's "Required", not the parameter's own message |
| Validation.EmptyQueryAccepted | backend/tests/validation_test.ts:151-155 | the empty query is valid, with all three parameters absent |
| Validation.LimitAccepted | backend/tests/validation_test.ts:157-168 | a `limit` denoting 25 is accepted as 25 |
| Validation.SkipAndTakeAccepted | backend/tests/validation_test.ts:170-183 | `skip` 5 and `take` 10 are accepted as those integers |
| Validation.ZeroLimitRejected | backend/tests/validation_test.ts:185-194 | a `limit` of 0 gives exactly "Invalid 'limit'" |
| Validation.NegativeSkipRejected | backend/tests/validation_test.ts:196-205 | a `skip` of -1 gives exactly "Invalid 'skip'" |
| Validation.ZeroTakeRejected | backend/tests/validation_test.ts:207-216 | a `take` of 0 gives exactly "Invalid 'take'" |
| Validation.ZeroSkipAccepted | backend/src/utils/validation.ts:92-98 | a `skip` of 0 is within its range and accepted as 0 |
| Validation.FractionalLimitRejected | backend/src/utils/validation.ts:96 | a fractional `limit` inside the range fails the integer rule with exactly "Invalid 'limit'" |
| Request.ValidateJsonBody | backend/src/utils/request.ts:7-12 | succeeds exactly on a JSON object and returns that same object; otherwise "Invalid JSON body" |
| Request.ParseJsonBody | backend/src/utils/request.ts:14-23 | succeeds exactly when the body was read and is an object, returning it; a throwing read and a non-object both give "Invalid JSON body" |
| Request.NonObjectsRefused | backend/tests/request_test.ts:53-58 | a string, a number, null and an array are refused |
| Request.ObjectsAccepted | backend/tests/request_test.ts:20-51 | the empty object and an object holding arrays, nested objects and nulls are returned unchanged |
| EmailService.Settle | backend/src/services/email_service.ts:84-101 | ok exactly when the call returned data and no error; a throw gives its message or "Unknown error"; a structured error gives its message or "Resend error"; null or absent data gives "Resend response missing data" |
| EmailService.SendOutcome | backend/src/services/email_service.ts:69-81 | ok exactly when the call returned no error and a non-empty id, which it reports; a throw or an error is mapped as for the other operations; otherwise "Resend response missing id" |
| EmailService.TemplateFor | backend/src/services/email_service.ts:60-63 | `id` is present exactly when the payload has `templateId`; `variables` is copied exactly when it is present and truthy; no other key |
| EmailService.SendRequestFor | backend/src/services/email_service.ts:60-67 | every payload field except `templateId` and `variables` is forwarded unchanged, plus `template` |
| EmailService.SendEmail | backend/src/services/email_service.ts:56-82 | the request sent is the shaped payload and the outcome is the send mapping of the reply |
| EmailService.EffectiveTake | backend/src/services/email_service.ts:152 | `take` when given, otherwise `limit` |
| EmailService.UpstreamLimit | backend/src/services/email_service.ts:151-166 | no limit is sent exactly when skip is at most 0 and there is no take; a sent limit never exceeds 100 |
| EmailService.UpstreamLimitForValidQuery | backend/src/services/email_service.ts:151-166 | for a validated query, no limit exactly when skip is 0 and there is no take; otherwise min(skip + (take ?? 20), 100), which is in [1, 100] |
| EmailService.RelativeIndex | backend/src/services/email_service.ts:183 | a `slice` index lands in [0, len], and a non-negative one is clamped to len |
| EmailService.Slice | backend/src/services/email_service.ts:183 | JavaScript `slice` with relative indexes; never longer than the input |
| EmailService.Window | backend/src/services/email_service.ts:178-192 | every upstream field other than the items and the flag is kept, and a true `has_more` stays true |
| EmailService.DefaultListIsPassThrough | backend/src/services/email_service.ts:162-180 | without skip and take, no limit is sent and the upstream page is returned as it is |
| EmailService.WindowOfValidQuery | backend/src/services/email_service.ts:182-192 | otherwise the items are items[skip .. min(skip + (take ?? len), len)], empty once skip reaches len, of length max(0, min(take ?? len, len - skip)); `has_more` is upstream's or `end < len` |
| EmailService.SkipFiveTakeTen | backend/src/services/email_service.ts:151-192 | skip 5 and take 10 request 15 items, and a page of 15 is cut to items 5 to 14 with no more |
| EmailService.ListEmails | backend/src/services/email_service.ts:147-198 | it requests the planned limit; it is ok exactly when the reply settles ok, with the windowed page; otherwise it reports the settled error |
| EmailController.SendEmailHandler | backend/src/controllers/email_controller.ts:18-38 | an unreadable or non-object body gives 400 "Invalid JSON body"; a rejected body gives 400 with the validation errors; the service is called exactly for a valid body, with that raw body; a service failure gives 502 with its error; success gives 200 with the non-empty id |
| EmailController.RetrieveEmailHandler | backend/src/controllers/email_controller.ts:40-53 | a blank id gives 400 with the id message and no call; otherwise the untrimmed id is passed on; 502 with the error or 200 with the e-mail record |
| EmailController.ListEmailsHandler | backend/src/controllers/email_controller.ts:55-73 | 400 with the errors exactly when the query strings are rejected; otherwise the validated, in-bounds query is planned with; 502 with the error or 200 with the windowed page |
| EmailController.CancelEmailHandler | backend/src/controllers/email_controller.ts:75-88 | as retrieve, with the cancel reply |
| EmailController.RescheduleEmailHandler | backend/src/controllers/email_controller.ts:90-116 | a blank id gives 400 before the body is read; then a bad body gives 400 "Invalid JSON body"; then a bad `scheduledAt` gives 400 with its message; only then is the service called, with the untrimmed id and the trimmed `scheduledAt`; 502 or 200 as for the others |
| EmailController.SendForwardsParsedBody | backend/src/controllers/email_controller.ts:24-31 | a valid body is passed to the service exactly as parsed |
| EmailController.ForwardedBodyLosesTemplateId | backend/src/services/email_service.ts:60-67 | a body with `template_id` and no `templateId` reaches the provider with a `template` lacking `id`, and with `template_id` as a top-level field |
| EmailController.ValidRequestHasTemplateId | backend/src/utils/validation.ts:36-42 | every accepted send body carries `template_id` |
| EmailController.BadIdBeforeBadBody | backend/src/controllers/email_controller.ts:90-100 | with a blank id, even an unreadable body gives the 400 id errors |
| EmailController.PaddedIdForwarded | backend/src/controllers/email_controller.ts:41-47 | an id with surrounding whitespace passes validation and is passed on with that whitespace |
| EmailController.MissingRecordIs502 | backend/src/services/email_service.ts:92-94 | a reply with no error and a null or missing record makes retrieve, cancel and reschedule answer 502 "Resend response missing data" |
| EmailController.ThrownServiceIs502 | backend/src/controllers/email_controller.ts:47-50 | a throwing provider call yields 502 with the thrown message, or "Unknown error" |
| Client.EmptyResponse | frontend/src/api/client.ts:9-15 | not ok, status 0, duration 0, null data, and the message as the error |
| Client.SetParam | frontend/src/api/client.ts:21 | setting a name not yet present appends the pair; the pair is present afterwards |
| Client.Serialize | frontend/src/api/client.ts:24 | a non-empty list of pairs serialises to a non-empty string |
| Client.BuildQuery | frontend/src/api/client.ts:17-26 | the result is empty when no entry is kept, and otherwise "?" followed by the serialised kept entries |
| Client.KeptStep | frontend/src/api/client.ts:19-22 | one more entry extends the kept entries by itself, trimmed, unless its value is blank |
| Client.BuildStep | frontend/src/api/client.ts:19-22 | with distinct input names, setting the next non-blank entry on the kept entries so far gives the kept entries including it |
| Client.KeptLacksAbsentKey | frontend/src/api/client.ts:19-21 | a name the input lacks is not among the kept names, so each `set` appends |
| Client.KeptAppend | frontend/src/api/client.ts:19-22 | the kept entries of a concatenation are the kept entries of each part, in order |
| Client.KeptOne | frontend/src/api/client.ts:20-21 | a single entry is kept, with its trimmed value, exactly when that value is not blank |
| Client.NonBlankKept | frontend/src/api/client.ts:20-21 | every entry with a non-blank value is kept with its trimmed value |
| Client.KeptFromInput | frontend/src/api/client.ts:20-21 | every kept entry comes from an input entry of that name with that non-blank trimmed value |
| Client.KeptValuesTrimmed | frontend/src/api/client.ts:21 | every kept value is non-empty and has nothing left to trim |
| Client.AllBlankKeepsNothing | frontend/src/api/client.ts:24-25 | when every value is blank nothing is kept, so the query is the empty string |

## Left out

- The Resend SDK and its module-level client. Provider replies are inputs, and
  `async`/`await` is sequential evaluation with the awaited value as a parameter.
- `console.warn` logging of validation errors: it only writes diagnostics.
- zod's e-mail regular expression, and JavaScript's `Number()` with its
  floating-point parsing. Both are abstract parameters (`isEmail`, `toNumber`), and
  numbers are reals.
- URL percent-encoding in `URLSearchParams.toString`: an abstract `encode`.
- The order of `Object.entries` for integer-like keys: `BuildQuery` takes its
  entries as a sequence already in enumeration order.
- Validation.VariablesField: an object with several bad entries raises zod's
  "Invalid input" once per entry, but the model raises it once. This is the same
  after duplicate removal.
- Validation.ValidateSendEmailRequest and Validation.ValidateRescheduleEmailRequest
  take the fields of a JSON object. The handlers only call them with an object, so
  the "Expected object" message for other payloads is not modelled.
- JSON key order of response bodies and of the provider request: objects are maps.
- `callApi`, `frontend/src/api/emailApi.ts`, the React components, Hono routing,
  CORS, the health route and environment loading: I/O and plumbing.
- HTTP details of the handlers beyond status and body (headers, content type).
