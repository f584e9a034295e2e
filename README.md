# Mini Integrator webhook relay, modelled in Dafny

The Mini Integrator is a small Express server that takes a JSON event on
`POST /webhook`, appends it to `webhook.log`, and drops it if its `score`
is below 50. Otherwise it posts a notification to a Slack incoming webhook
and answers with the outcome. This project models the decision logic of
that handler and proves what it does for every payload, every
configuration and every answer Slack may give.

- `js.dfy` (module `Js`): the JavaScript values the handler sees. It
  covers the values `express.json()` produces, with `undefined` standing
  for an absent member, and numbers as `NaN`, finite values and the two
  infinities. It defines truthiness, `??`-nullishness and property access,
  where the last duplicate key wins as in `JSON.parse`. It also defines the
  `Number(...)` and template-literal conversions, which may throw a
  TypeError: an object with its own `toString` member (necessarily not a
  function in JSON) has no primitive form, and neither has an array holding
  one. `JSON.stringify(v, null, 2)`, Number::toString and the
  string-to-number parse are kept abstract: they are fields of a `Runtime`
  record of total functions.
- `filter.dfy` (module `Filter`): `shouldSkip`, its edge cases, and the
  scores whose conversion throws.
- `slack.dfy` (module `Slack`): the environment configuration
  (`SLACK_WEBHOOK_URL`, `USE_SLACK_BLOCKS`, as raw optional strings) and
  the `{text}` / `{text, blocks}` payload choice of `sendToSlack`.
- `format.dfy` (module `Format`): the `?? "Unknown User"` default, the
  conversion of the name into text, the plain-text message, the block
  message and its three blocks, and a round trip that reads the name and
  the pretty-printed payload back out of the plain-text message.
- `handler.dfy` (module `Handler`): the request as a state machine.
  `Handle` is the specification function. It gives the ordered side
  effects (one log attempt, then zero to two POSTs) and the response, as
  a function of the body, the configuration and an `Io` record. `Io`
  holds the clock, whether the log append succeeds, and Slack's answer to
  each POST. `Handle` is the log record followed by `Reaction` (the filter,
  the name conversion and the `try` block), and the `try` block with its
  `catch` is `Dispatch`. The response is optional: a conversion that throws
  outside the `try` block rejects the handler's promise, and the handler
  then writes no response. The class `Integrator` holds `webhook.log` and
  the side-effect history. It performs the request step by step:
  `AppendLog`, `SendToSlack`, `TrySend`, `React` and `PostWebhook`, each
  proved against the matching specification function. Its invariant says
  the log file holds exactly the records whose append succeeded.
- `properties.dfy` (module `Properties`): the promises about `Handle`.
- `wrappers.dfy` (module `Wrappers`): `Option`.

Facts about the code that the model follows:
- The filter tests the score for truthiness before comparing it, so a
  score of `0` (or `false`, `""`) is never skipped, although 0 is below 50.
  A non-empty string such as `"0"` or `"30"`, the value `true`, and an
  empty array (`Number([])` is 0) are skipped.
- The configuration error message is `Missing SLACK_WEBHOOK_URL in .env`.
- A URL set to the empty string counts as missing (`!url`).
- Block mode is on only when `USE_SLACK_BLOCKS` is exactly `"true"`.
- The second, block-carrying POST is made only after the first has been
  delivered.
- The filter (index.js:47) and the plain-text message (index.js:53) run
  outside the `try` block. A score or a name whose conversion throws
  therefore ends the request after the log attempt, with no POST and no
  response written by the handler.

## Model

| member | source | states |
|---|---|---|
| Js.Truthy | index.js:29 | a value is falsy exactly when it is `undefined`, `null`, `false`, `NaN`, `0` or `""`; every array and object is truthy |
| Js.Lookup | index.js:29 | a member is found exactly when some field has the key, and the value found is that of the last field with the key |
| Js.Get | index.js:36 | on an object with a field named by the key, the result is the value of the last such field; on a non-object, or an object without the key, it is `undefined` |
| Js.ToString | index.js:53 | the template-literal conversion throws exactly when the value is an object with its own `toString` or an array holding such a value; a string converts to itself, and a plain object to "[object Object]" |
| Js.Join | index.js:53 | `Array.prototype.join` throws exactly when some element's conversion throws, joins nothing into "", turns a single `null` or `undefined` element into "", and a single other element into that element's own conversion |
| Js.ToNumber | index.js:29 | `Number(v)` throws exactly when `v`'s conversion to a primitive throws; `undefined` gives `NaN`, `null` and `false` give 0, `true` gives 1, a number is kept, a string is parsed, and a plain object parses "[object Object]" |
| Filter.ShouldSkip | index.js:27-31 | the rule throws exactly when the score's conversion throws; otherwise the only reason ever returned is "score<50", and only when the score is truthy |
| Filter.ShouldSkipByKind | index.js:29 | skipping agrees, in both directions, with a kind-by-kind reference rule covering booleans, numbers, infinities, strings, arrays and objects; not skipping means the rule neither skips nor throws |
| Filter.ThrowingScore | index.js:29 | a score object with its own `toString` member, or an array holding one, makes the rule throw |
| Filter.MissingScoreNeverSkips | index.js:29 | a payload with no `score` member, or one that is not an object, is never skipped |
| Filter.FalsyScoreNeverSkips | index.js:29 | a falsy score (`0`, `null`, `false`, `""`, `NaN`) never skips |
| Filter.NaNScoreNeverSkips | index.js:29 | a score converting to `NaN` never skips |
| Filter.NumberScore | index.js:29 | a number score skips iff it is non-zero and below 50, so every negative number skips |
| Filter.StringScore | index.js:29 | a non-empty string score skips iff its numeric parse is below 50 |
| Filter.EmptyArrayScoreSkips | index.js:29 | a score of `[]` skips, since `Number([])` is 0 and arrays are truthy |
| Slack.BuildPayload | index.js:22 | the payload keeps the text, and carries blocks exactly when blocks are given |
| Format.SubmitterName | index.js:36 | only a null or absent name becomes "Unknown User"; any other value, including "", is kept |
| Format.NameText | index.js:53 | rendering the name throws exactly when the name's conversion throws; a missing name renders as "Unknown User" and a string name as itself |
| Format.PlainText | index.js:53 | the message is the rocket header "New submission from ", then the name, then exactly two line feeds, then the whole pretty-printed payload |
| Format.RichText | index.js:66 | the block message's text is "New submission from " followed by the name |
| Format.SubmissionBlocks | index.js:61-65 | exactly three blocks, in the order header, section, section, with the header title, the name line and the fenced pretty payload |
| Format.PlainTextRoundTrip | index.js:53 | the plain-text message splits back into the name and the whole pretty-printed payload when the name is one line |
| Handler.Payload | index.js:35 | the payload is the body when the body is truthy and `{}` otherwise, so it is always truthy |
| Handler.Plan | index.js:53-66 | a forwarded event means one plain-text message, plus the block message exactly when block mode is on |
| Handler.Deliver | index.js:55-67 | the POSTs made follow the plan in order, every POST but the last was delivered, and stopping early means the last was rejected |
| Handler.FirstRejection | index.js:70-72 | no error is reported exactly when no POST was rejected; a reported error is the message of the first rejected POST |
| Handler.Dispatch | index.js:55-73 | the `try` block makes at most two POSTs; without a URL it makes none and answers 500 with the configuration error; its answer is 200 exactly when it is `{ok: true}` |
| Handler.DispatchByCases | index.js:55-73 | the `try` block in each of its five cases: no URL, first POST rejected, plain text only, both POSTs with the second rejected, both delivered |
| Handler.Reaction | index.js:46-73 | after the log append, the handler writes no response exactly when the filter throws or, for an event it lets through, the name's conversion throws; any POST means the event was forwarded with a URL configured |
| Handler.Handle | index.js:34-74 | the first effect of every request is its log record; the handler writes no response exactly when a conversion outside the `try` throws, and then nothing follows the log record |
| Handler.HandleByCases | index.js:34-74 | the exchange in each of its eight cases: the filter throws, skipped, the name throws, no URL, first POST rejected, plain text only, both POSTs with the second rejected, both POSTs delivered |
| Handler.WrittenRecords | index.js:40-44 | a record is in the log exactly when some append of it succeeded, and the log is never longer than the history |
| Handler.Integrator.AppendLog | index.js:40-44 | the append attempt is recorded; the record reaches the log only when the write succeeds, and a failure is swallowed |
| Handler.Integrator.SendToSlack | index.js:19-24 | without a URL it fails with the configuration error and makes no POST; otherwise it makes one POST of the built payload and fails exactly when Slack rejects it |
| Handler.Integrator.TrySend | index.js:55-73 | the step-by-step sends append exactly the POSTs `Dispatch` specifies, give its response, and leave the log file alone |
| Handler.Integrator.React | index.js:46-73 | the step-by-step filter, name conversion and sends append exactly the POSTs `Reaction` specifies and give its response |
| Handler.Integrator.PostWebhook | index.js:34-74 | the step-by-step handler appends exactly the side effects and gives exactly the (possibly absent) response that `Handle` specifies, and keeps the log equal to the successfully written records |
| Properties.DeliverAllIff | index.js:55-69 | the whole plan is sent with no rejection iff every reply used was a delivery |
| Properties.LogFirstAndOnce | index.js:40-47 | every request makes exactly one log attempt, before the filter and before any POST, and at most two POSTs follow |
| Properties.LogFailureIsInvisible | index.js:40-44 | a failed log append changes neither the POSTs made nor the response |
| Properties.SkippedEvent | index.js:47-50 | a skipped event is logged, answered 200 `{ok: true, skipped: "score<50"}`, and never posted |
| Properties.ConversionErrorAborts | index.js:29-53 | the handler writes no response exactly when the score's conversion throws, or when the event passes the filter and the name's conversion throws; in that case only the log attempt happens |
| Properties.ToStringNameAborts | index.js:36-53 | `{"name": {"toString": 1}}` is logged and then aborts with no POST and no response, whatever the configuration |
| Properties.MissingUrl | index.js:20-21 | with no URL a forwarded event is never posted and is answered 500 `{ok: false, error: "Missing SLACK_WEBHOOK_URL in .env"}` |
| Properties.PlainTextOnly | index.js:53-57 | outside block mode a forwarded event makes exactly one POST, `{text}` with the plain-text message, and the response follows its outcome |
| Properties.BlocksFollowDelivery | index.js:60-66 | in block mode, after a delivered first POST, a second POST carries "New submission from " + name and the three blocks, and the response follows it |
| Properties.NoSendAfterRejection | index.js:55-72 | a rejected first POST is never followed by a second one, and its message is the 500 answer |
| Properties.PostCount | index.js:47-67 | at least one POST iff the event is forwarded (not skipped, and its name renders) with a URL; two iff block mode is also on and the first was delivered |
| Properties.OkIffEveryPostDelivered | index.js:55-72 | the answer is 200 `{ok: true}` iff the event was forwarded, a URL is set, and every planned POST was delivered |
| Properties.StatusMatchesOk | index.js:48-72 | every answer the handler writes is 200 with `ok: true` or 500 with `ok: false` |
| Properties.AdaIsForwarded | index.js:53-69 | `{"name": "Ada", "score": 80}` outside block mode is posted once as the plain-text message and answered 200 |
| Properties.BobIsSkipped | index.js:47-50 | `{"name": "Bob", "score": 10}` is skipped with no POST |
| Properties.EmptyEventWithoutUrl | index.js:70-72 | `{}` with no URL configured is answered 500 with the configuration error |

## Left out

- The Express bootstrap, `app.listen`, the `GET /` health check and the `express.json()` middleware: server plumbing. The body arrives as an already-parsed value.
- What happens after the handler's promise rejects: Express 4 leaves the rejection unhandled and Express 5 passes it to its default error handler. Both are outside the handler, so the model stops at "no response written by the handler".
- dotenv and live `process.env` reads: the configuration is an immutable `Config` held by the `Integrator`, read once rather than on every call.
- The axios POST: each POST's outcome is an injected `PostReply`. The error object's `response.status` and `response.data` feed only the diagnostic log, so they are not modelled.
- `fs.appendFileSync`, the on-disk line format and `Date.now()`: the log is a sequence of `LogRecord`s, the clock is an input, and whether the write succeeds is an injected boolean.
- `console.warn` and `console.error`: side-channel output only.
- The internals of `JSON.stringify`, Number::toString and StringToNumber: abstract functions in `Runtime`. The pretty printing of a parsed JSON value cannot throw (no cycles, no BigInt, no callable `toJSON`), so it is total here.
- Rounding to IEEE doubles: finite numbers are exact reals, and `-0` is the same value as `0`.
- Strings are sequences of Unicode code points rather than UTF-16 code units. The rocket emoji is one character here.
- async scheduling and interleaving of concurrent requests on the log file: each request is modelled as sequential.
- Properties.AdaIsForwarded: states the message as the header line plus `JSON.stringify(payload, null, 2)`, not as a literal JSON text, because the pretty printer is abstract.
- Format.PlainTextRoundTrip: holds only for a name without line feeds, since a multi-line name makes the header line ambiguous.
