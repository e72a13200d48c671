# realtime-bus-sms: logging and Facebook webhook, modelled in Dafny

This project models two files of the realtime-bus-sms server.

- `lib/logger.js` is the application's winston logger:
  - the transport list (console, Rollbar, Google Analytics);
  - npm's level rule, which decides which transports receive a message;
  - the console formatter;
  - the Rollbar and Google Analytics transports;
  - the request-logging middleware with its static-asset and health-check filter, its start marks, the response time and the request record.
- `lib/facebook.js` is the Messenger webhook:
  - the subscription handshake (`verify`);
  - the flattening of a batched callback into reply jobs (`update`);
  - the Send API envelope and its outcome rule (`send`);
  - the `x-hub-signature` check (`verifyFBRequestSignature`).

Modules:

- `Js` (js.dfy) holds JavaScript values and the built-ins the code relies on: truthiness, `||`, property reads, `String(v)`, `startsWith` and `split`.
- `Levels` (levels.dfy) holds npm's levels and the delivery rule.
- `Logger` (logger.dfy) holds the logger object, the console formatter and the Rollbar transport.
- `Analytics` (analytics.dfy) holds the Google Analytics transport. A `Visitor` object records the calls made on the universal-analytics visitor.
- `RequestLog` (request_log.dfy) holds the middleware, with request and response objects whose start marks it updates.
- `Facebook` (facebook.dfy) holds the webhook.

Several things are taken as inputs or function parameters, because they are I/O or library code outside this model:

- what a module logs is returned as `LogCall` values;
- clocks, timestamps, sessions, the HMAC digest, `JSON.stringify` and the colorizer are parameters;
- the outcome of network calls is a parameter.

## Model

| member | source | states |
|---|---|---|
| `Js.Or` | lib/logger.js:122 | the logical or is its first operand when that is truthy, else its second; the result is truthy iff either operand is |
| `Js.DecimalText` | lib/facebook.js:106 | `String(n)`: a minus sign for a negative number, then the digits of its magnitude with no leading zero, whose value is that magnitude |
| `Js.DecimalTextRoundTrip` | lib/logger.js:235 | reading the decimal text of a number gives it back, so different numbers have different texts |
| `Js.DigitChar` | lib/facebook.js:106 | a digit character, whose value is the digit |
| `Js.Truthy` | lib/logger.js:43 | definition of JavaScript truthiness, used by every `if (x)` and logical or of the model; properties in `Js.Or` |
| `Js.Get` | lib/logger.js:44 | definition of a property read `v.key`; properties in `Logger.ConsoleLayout` and `Facebook.MessageData` |
| `Js.KeyCount` | lib/logger.js:45 | definition of `Object.keys(meta).length` for an object; properties in `Logger.ConsoleLayout` and `Logger.PlainWarningLine` |
| `Js.ToText` | lib/logger.js:44 | definition of `String(v)` in template literals; numbers use `Js.DecimalText` |
| `Js.StartsWith` | lib/logger.js:202 | definition of `startsWith`; properties in `RequestLog.SkippedRequests` and `Logger.ConsoleFormatter` |
| `Js.Split` | lib/facebook.js:134 | `split` on one character yields at least one piece, and no piece contains the separator |
| `Js.JoinSplit` | lib/facebook.js:134 | joining the pieces of a split with the separator gives the text back |
| `Js.SplitAtFirst` | lib/facebook.js:134-136 | the first piece is the text before the first separator; the other pieces are the split of the rest |
| `Js.SplitWithout` | lib/facebook.js:134-136 | a text without the separator splits into itself alone |
| `Levels.Rank` | lib/logger.js:17-19 | npm priorities lie between 0 (error) and 5 (silly) |
| `Levels.Delivers` | lib/logger.js:16-23 | definition of the threshold rule (a message reaches a transport when its priority is at most the threshold's); properties in `Levels.DeliveryOrder` and `Levels.InfoThreshold` |
| `Levels.Name` | lib/logger.js:44-45 | definition of the level name handed to a transport and to `colorize`; properties in `Levels.RankAndNameInjective` and `Logger.ConsoleFormatter` |
| `Levels.RankAndNameInjective` | lib/logger.js:17-19 | distinct levels have distinct priorities and names |
| `Levels.DeliveryOrder` | lib/logger.js:16-23 | the delivery rule is reflexive, antisymmetric, transitive and total |
| `Levels.InfoThreshold` | lib/logger.js:20-21 | with threshold info, exactly error, warn and info messages are written |
| `Levels.ErrorReachesAll` | lib/logger.js:20-23 | an error reaches every threshold; a debug message does not reach an error threshold |
| `Logger.WarningWith` | lib/logger.js:144 | `logger.warn(text, arg)` keeps an object argument as metadata, and only an object |
| `Logger.Warning` | lib/logger.js:107 | definition of `logger.warn(message)`: warn level, the message, empty metadata; properties in `Logger.PlainWarningLine`, `Analytics.InitGoogleAnalytics`, `Analytics.MissingTrackingCodeWarns` and `Facebook.VerifyHook` |
| `Logger.NewRollbarTransport` | lib/logger.js:62-65 | the Rollbar threshold is the given level, or error by default |
| `Logger.Logger.constructor` | lib/logger.js:29 | a new logger has no transports |
| `Logger.Logger.Add` | lib/logger.js:80-82 | a transport whose name is already attached is refused (winston throws) and the list is unchanged; any other is appended with the others kept in order; names stay distinct |
| `Logger.CreateLogger` | lib/logger.js:29-82 | at load time the transports are console at level debug, then Rollbar at level error, with distinct names |
| `Logger.Recipients` | lib/logger.js:16-23 | the receiving transports are exactly those whose threshold the level meets, in registration order |
| `Logger.HasStatus` | lib/logger.js:43 | definition of the `'status' in meta` test; properties in `Logger.ConsoleLayout` and `RequestLog.RecordIsCompactLine` |
| `Logger.ConsoleLayout` | lib/logger.js:42-45 | metadata with a `status` gives the compact HTTP line built from status, ip, method, url and input (or ""); otherwise the message, plus the metadata exactly when it has keys |
| `Logger.ConsoleFormatter` | lib/logger.js:38-48 | every console line starts with the colorized level and ": " |
| `Logger.Render` | lib/logger.js:44-45 | definition of the text of a console line: colorized level, colon, then status, ip, method, url and input separated by spaces, or the message followed by the JSON of the metadata; properties in `Logger.ConsoleFormatter` and `Logger.PlainWarningLine` |
| `Logger.PlainWarningLine` | lib/logger.js:45 | a plain warning prints as level, colon and message with nothing after it |
| `Logger.RollbarLog` | lib/logger.js:68-78 | an Error metadata goes to `handleError`; an Error message with metadata goes to `handleErrorWithPayloadData`; anything else goes to `reportMessageWithPayloadData`; the payload is `{custom: meta}`; winston is always acknowledged |
| `Analytics.Visitor.constructor` | lib/logger.js:137 | a new visitor holds its tracking code and client id and has no calls |
| `Analytics.Visitor.Set` | lib/logger.js:138 | appends one `set` call |
| `Analytics.Visitor.Pageview` | lib/logger.js:142 | appends one pageview hit |
| `Analytics.Visitor.Event` | lib/logger.js:161 | appends one event hit |
| `Analytics.Visitor.Timing` | lib/logger.js:176 | appends one timing hit |
| `Analytics.Visitor.Send` | lib/logger.js:179 | appends the final send |
| `Analytics.FirstNullish` | lib/logger.js:175-177 | the position where the timings map throws lies within the array or at its end |
| `Analytics.FirstNullishIs` | lib/logger.js:175-177 | that position is the first null or undefined element |
| `Analytics.GaSpec` | lib/logger.js:115-124 | definition of the transport's `log` as one value (silent, HEAD and non-info skip); properties in `Analytics.HitsExactlyWhen` |
| `Analytics.ReportSpec` | lib/logger.js:127-152 | definition of the client-id, tracking-code and pageview steps; properties in `Analytics.MissingTrackingCodeWarns` and `Analytics.PageviewWithoutAction` |
| `Analytics.EventSpec` | lib/logger.js:153-179 | definition of the event branch; properties in `Analytics.EventWithTimings`, `Analytics.EventWithoutTimings`, `Analytics.TimingsNotArray` and `Analytics.NullTimingThrows` |
| `Analytics.FieldsOf` | lib/logger.js:122 | definition of the init function's fields, or `{}` when they are falsy |
| `Analytics.ClientIdOf` | lib/logger.js:127 | definition of the client id: the fields' `uuid`, or the metadata's when that is falsy |
| `Analytics.EventParamsOf` | lib/logger.js:153-159 | definition of the event parameters; properties in `Analytics.EventWithTimings` |
| `Analytics.ExtraTimings` | lib/logger.js:175-177 | definition of the timings reported for the elements, in order; properties in `Analytics.ExtraTimingsAt` |
| `Analytics.ExtraTiming` | lib/logger.js:175-177 | definition of the `map` callback: one `Response Time` timing named by the element's `name` with its `time`; properties in `Analytics.ExtraTimingsAt` and `Analytics.EventWithTimings` |
| `Analytics.GaLog` | lib/logger.js:115-180 | the transport's `log` equals the specification `GaSpec`; the lemmas below state its properties |
| `Analytics.Report` | lib/logger.js:127-152 | from the client id on, `log` equals `ReportSpec` |
| `Analytics.ReportEvent` | lib/logger.js:153-180 | the event branch equals `EventSpec` |
| `Analytics.AddTimings` | lib/logger.js:175-177 | one timing per element in order, up to the first null element; it throws exactly when there is one |
| `Analytics.HitCompleted` | lib/logger.js:142-168 | a hit error is warned about once and handed to winston; otherwise winston is told the message was logged |
| `Analytics.NewAnalyticsTransport` | lib/logger.js:109-112 | the analytics threshold is the given level, or info by default |
| `Analytics.InitGoogleAnalytics` | lib/logger.js:106-182 | without an init function it warns and adds nothing; with one it adds the analytics transport at level info, or throws and adds nothing when one is already attached |
| `Analytics.SecondInitThrows` | lib/logger.js:106-182 | after the standard set-up a second `initGoogleAnalytics` throws and the transports stay console, Rollbar, analytics |
| `Analytics.ExtraTimingsAt` | lib/logger.js:175-177 | the i-th extra timing is the one for the i-th element |
| `Analytics.HitsExactlyWhen` | lib/logger.js:115-137 | analytics calls happen exactly when not silent, not HEAD, level info and a tracking code is present; otherwise the transport acknowledges at once |
| `Analytics.MissingTrackingCodeWarns` | lib/logger.js:127-136 | a missing tracking code ends with its warning, preceded by the uuid warning exactly when the client id is missing |
| `Analytics.PageviewWithoutAction` | lib/logger.js:137-152 | without an action the hit is `uid` set, a pageview of the url, then send |
| `Analytics.EventWithTimings` | lib/logger.js:153-179 | with an action and array timings: an event, the total time, one timing per element in order, then send |
| `Analytics.TimingsNotArray` | lib/logger.js:171-174 | non-array timings are warned about and the final `send()` is never called; the event hit was already handed to `visitor.event` and the transport waits for its callback |
| `Analytics.EventWithoutTimings` | lib/logger.js:153-179 | with an action and no timings the calls are `uid`, the event, the total response time, then send |
| `Analytics.NullTimingThrows` | lib/logger.js:175-177 | a null or undefined timing element makes the transport throw after the timings before it, and the final send is never called |
| `Analytics.RecipientsSnoc` | lib/logger.js:181 | a transport added last receives after all earlier ones |
| `Analytics.RecipientsOfThree` | lib/logger.js:29-182 | three transports receive in registration order |
| `Analytics.StandardRouting` | lib/logger.js:29-182 | console gets all but silly, Rollbar only errors, analytics errors, warnings and info |
| `Analytics.StandardTransports` | lib/logger.js:31-181 | definition of the transport list once the module has loaded and `initGoogleAnalytics` has run: console, Rollbar, analytics; properties in `Analytics.StandardRouting` and `Analytics.SecondInitThrows` |
| `RequestLog.Request.constructor` | lib/logger.js:199 | a request starts without a start mark |
| `RequestLog.Request.MarkStartTime` | lib/logger.js:228-230 | sets the request's start mark to the clock reading |
| `RequestLog.Response.constructor` | lib/logger.js:199 | a response starts without a start mark |
| `RequestLog.Response.MarkStartTime` | lib/logger.js:209 | headers being written set the response's start mark |
| `RequestLog.Snapshot` | lib/logger.js:211 | definition of the `(req, res)` the caller's field function sees, with the URL as `originalUrl` or `url`; properties in `RequestLog.OnFinished` and `RequestLog.ServeRequest` |
| `RequestLog.RequestUrl` | lib/logger.js:200 | the URL is `originalUrl` when it is non-empty, and `url` when it is empty |
| `RequestLog.IsStaticAsset` | lib/logger.js:202 | definition of the static-asset prefixes; properties in `RequestLog.SkippedRequests` |
| `RequestLog.IsHealthCheck` | lib/logger.js:204 | definition of the health-checker test; properties in `RequestLog.SkippedRequests` |
| `RequestLog.SkipsLogging` | lib/logger.js:202-204 | definition of the exclusion filter; properties in `RequestLog.LogMiddleware` and `RequestLog.SkippedRequests` |
| `RequestLog.LogMiddleware` | lib/logger.js:199-209 | listeners are attached exactly when the URL is not a static asset and the user agent is not the ELB health checker; then the marks are reset and the request is marked; a skipped request is untouched |
| `RequestLog.ElapsedNanos` | lib/logger.js:233-234 | definition of the nanoseconds between two `[seconds, nanoseconds]` marks |
| `RequestLog.NearestMillisUnique` | lib/logger.js:235 | the nearest millisecond, ties away from zero, is unique, so the contracts below fix the value |
| `RequestLog.RoundToMillis` | lib/logger.js:233-235 | the milliseconds are within half a millisecond of the nanoseconds, with ties rounded away from zero |
| `RequestLog.ResponseTime` | lib/logger.js:231-236 | absent exactly when a mark is missing, else the elapsed time to the nearest millisecond with ties away from zero |
| `RequestLog.ResponseTimeValue` | lib/logger.js:219 | the field is undefined exactly when there is no response time, otherwise the decimal text of the milliseconds, which reads back as them |
| `RequestLog.DefaultFields` | lib/logger.js:213-221 | the default record has exactly the keys method, status, url, ip, timestamp, responseTime and uuid, holding the request method, the status code, the URL, the ip, the timestamp, the response time and the session |
| `RequestLog.MergeFields` | lib/logger.js:223 | the merged record has the keys of both; the caller's values win, and other defaults are kept |
| `RequestLog.CallerFields` | lib/logger.js:211 | definition of `initFunction ? initFunction(req, res) : {}` |
| `RequestLog.RequestRecord` | lib/logger.js:213-223 | definition of the logged record; properties in `RequestLog.RecordFields` and `RequestLog.RecordIsCompactLine` |
| `RequestLog.OnFinished` | lib/logger.js:210-224 | the finish listener logs at info, with an empty message and the merged record as metadata |
| `RequestLog.ServeRequest` | lib/logger.js:198-236 | over a whole request: nothing is logged exactly for skipped requests; otherwise one record whose response time runs from the middleware mark to the header mark |
| `RequestLog.RecordFields` | lib/logger.js:211-223 | status, url, method and responseTime are always present; caller fields win; where the caller is silent, method, status, url, ip, timestamp, responseTime and uuid keep their default values |
| `RequestLog.RecordIsCompactLine` | lib/logger.js:43-44 | the console prints every request record as the compact HTTP line with the record's status, ip, method and url |
| `RequestLog.SkippedRequests` | lib/logger.js:202-204 | `/css`, `/javascripts`, `/img` URLs and the health checker are skipped; an ordinary browser request is not |
| `Facebook.VerifyHook` | lib/facebook.js:19-28 | 200 with the challenge exactly when mode is subscribe and the token strictly equals the configured one; otherwise 403 and one warning |
| `Facebook.UnsetTokenAcceptsTokenless` | lib/facebook.js:20-21 | with no token configured, a subscribe request without a token passes |
| `Facebook.AllEvents` | lib/facebook.js:46-51 | definition of the events of a batch; no entries give no events; contents in `Facebook.AllEventsOfEntries`, order in `Facebook.AllEventsAppend` |
| `Facebook.AllEventsOfEntries` | lib/facebook.js:46-51 | an event is among the batch's events exactly when it is in some entry's `messaging` |
| `Facebook.AllEventsAppend` | lib/facebook.js:46-51 | the events of a batch are those of its entries, entry after entry |
| `Facebook.HasMessage` | lib/facebook.js:52 | definition of the `if (messagingEvent.message)` test |
| `Facebook.Jobs` | lib/facebook.js:52-63 | definition of the jobs of a list of events; properties in `Facebook.JobsAreMessages`, `Facebook.JobsAppend` and `Facebook.EveryEventHandled` |
| `Facebook.Warnings` | lib/facebook.js:64-66 | definition of the warnings of a list of events; properties in `Facebook.WarningsAreUnknownEvents`, `Facebook.WarningsAppend` and `Facebook.EveryEventHandled` |
| `Facebook.JobFor` | lib/facebook.js:53-61 | a job posts `{Body: message.text, From: sender.id, isFB: true}` to `/` and replies to the sender |
| `Facebook.UnknownEventWarning` | lib/facebook.js:65 | an event without a message gives a warning |
| `Facebook.FinalStatus` | lib/facebook.js:74-76 | the answer is 200 whether every reply resolves or some reject |
| `Facebook.Update` | lib/facebook.js:38-79 | a non-page callback gets 403 with no jobs and no warnings; a page callback gets 200, the jobs of its events and the warnings of its events |
| `Facebook.VisitEntry` | lib/facebook.js:51-67 | the inner loop extends the jobs and warnings with those of the entry's events |
| `Facebook.JobsAppend` | lib/facebook.js:45-67 | jobs of concatenated events are the concatenated jobs, so they are ordered by entry, then by event |
| `Facebook.JobsByEntry` | lib/facebook.js:46-67 | the jobs of a batch are those of the earlier entries followed by those of the next |
| `Facebook.CountWithMessage` | lib/facebook.js:52 | the number of events with a message is at most the number of events |
| `Facebook.EveryEventHandled` | lib/facebook.js:51-67 | there are as many jobs as events with a message and as many warnings as events without one |
| `Facebook.WarningsAppend` | lib/facebook.js:45-67 | warnings of concatenated events are the concatenated warnings, in event order |
| `Facebook.WarningsAreUnknownEvents` | lib/facebook.js:64-66 | a warning exists exactly for each event without a message |
| `Facebook.JobsAreMessages` | lib/facebook.js:52-63 | a job exists exactly for each event that has a message |
| `Facebook.NoMessagesNoJobs` | lib/facebook.js:52-66 | events without messages produce no jobs |
| `Facebook.MessageData` | lib/facebook.js:87-95 | the envelope carries the recipient id, the text and the fixed metadata |
| `Facebook.SendRequest` | lib/facebook.js:98-101 | the POST goes to the Send API address with the access token and the envelope |
| `Facebook.SendSettles` | lib/facebook.js:103-112 | resolves with "success" exactly when there is no error and the status is 200; otherwise rejects and logs one error per report part present |
| `Facebook.VerifySignature` | lib/facebook.js:127-146 | a missing or empty header throws the missing-signature error; the header is accepted exactly when its second `=` piece equals the digest; otherwise the request-signature error is thrown |
| `Facebook.SignatureAcceptedExactly` | lib/facebook.js:134-144 | for `method=hash[=more]` the verdict depends only on whether the hash equals the digest, never on the method |
| `Facebook.GenuineSignatureAccepted` | lib/facebook.js:138-144 | a `sha1=<digest>` header is accepted exactly when the digest is the expected one |
| `Facebook.NoSeparatorRejected` | lib/facebook.js:134-144 | a non-empty header without `=` is always rejected |

## Left out

- winston's dispatch itself is left out: calling each transport is not modelled. The routing rule is modelled by `Recipients`, and log calls are returned as values. The message text winston builds is modelled only for a string followed by one argument (`Logger.WarningWith`); `util.format` placeholders such as `%s` are not modelled.
- The colorizer and `JSON.stringify` are function parameters. Their text is not modelled.
- Loading config and secrets (`./config`, `rollbar.init`) is not modelled. The configured token is a parameter.
- Network effects are left out: what rollbar, universal-analytics and `request.post` send. Rollbar and visitor calls are recorded as values. The Send API outcome is an input.
- HMAC-SHA1 is left out. The expected digest is an input, so no property that depends on its collision resistance is stated.
- `process.hrtime`, `new Date().toISOString()`, the session lookup and the `onHeaders`/`onFinished` hooks are left out. Marks, timestamp and session are inputs, and `ServeRequest` fixes one order of events.
- `RequestLog.RoundToMillis` works on integer nanoseconds. The floating-point product `1e-6 * ns` and `toFixed` quirks such as `"-0"` are not modelled.
- `res.locals.routes` is read but never used, so it is not modelled.
- Loose `==` coercions are left out: `data.object == 'page'`, `meta.method == "HEAD"` and `statusCode != 200` compare like values only.
- Key order of JavaScript objects is not represented. Records are maps.
- Malformed payloads that make the code throw are not modelled: entries without `messaging` and a `null` metadata.
- An event with a message but no `sender` is not modelled faithfully. The source reads `sender.id` inside the reply promise's executor (lib/facebook.js:57), so that promise rejects, the middleware is never run for it, and `update` still answers 200. `Facebook.Jobs` still lists a job for it, with an undefined `From` and recipient, because `Js.Get` of undefined is undefined.
- `Facebook.SendSettles` requires an error or a response, since the client always gives one.
- Promise concurrency in `update` is left out, including `Promise.all` settling before all sends finish. Only the job list and the final status are modelled.
- The run-middleware re-entry through the Express pipeline and the reply `send` for each job are left out. Jobs are returned.
- Numbers are integers. NaN and fractions are not modelled.
- `Js.Get` reads own properties, and an `Error`'s `message` and `name`. Reading any key of undefined or null gives undefined instead of throwing. Built-in properties such as an array's `length` are not modelled, since the code never reads them.
- When winston refuses a transport whose name is already attached, `Logger.Logger.Add` reports it as `threw`. The text of winston's error is not modelled.
