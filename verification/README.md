# Freight-delay notifier: decision and routing model

A Dafny model of the freight-delay notifier's Temporal workflow and of its
three activities, with every external service turned into an input value.

- **Workflow** (`FreightWorkflow`): `freightNotificationWorkflow` is the
  ordered list of activity calls it makes. The list is the traffic fetch,
  then possibly the message composition, then possibly the notification.
  The fetched delay and the composed message are inputs.
- **Dispatch** (`Notifications`): `sendNotification` picks a channel and
  checks credentials. It yields at most one transport payload (a SendGrid
  email or a Twilio SMS), or the reason none is sent.
- **Traffic delay** (`TrafficInfo`): `fetchTrafficDelay` takes the Mapbox
  answers as inputs. It returns the delay in minutes and the Mapbox lookups
  it made. Every failure falls back to `0`. Otherwise the delay is
  `max(0, mean(congestion)/100 * duration/60)`, computed over exact reals.
- **Message** (`AiMessage`): `generateAIMessage` takes the chat-completion
  answer as an input. It returns the trimmed first choice or one of two fixed
  fallback strings. It also returns the request it sends, whose prompt embeds
  `formatMinutes(delay)`.
- **Duration text** (`Utils`): `formatMinutes` renders whole seconds as
  `H:MM:SS`. `ParseClock` reads that text back, and the two are proved to
  round-trip.
- **JavaScript semantics** (`JsText`): string truthiness, `toString` of
  integers, `padStart` and `trim`.
- **Composition** (`Pipeline`): one execution with all three activity
  models plugged in, plus the end-to-end Dublin-to-Limerick scenario.

Behaviour of the code worth knowing, all modelled as written:

- **Delay equal to the threshold.** It still composes a message: the skip
  test is `delay < threshold` (src/workflows/freightNotification.ts:35),
  and the composition at line 43 is unconditional after it. It is not
  sent, because the send guard at line 46 tests `delay > threshold`.
- **Notifications switched off.** `notify = false` still composes a
  message. It only suppresses the send.
- **Failed deliveries.** A missing recipient field or transport credential,
  or a transport error, is logged. The activity then completes normally.

## Model

| member | source | states |
|---|---|---|
| FreightWorkflow.FreightNotificationWorkflow | src/workflows/freightNotification.ts:23-52 | The fetch comes first, with `(origin, destination)`. The trace is the fetch alone exactly when `delay < threshold`. At or over the threshold the second call composes with the fetched delay. A third call (the send) happens iff `delay > threshold`, notify is on, the type is non-empty and a recipient is given. The send carries the route subject and the composed message. |
| FreightWorkflow.Subject | src/workflows/freightNotification.ts:47 | The subject is the fixed prefix, then the origin, then " to ", then the destination, each at its stated position. |
| FreightWorkflow.CallCounts | src/workflows/freightNotification.ts:32-47 | The fetch is called exactly once. The composition is called once iff `delay >= threshold`. There is at most one send, and every send carries the composed message. |
| FreightWorkflow.EqualDelayComposesWithoutSending | src/workflows/freightNotification.ts:35-47 | A delay equal to the threshold gives exactly `[fetch, compose]`, whatever the other arguments. |
| FreightWorkflow.NotifyOffStillComposes | src/workflows/freightNotification.ts:43-47 | With notify off and delay at or over the threshold, the trace is exactly `[fetch, compose]`. |
| Notifications.SendNotification | src/sendNotifications.ts:20-36 | An email payload is produced iff the type is "email", the address is truthy and SendGrid is configured. An SMS payload is produced iff the type is "sms", the phone is truthy and Twilio is configured. Each payload holds the stated fields. A missing field or an unknown type gives no payload, with its reason. With a truthy address or phone, the result is exactly what `sendEmailNotification` or `sendSmsNotification` returns, including its missing-configuration reason. |
| AiMessage.RequestFor | src/generateAIMessage.ts:23-37 | The request goes to `${OPENAI_API_URL}/v1/chat/completions` with `Bearer <key>` authorization. It uses model `gpt-4o-mini`, temperature 0.7 and 100 max tokens, and the prompt built from the delay. |
| FreightWorkflow.ShouldSend | src/workflows/freightNotification.ts:46 | Sending requires a delay strictly above the threshold, a recipient type and a recipient. It never happens when `notify` is off or the type is the empty string. |
| JsText.Truthy | src/sendNotifications.ts:46 | An optional string is truthy only if it is present and non-empty. `undefined` and `""` are falsy. |
| JsText.IsJsWhitespace | src/generateAIMessage.ts:41 | The characters `trim` strips include space, tab, newline and carriage return, and never a digit or a colon. |
| Notifications.SendGridConfigured | src/sendNotifications.ts:46 | SendGrid counts as configured only when the API key and the from-address are both present. An empty string for either means not configured. |
| Notifications.TwilioConfigured | src/sendNotifications.ts:79 | Twilio counts as configured only when the SID, the auth token and the phone number are all present. An empty string for any of them means not configured. |
| Notifications.SendEmailNotification | src/sendNotifications.ts:45-70 | A payload is produced iff the API key and from-address are both truthy. It is `{to, from = SENDGRID_FROM_EMAIL, subject, text = message}`. |
| Notifications.SendSmsNotification | src/sendNotifications.ts:78-96 | A payload is produced iff SID, token and from-number are all truthy. It is `{body = message, from = TWILIO_PHONE_NUMBER, to}`. |
| Notifications.ChannelExclusive | src/sendNotifications.ts:20-36 | No type other than "email" reaches the email transport. No type other than "sms" reaches the SMS transport. |
| Notifications.SmsIgnoresSubject | src/sendNotifications.ts:27-29 | For "sms" the result does not depend on the subject. |
| Notifications.SmsWithOnlyEmailSendsNothing | src/sendNotifications.ts:27-32 | An SMS request for a recipient with only an email sends nothing, because the phone is missing. |
| TrafficInfo.GetCoordinates | src/fetchTrafficInfo.ts:13-34 | The result is present iff the request succeeded with a non-empty feature list. It is then the first feature's centre. |
| TrafficInfo.AverageCongestion | src/fetchTrafficInfo.ts:85-87 | The left-to-right `reduce` sum divided by the length equals the mean. The empty series gives 0. |
| TrafficInfo.SumWithin | src/fetchTrafficInfo.ts:79-86 | A sum of values in `[lo, hi]` lies in `[n*lo, n*hi]`. |
| TrafficInfo.AverageWithin | src/fetchTrafficInfo.ts:79-87 | The mean of a non-empty series of values in `[lo, hi]` lies in `[lo, hi]`. |
| TrafficInfo.DelayFromRoute | src/fetchTrafficInfo.ts:76-90 | The delay is `max(0, mean/100 * duration/60)`. It is at least the formula, never negative, and equal to the formula whenever positive. An empty series gives 0. |
| TrafficInfo.DelayBoundedByTravelTime | src/fetchTrafficInfo.ts:79-90 | With congestion in `[0, 100]` and a non-negative duration, the delay is at most the normal travel time. It is 0 when all congestion is 0. |
| TrafficInfo.CongestionExample | src/fetchTrafficInfo.ts:85-90 | Congestion `[0, 50, 100]` over 3600 s gives 30 minutes. |
| TrafficInfo.CongestionLevels | src/fetchTrafficInfo.ts:80 | Reading fails (throws) iff `legs` is absent. When the first leg carries a series, the result is that series. A non-empty result always comes from the first leg. |
| TrafficInfo.DelayFromDirections | src/fetchTrafficInfo.ts:63-92 | The result is never negative. When the response has a first route with readable legs, the result is that route's delay by the congestion formula. Otherwise it is 0. |
| TrafficInfo.FetchTrafficDelay | src/fetchTrafficInfo.ts:43-98 | The delay is never negative. A falsy token gives 0 with no lookups. Otherwise both places are geocoded, in order. Directions are requested iff both resolve, between the two centres. A positive delay implies the directions lookup happened. When it did, the delay is the one computed from that response, including the empty-series fallback for a route without congestion data. |
| TrafficInfo.FetchFallbacksYieldZero | src/fetchTrafficInfo.ts:46-97 | A missing token, an unresolved place, a failed request, no routes, a route without legs, an empty leg list or a first leg without a congestion series each give exactly 0. |
| TrafficInfo.FetchUsesFirstRoute | src/fetchTrafficInfo.ts:74-92 | With all lookups successful, the delay is the formula applied to the first route and its first leg's series. |
| AiMessage.Prompt | src/generateAIMessage.ts:20 | The prompt is the fixed prefix, then exactly `formatMinutes(delay)`, then the fixed suffix. |
| AiMessage.PromptCarriesDelay | src/generateAIMessage.ts:20 | The text between prefix and suffix parses as `H:MM:SS`. Its seconds are within half a second of `delay * 60`. |
| AiMessage.MessageFromChoices | src/generateAIMessage.ts:40-46 | Absent or empty choices give the "experiencing a delay" fallback. A non-string first content throws, giving the "currently facing" fallback. Otherwise the result is the first content, trimmed. |
| AiMessage.GenerateAIMessage | src/generateAIMessage.ts:12-52 | A request is made iff key and URL are both truthy, and it has the fixed prompt. Without one the result is the error fallback. A thrown request also gives the error fallback. Otherwise the result is read from the choices. |
| AiMessage.MessageOutcomes | src/generateAIMessage.ts:13-51 | Every outcome is one of the two fallbacks or the trimmed first choice. The trimmed choice has no surrounding whitespace. |
| AiMessage.FallbacksDistinct | src/generateAIMessage.ts:42-50 | The two fallback strings differ. |
| Utils.ClockOf | src/utils.ts:10-12 | Minutes and seconds are below 60, and `hours*3600 + minutes*60 + seconds` is the input. |
| Utils.FormatMinutes | src/utils.ts:6-15 | The text has the `H:MM:SS` shape: decimal hours, a colon, two digits, a colon, two digits. A leading `0` means under an hour and the text is exactly `0:MM:SS`. |
| Utils.TwoDigits | src/utils.ts:14 | `padStart(2, "0")` of a field gives at least two digits that read back as the field, and exactly two when it is below 100. |
| Utils.FormatMinutesRoundTrip | src/utils.ts:10-14 | Parsing the rendered text gives back the input seconds. |
| Utils.FormatMinutesInjective | src/utils.ts:10-14 | Different inputs render differently. |
| Utils.ClockShapeColons | src/utils.ts:14 | An `H:MM:SS` text has exactly two colons, at the two fixed positions from the end. |
| Utils.FormatMinutesDocExample1 | src/utils.ts:4 | 4530 s renders as "1:15:30". |
| Utils.FormatMinutesDocExample2 | src/utils.ts:4 | 57645 s renders as "16:00:45". |
| Utils.RoundHalfUp | src/utils.ts:8 | `Math.round` returns the integer `n` with `n - 1/2 <= x < n + 1/2`. |
| Utils.FormatMinutesOf | src/utils.ts:6-15 | For non-negative minutes the text has the clock shape. It parses back to a second count within half a second of `minutes * 60`. The hours are never zero-padded: a leading `0` means exactly `0:MM:SS`. |
| JsText.NatToString | src/utils.ts:14 | `toString` of a non-negative integer is a non-empty digit string. `"0"` is the only result that starts with `0`. |
| JsText.ParseNatToString | src/utils.ts:14 | Reading the decimal text back gives the number. |
| JsText.PadStart | src/utils.ts:14 | `padStart` reaches the target length and ends with the original. Everything before it is the fill character. |
| JsText.Trim | src/generateAIMessage.ts:41 | `trim` keeps the middle of the input. The removed ends are whitespace, and the result neither starts nor ends with whitespace. |
| JsText.TrimSurrounded | src/generateAIMessage.ts:41 | Trimming whitespace-surrounded text that has no whitespace at its own ends gives exactly that text. |
| JsText.TrimIdempotent | src/generateAIMessage.ts:41 | Trimming twice is trimming once. |
| Pipeline.RunWorkflow | src/workflows/freightNotification.ts:23-52 | One execution runs the workflow trace with the modelled fetch result. It composes iff the delay reaches the threshold, and the composition is `generateAIMessage` of the fetched delay. It dispatches iff the send guard holds, and the dispatch is `sendNotification` with the route subject and composed message. |
| Pipeline.DeliveredPayload | src/workflows/freightNotification.ts:43-47 | Any payload handed to a transport follows a delay strictly over the threshold and carries the composed message. An email is under the route subject and follows type "email". An SMS follows type "sms". |
| Pipeline.FallbackNeverNotifies | src/fetchTrafficInfo.ts:46-58 | With a non-negative threshold, a missing token or an unresolved place means nothing is sent. |
| Pipeline.DublinLimerickDelay | src/fetchTrafficInfo.ts:74-90 | A 2400 s route at 50% congestion gives 20 minutes. |
| Pipeline.DublinLimerickSubject | src/workflows/freightNotification.ts:47 | The subject is "Freight Delay Notification: Dublin to Limerick". |
| Pipeline.DublinLimerickScenario | src/workflows/freightNotification.ts:32-47 | A 20-minute delay against threshold 15, type "email", with SendGrid configured, dispatches exactly one email. It goes to the recipient, under the route subject, with the composed message. |
| Pipeline.DublinLimerickNotifyOff | src/workflows/freightNotification.ts:43-50 | The same request with notify off composes but dispatches nothing. |

## Left out

- Temporal durability is not modelled: activity proxies, the 10 s `startToCloseTimeout`, retries, replay and cancellation (src/workflows/freightNotification.ts:9-11). The Temporal SDK provides them and is not part of this model. The code keeps no phase record, attempt counter or validation step of its own.
- Logging is not modelled. Every `console.log`/`console.error` is diagnostic, including the `formatMinutes` calls that only feed log lines.
- The Mapbox requests are not modelled beyond the `Lookup` values. URL building, `encodeURIComponent`, the `"lon,lat"` coordinate string and the SDK clients are replaced by response datatypes. `GeocodeFailed`, `DirectionsFailed` and `ChatFailed` stand for any thrown error, including a missing response body.
- AiMessage.RequestFor: the chat request keeps the endpoint URL, the bearer credential, the model, the prompt, the temperature and the token limit. It leaves out the `Content-Type` header and the `user` role of the single message, which are fixed.
- Malformed values inside a response are not modelled: a bad `center`, a missing `duration`, or non-numeric congestion entries.
- Floating point is not modelled. Arithmetic is over exact reals, so NaN, infinities and rounding in the mean and the divisions are absent.
- Utils.FormatMinutesOf: requires non-negative minutes. JavaScript `%` on negative operands is not modelled.
- Utils.FormatMinutesOf: multiplies over exact reals. JavaScript's float product `minutes * 60` can round (for example `0.1 * 60`), and that rounding is not modelled.
- AiMessage.GenerateAIMessage: requires a non-negative delay, because JavaScript `%` on negative operands is not modelled. The workflow only passes fetched delays, and those are never negative.
- AiMessage.Prompt: requires a non-negative delay, because JavaScript `%` on negative operands is not modelled. The workflow only passes fetched delays, and those are never negative.
- Notifications.SendNotification: the result is the payload handed to the transport, not whether delivery succeeded. A SendGrid or Twilio rejection is caught and logged (src/sendNotifications.ts:60-69, 86-95), so `sendNotification` resolves the same way either way. The model therefore has no failure case for it. It also assumes that `sgMail.setApiKey` (src/sendNotifications.ts:51) and the `twilio(...)` client constructor (line 84) do not throw. Both sit outside the `try` blocks, so a throw there would fail the activity.
- `Recipient` is modelled as two optional strings. Its declaring module, `recipient.ts`, is not part of this model.
- Process bootstrap is not modelled: `index.ts`, `temporalio.ts`, `src/worker.ts` and the re-exports in `src/activities/index.ts`.
