# Event reminders and registration relay, modelled in Dafny

The repository's backend is two Supabase edge functions for a campus events app.

- `event-reminders` reminds students about events that start soon. A request may give `minutes_before`; the default is 30. The function fetches the events of the target date. It keeps those whose `hora` lies within five minutes of the target time. For every kept event it loads the registrations and posts one push message per student who has an FCM token. It replies with a count of the sends that did not throw.
- `notify-registration` tells an event's organizer that a student registered. It looks up the event with its organizer, then the student. When the organizer has a token it posts exactly one push message.

The model keeps the deterministic core of both functions. The store queries, the clock and the FCM calls become inputs:

- a query reply is a value (`Query`, `Fetch`);
- the target instant is a `Target` (date, local hour, local minute);
- the outcome of the k-th push call of a run is `deliver(k)`;
- the reply to the i-th registration query of a run is `lookup(i)`.

Modules:

- `Values`: `Option` and JavaScript truthiness of a nullable string.
- `Fcm`: the push payload and what one awaited push call gives (`Delivered` or `Threw`).
- `Decimal`: `toString()` of an integer and `padStart(2, "0")`, each with a parser that reads them back.
- `ReminderWindow`: the target time and the tolerance filter `InRange`.
- `ReminderText`: the lead-time phrase `TimeMessage` and the body `ReminderBody`.
- `ReminderDispatch`: the send loop as methods (`Dispatch`, `NotifyRegistrations`, `TrySend`) proved against the functions `Planned` (which sends are made, in order) and `Sent` (what `notificationsSent` holds). It also has the whole run, `Remind`. The source builds the push payload inside the per-registration loop. The payload depends only on the event and `minutes_before`, so the model builds it once per event (`Reminder`). `Planned` takes the payload of each event as a function (`Reminders(minutes_before)`).
- `RegistrationRelay`: the relay's decision as the function `Relay`.

Sends are sequential awaits. Nothing records what was already sent. The summary reports only the events found and the successful sends; it has no attempted or failed counters.

## Model

| member | source | states |
|---|---|---|
| `ReminderWindow.InRange` | appmoviles/supabase/functions/event-reminders/index.ts:52-63 | The kept events are exactly the fetched events that are due. Each due event is kept as many times as it was fetched, and every other event zero times, so `eventos_encontrados` is the number of due rows. They keep their order (an order-preserving subsequence). |
| `ReminderWindow.InRangeAppend` | appmoviles/supabase/functions/event-reminders/index.ts:52 | Filtering a concatenation gives the concatenation of the filtered parts, in order. |
| `ReminderWindow.ToleranceIsInclusive` | appmoviles/supabase/functions/event-reminders/index.ts:57-62 | An event d minutes from the target is kept exactly when -5 <= d <= 5. A difference of 5 is kept and 6 is not, on either side. |
| `ReminderWindow.MissingTimeNeverDue` | appmoviles/supabase/functions/event-reminders/index.ts:53-54 | Every kept event has a readable time. An event whose `hora` is missing, empty or unparsable is never kept. |
| `ReminderWindow.NoWrapAtMidnight` | appmoviles/supabase/functions/event-reminders/index.ts:58-60 | Minutes of the day are compared without wrap-around. An event at 23:58 is not due for a 00:02 target. |
| `ReminderWindow.ClockStringRoundTrip` | appmoviles/supabase/functions/event-reminders/index.ts:33-35 | `checked_time` has five characters with ':' in the middle. Its two fields read back as the target's hour and minute. |
| `Decimal.DecimalRoundTrip` | appmoviles/supabase/functions/event-reminders/index.ts:136 | The decimal rendering of `minutes_before` reads back as the same integer, negative values included. |
| `Decimal.TwoDigitRoundTrip` | appmoviles/supabase/functions/event-reminders/index.ts:33-34 | A number below 100, rendered and padded to two characters, is exactly two digits that read back as the number. |
| `Decimal.PadStart2` | appmoviles/supabase/functions/event-reminders/index.ts:33-34 | The result is the input preceded by zeros up to length two. A longer input is left unchanged. |
| `ReminderText.TimeMessage` | appmoviles/supabase/functions/event-reminders/index.ts:101-112 | The lead times fall into five bands (<=10, <=15, <=30, <=60, more). Each band gets its own phrase, in both directions, so the mapping is total. |
| `ReminderText.AdvertisedLeadTimes` | appmoviles/supabase/functions/event-reminders/index.ts:101-112 | Lead times 10, 15, 30 (the default) and 60 get their own phrase. One day (1440) gets "pronto". |
| `ReminderText.ReminderBody` | appmoviles/supabase/functions/event-reminders/index.ts:131 | The body starts with `"<nombre>" comienza <phrase>`. It is longer than that exactly when the location is truthy. |
| `ReminderText.LocationRoundTrip` | appmoviles/supabase/functions/event-reminders/index.ts:131 | The location read back from a body is the location itself when it is truthy. Otherwise there is none. |
| `ReminderDispatch.ReminderPayload` | appmoviles/supabase/functions/event-reminders/index.ts:129-137 | A reminder has the fixed title. Its `data` is typed `event_reminder`, carries the event id, and holds `minutes_before` as a string that reads back as the lead time. |
| `ReminderDispatch.TrySend` | appmoviles/supabase/functions/event-reminders/index.ts:120-149 | One push call is appended to the attempts. A record is appended only when the call did not throw, and the records equal `Sent` of the attempts. |
| `ReminderDispatch.NotifyRegistrations` | appmoviles/supabase/functions/event-reminders/index.ts:115-150 | The inner loop's attempts are the old ones plus this event's `EventAttempts`, and the records are `Sent` of them. |
| `ReminderDispatch.Dispatch` | appmoviles/supabase/functions/event-reminders/index.ts:78-151 | The attempts are `Planned` over all due events, and `notificationsSent` is `Sent` of those attempts. |
| `ReminderDispatch.EventAttemptsCount` | appmoviles/supabase/functions/event-reminders/index.ts:115-118 | An event with loaded registrations gets as many sends as it has registrations with a truthy token. |
| `ReminderDispatch.EventAttemptsAt` | appmoviles/supabase/functions/event-reminders/index.ts:115-145 | Each registration with a truthy token gets its own send, to its token, with its student's name and the event's message. The send's position is the number of token-bearing registrations before it, so sends follow registration order. |
| `ReminderDispatch.EventAttemptsFromRegistrations` | appmoviles/supabase/functions/event-reminders/index.ts:116-138 | Every send goes to the truthy token of one of the event's registrations. It carries that event's name and its reminder message. |
| `ReminderDispatch.TokenlessRegistrationSkipped` | appmoviles/supabase/functions/event-reminders/index.ts:116-118 | Removing a registration without a token leaves the event's sends unchanged. |
| `ReminderDispatch.FailedLookupSkipsOnlyThatEvent` | appmoviles/supabase/functions/event-reminders/index.ts:95-98 | When event i's registration query fails, its sends are dropped. The sends of every earlier and later event stay the same. |
| `ReminderDispatch.PlannedCount` | appmoviles/supabase/functions/event-reminders/index.ts:81-118 | The number of sends equals the number of token-bearing registrations of the due events whose query succeeded. |
| `ReminderDispatch.SentCount` | appmoviles/supabase/functions/event-reminders/index.ts:142-149 | The records plus the thrown calls number exactly the attempts. So `notificaciones_enviadas` never exceeds the attempts. |
| `ReminderDispatch.ThrownSendSkipsOnlyThatRecipient` | appmoviles/supabase/functions/event-reminders/index.ts:147-149 | A send that throws loses only its own record. The records of every other send stay the same. |
| `ReminderDispatch.Remind` | appmoviles/supabase/functions/event-reminders/index.ts:18-169 | A failed event query gives 500 with its message and no sends. No due event gives 200 "No hay eventos" with the date and "HH:MM" time, and no sends. Otherwise the reply is 200 with the count of due events and the `Sent` records, and the send count is bounded by the token-bearing registrations. |
| `RegistrationRelay.Relay` | appmoviles/supabase/functions/notify-registration/index.ts:19-113 | A missing event gives 404 and is checked before the token. An event found without an organizer token gives 200 with no send. Otherwise exactly one message is sent, with title, body `<name> se registró en "<evento>"` and data `new_registration`/`evento_id`. A thrown error gives 500 with its message. |
| `RegistrationRelay.RegistrationPayload` | appmoviles/supabase/functions/notify-registration/index.ts:87-96 | The organizer's message goes to the organizer's token, has the fixed title, and its `data` is typed `new_registration` with the requested event id. |
| `RegistrationRelay.RelayStatus` | appmoviles/supabase/functions/notify-registration/index.ts:44-113 | The status is 404 exactly for not-found, 500 exactly for an error, and 200 otherwise. The texts are "Evento no encontrado" and "Organizador sin token FCM". |
| `RegistrationRelay.StudentLookupNotFatal` | appmoviles/supabase/functions/notify-registration/index.ts:61-67 | A student lookup error changes nothing in the outcome. The name is `nombre apellido_paterno` when the user row exists and "Un estudiante" otherwise. |
| `RegistrationRelay.EventNameRoundTrip` | appmoviles/supabase/functions/notify-registration/index.ts:91 | Given the registrant's name, the event name reads back verbatim from the body. |

## Left out

- HTTP serving, CORS preflight and the construction of JSON replies: replies are the datatypes `ReminderResponse` and `Response`.
- Creating the Supabase client, and the queries: their replies are inputs. For reminders, the date filter (`.eq('fecha', …)`) happens in the store; the fetched rows are taken as given.
- The FCM `fetch` and the parsing of its reply: each call's outcome is an oracle value. Its response is an opaque string.
- The clock: `new Date()`, `toISOString` and `getHours`/`getMinutes` are replaced by the `Target` input. The date is UTC while the hour and minute are local time; a caller who builds a `Target` must reproduce that.
- `Remind` does not cover an invalid target instant. When `minutes_before` is so large in magnitude (beyond about 1.44e11) that the target falls outside the range of `Date`, `toISOString()` throws a `RangeError` and the function replies 500. A `Target` is always a valid instant, so `Remind` replies 200 whenever the event query succeeds.
- Parsing `hora` with `split(':').map(Number)`: the result is an input, `Hora`. It is missing or empty, unparsable (a `NaN` part), or an integral hour and minute. Fractional values that `Number` can produce are not modelled.
- `minutes_before` is modelled as an optional integer. A JSON `null`, a string or a fractional number in the request is not modelled.
- Logging has no effect on behaviour.
- The model assumes `SUPABASE_URL` and `SUPABASE_SERVICE_ROLE_KEY` are set. When either is missing, `createClient` throws and both functions reply 500 with that error (event-reminders/index.ts:22-25 and 164-169, notify-registration/index.ts:22-25 and 108-113). `Remind` and `Relay` do not cover this path. `FCM_SERVER_KEY` only goes into the request header of the push call, whose outcome is an input.
- A rejected promise from a Supabase query is not modelled. The client reports errors in `error`, and that is modelled.
- `null` values interpolated into message text are not modelled. Event names and student names are strings.
