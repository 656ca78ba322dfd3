# API tester session model

A Dafny model of the request-session state machine of the single-page API
tester (`APITester` in `app/page.tsx`). The page keeps one session: a request
draft (method, URL, an editable list of header pairs, a body text), the latest
result (response, status, elapsed time), a log of at most ten successful
sends, newest first, and a busy flag that disables the Send button while a
send is in flight. Every handler of the request session is modelled as a
pure transition on one immutable `Session` value.

Modules:

- `Wrappers` (`wrappers.dfy`): `Option` and `Min`.
- `Methods` (`methods.dfy`): the five offered methods and their names.
- `Headers` (`headers.dfy`): adding, removing and editing header pairs, and the
  header map that is actually sent.
- `Requests` (`request.dfy`): the outgoing request and the rule for attaching
  a body.
- `History` (`history.dfy`): log entries and the bounded newest-first push.
- `ApiTester` (`session.dfy`): the session record, its initial value, the
  edit handlers, the two halves of a send, history replay and the samples.
- `Display` (`display.dfy`): badge and colour rules for the status, the log
  entries and the method tags, and when the elapsed time is drawn.
- `Scenarios` (`scenarios.dfy`): whole-session properties (repeated sends,
  eleven sends from a fresh page, samples, what a failure shows).

The network call, JSON decoding, the clock and the locale time string are not
modelled; they are parameters. A send is split the way the handler's closure
works: `StartSend` (only when not busy) fixes the request, the start time
and the log from the session as it is at that moment, and `Complete` takes the
`Outcome` (`Ok(status, json)` or `Err(message)`), the end time and the time
string. `Send` is the two back to back. `SendAcrossEdits` covers user actions
made while a send is in flight. No user action touches the log, so the log the
closure captured is the one shown when the send completes.

Three behaviours of the code worth knowing:

- Editing a header row that does not exist throws: it assigns a field of
  `undefined`. `UpdateHeader` therefore requires an existing index.
- When header keys repeat, the code builds a plain key/value record, so the
  last pair with a non-empty key and value wins.
- A failed send records neither an elapsed time nor a log entry. As a
  consequence, stated by `Scenarios.FailureShowsRedAndStaleTime`, after a
  failure the page still shows the previous send's elapsed time.

## Model

| member | source | states |
|---|---|---|
| Methods.Parse | app/page.tsx:100-106 | a selector value maps to a method whose name it is, and to none when no offered method has that name |
| Methods.ParseName | app/page.tsx:7 | every method round-trips through its name and is offered exactly once |
| Headers.AddHeader | app/page.tsx:28 | exactly one blank pair is appended; the existing pairs are kept in place |
| Headers.RemoveHeader | app/page.tsx:29 | the index filter drops only position `index` and keeps the rest in order; an index outside the list changes nothing |
| Headers.RemoveAfterAdd | app/page.tsx:28-29 | removing at the old length right after adding restores the list |
| Headers.UpdateHeader | app/page.tsx:30-34 | for an existing row, only the chosen half of that row changes; length, the other half and all other rows stay |
| Headers.UpdateOverrides | app/page.tsx:30-34 | a later edit of the same half overrides an earlier one; writing back the current text changes nothing |
| Headers.EffectiveHeaders | app/page.tsx:41-44 | every key in the sent map and its value are non-empty |
| Headers.EffectiveHeadersKeys | app/page.tsx:41-44 | a key is sent exactly when some pair with non-empty key and value carries it |
| Headers.EffectiveHeadersLastWins | app/page.tsx:41-44 | the value sent for a key is that of the last qualifying pair with that key |
| Headers.BlankPairsDropped | app/page.tsx:43 | inserting a pair with an empty key or value anywhere leaves the sent map unchanged |
| Requests.AttachedBody | app/page.tsx:46-49 | a body is attached exactly when the method is not GET and the text is non-empty, and it is then the text unchanged |
| Requests.BuildRequest | app/page.tsx:41-49 | the request carries the draft's method and URL, the filtered header map, and never a body for GET or for an empty text |
| History.Push | app/page.tsx:59 | the new entry is first, followed by the prior entries in order, and the length is min(old length + 1, 10) |
| History.PushAllIsNewestFirst | app/page.tsx:59 | a batch of pushes equals the batch reversed in front of the prior log, cut to 10 |
| History.PushAllFromEmpty | app/page.tsx:59 | from an empty log, N pushes leave min(N, 10) entries, position i holding push number N - i |
| ApiTester.Init | app/page.tsx:16-24 | the first render is a GET with an empty body, no response or status, no log, not busy, sending only Content-Type: application/json |
| ApiTester.AddHeader | app/page.tsx:28 | the session gains one blank header row at the end and nothing else changes |
| ApiTester.RemoveHeader | app/page.tsx:29 | only the header list changes, by dropping row `index`; an index outside the list leaves the session as it was |
| ApiTester.UpdateHeader | app/page.tsx:30-34 | only the chosen half of row `index` changes in the whole session |
| ApiTester.LoadFromHistory | app/page.tsx:74-78 | method, URL and response come from the entry; headers, body, status, elapsed time, log and busy flag are unchanged |
| ApiTester.LoadPreset | app/page.tsx:230 | only the method and the URL change, to those of the sample |
| ApiTester.StartSend | app/page.tsx:36-49 | allowed only when not busy (the Send button is disabled while busy, line 116); the page turns busy and the request, start time and log are fixed from the current draft |
| ApiTester.Complete | app/page.tsx:51-65 | success: the body and status become current, elapsed = end - start, the entry is pushed in front of the captured log; failure: an error object with status 500, elapsed time and log unchanged; both: not busy, draft unchanged |
| ApiTester.Send | app/page.tsx:36-66 | the same two outcomes stated against the session before the send, and the log stays within 10 entries |
| ApiTester.Apply | app/page.tsx:100-230 | each user action changes only its own part of the session: choosing in the selector sets the method named by the option, typing sets the URL or the body, header events edit only the header list, a log or sample click acts as LoadFromHistory or LoadPreset; none changes the log, status, elapsed time or busy flag |
| ApiTester.ApplyAllKeepsResult | app/page.tsx:100-230 | any run of user actions leaves the log, status, elapsed time and busy flag as they were |
| ApiTester.SendAcrossEdits | app/page.tsx:36-66 | with user actions during a send, Send stays disabled, the logged method and URL are those at Send time, and the log grows by exactly that entry or not at all |
| ApiTester.StepsKeepValid | app/page.tsx:59 | the initial session, every user action, the start and the end of a send keep the log within 10 entries |
| Display.StatusBadge | app/page.tsx:201-202 | the badge is drawn only for a set, non-zero status: green below 300, yellow from 300 to 399, red from 400 |
| Display.HistoryColour | app/page.tsx:186 | a log status is green below 400 and red otherwise |
| Display.MethodColour | app/page.tsx:182 | GET blue, POST green, DELETE red, PUT and PATCH yellow |
| Display.ElapsedShown | app/page.tsx:206 | the elapsed time is drawn exactly when it is positive |
| Display.BadgeAgreesWithHistory | app/page.tsx:186-202 | for a drawn status, the badge is red exactly when the log colour is red |
| Display.BadgeMonotone | app/page.tsx:202 | a higher status never gets a milder badge |
| Scenarios.SendAllPushes | app/page.tsx:55-59 | consecutive successful sends leave the draft (method, URL, headers, body) unchanged and push their entries in order |
| Scenarios.ElevenSends | app/page.tsx:59 | after eleven sends from a fresh page ten entries remain, the eleventh send first and the first send evicted |
| Scenarios.PresetsSendNoBody | app/page.tsx:9-13 | every sample is a GET, so sending it never carries a body |
| Scenarios.FailureShowsRedAndStaleTime | app/page.tsx:60-65 | after a failed send the badge is red and the elapsed time shown is still the previous one |
| Scenarios.FirstSendOk | app/page.tsx:51-59 | a 200 on the first send shows a green badge, the body, a positive elapsed time when the clock advanced, and a one-entry log |

## Left out

- `fetch` and `res.json()` (app/page.tsx:51-52): network I/O and JSON decoding; represented by the `Outcome` parameter, where both a network failure and an undecodable body are `Err`.
- `Date.now()` and `toLocaleTimeString()` (app/page.tsx:38, 53, 59): clock and locale; start time, end time and the time string are parameters.
- The decoded JSON value is opaque: the model keeps it as a text (`Decoded(json)`) and does not model `JSON.stringify` pretty-printing (app/page.tsx:216).
- Whether the response panel is drawn at all (`response &&`, app/page.tsx:196) depends on the JavaScript truthiness of an arbitrary JSON value, which the opaque payload does not carry.
- The clipboard write and the two-second "Copied" flag (app/page.tsx:68-72): a browser API and a timer.
- Tab switching, markup, styling, animation and icons: presentation only.
- Asynchronous interleaving of React state updates: one send is two atomic steps, `StartSend` and `Complete`, with user actions in between.
- The shared-object mutation in `updateHeader` (the shallow copy shares the pair objects with the previous list): no older list is read after an edit, so it is not observable and the model replaces the pair.
- Header-name normalisation done by the browser's fetch (case folding, forbidden names) and the special `__proto__` key of a plain object: inside the network layer or the JavaScript object model, not the page's logic.
- app/layout.tsx: metadata and a root wrapper, no logic.
