# LED-strip voice controller: PIN page and recording page

This project models the two pages of the front end that carry logic.

- **PIN page** (`src/pages/pin.js`). It checks the PIN format `^\d{4}$`. When Continue is clicked it either blocks navigation with an error or clears the error and follows a link that carries the device identifier (`uuid`) and the PIN as query parameters.
- **Recording page** (`src/pages/recording.js`). It is a controller over nine React state hooks (`uuid`, `pin`, `recording`, `audioBlob`, `error`, `loading`, `surpriseLoading`, `apiResponse`, `systemMessage`) plus the held `mediaRecorder`. Its handlers are:
  - reading the credentials from the query;
  - toggling the microphone recording;
  - the recorder callbacks that collect chunks and turn them into a blob;
  - "Send Audio" and "Surprise Me", which POST to the inference service.

Browser and network effects are inputs to the model. `MicResult` says how a start attempt went. `Outcome` says how a request ended: `Ok(data)`, `HttpError(message)` or `Exception`. Each asynchronous handler is split at its `await`: a *Begin* method covers the guards and the pending state and returns the request it would issue, and a *Finish* method applies the outcome.

Modules:

- `Wrappers`: `Option`, which stands for `null`/`undefined`.
- `Pin`: `validatePIN` as an anchored matcher, its characterisation, the continue link, and the `PinPage` class.
- `DataUrl`: JavaScript's `split` with a one-character separator, its inverse `Join`, and the data-URL prefix strip `split(",")[1]`.
- `RecordingSpec`: the page state as a value `View`, and one function per handler. Each function gives the new state from the old one. The lemmas state what the handlers promise.
- `RecordingPage`: the classes `Stream` (a microphone stream), `Recorder` (one `MediaRecorder` on a stream, with its take's `audioChunks`) and `Page`. Each handler updates fields in place and is proved to end in exactly the state the matching `RecordingSpec` function computes. Each also preserves `Valid()`: while recording, the installed recorder is capturing, so a stop always finds a recorder to release. That the identifier and the PIN are set together or not at all is proved about the `RecordingSpec` functions.

In a few places the intended behaviour of the system differs from what the code does. This model follows the code:

- **Empty blob.** A take that delivered no chunk still yields a `Blob`. A `Blob` is an object, so it is truthy and passes the "No audio recorded" guard (`TakeThenSend` with `chunks == []`). A send is meant to require a non-empty recording.
- **No single-flight rule.** A second send of the same kind is meant to be rejected while one is pending. Neither handler rejects it; only the disabled buttons prevent it, and they are presentation.
- **Toggle, not start and stop.** One toggle handler stops when `recording` is true and starts otherwise. A start does not discard the previous blob and does not clear the error.
- **Field 1, not the rest.** The data-URL strip returns field 1 of the comma split, which is not everything after the first comma. The two agree on data URLs whose payload has no comma (`StripBase64DataUrl`).
- **Credentials from the query.** The credentials are meant to be stored and read back. Here they come from query parameters, and nothing is persisted.
- **Message texts.** The error texts carry a leading "❌ ". The HTTP error text is `"❌ Error: " + message`, with fallback `"Invalid UUID or PIN."`. An empty message string is falsy and falls back too.
- **No recommendation extraction.** A recommendation is meant to be taken from the response. Here `apiResponse` is set to the whole parsed body, and no field is extracted from it.
- **A stream that leaks.** When the stream opens but `new MediaRecorder` throws, or the recorder's `start()` throws, the stream is never released. `ToggleRecording` returns that stream, still live: after `RecorderThrew` nothing on the page refers to it.

## Model

| member | source | states |
|---|---|---|
| `Pin.MatchesDigitsIff` | src/pages/pin.js:12-13 | the anchored pattern of n digits accepts a text iff it has length n and every character is an ASCII digit |
| `Pin.ValidatePinIff` | src/pages/pin.js:11-14 | `validatePIN(s)` holds iff `|s| == 4` and every character is in '0'..'9' |
| `Pin.ValidatePinExamples` | src/pages/pin.js:11-14 | "1234" and "0000" pass; "123", "12345", "12a4" and "" fail |
| `Pin.ValidatePin` | src/pages/pin.js:11-14 | computes `/^\d{4}$/.test(pin)` as an anchored left-to-right match of exactly four ASCII digits (characterised by `ValidatePinIff`) |
| `Pin.ContinueHref` | src/pages/pin.js:36 | computes the Continue link by plain concatenation of "/recording?uuid=", the identifier text, "&pin=" and the PIN |
| `Pin.ContinueHrefLayout` | src/pages/pin.js:36 | the link is "/recording?uuid=" then the identifier then "&pin=" then the PIN, unencoded; an absent identifier appears as the text "undefined" |
| `Pin.ContinueHrefInjective` | src/pages/pin.js:36 | for one identifier, different PINs give different links |
| `Pin.PinPage.constructor` | src/pages/pin.js:7-9 | the page starts with an empty PIN and no error, holding the query's `uuid` |
| `Pin.PinPage.EditPin` | src/pages/pin.js:31 | editing stores the raw input unfiltered and leaves the error as it was |
| `Pin.PinPage.HandleNext` | src/pages/pin.js:16-23 | an invalid PIN sets "❌ PIN must be exactly 4 digits." and cancels navigation; a valid one clears the error and navigates to the continue link |
| `DataUrl.Split` | src/pages/recording.js:66 | a split always yields at least one field |
| `DataUrl.JoinSplit` | src/pages/recording.js:66 | joining the fields of a split with the separator gives back the original text |
| `DataUrl.SplitFieldsFree` | src/pages/recording.js:66 | no field of a split contains the separator |
| `DataUrl.SplitNoSeparator` | src/pages/recording.js:66 | a text without the separator splits into itself alone |
| `DataUrl.SplitAtFirst` | src/pages/recording.js:66 | the text before the first separator is field 0 and the rest is split on its own |
| `DataUrl.SplitHasTwoFields` | src/pages/recording.js:66 | a text that holds the separator splits into at least two fields |
| `DataUrl.StripDataUrlPrefix` | src/pages/recording.js:66 | computes `reader.result.split(",")[1]`: field 1 of the comma split, or `None` (undefined) when there is no such field |
| `DataUrl.StripDefinedIff` | src/pages/recording.js:66 | `split(",")[1]` is defined iff the data URL holds a comma |
| `DataUrl.StripAfterFirstComma` | src/pages/recording.js:66 | after a comma-free head and a comma, the strip returns the longest comma-free prefix of the tail |
| `DataUrl.StripBase64DataUrl` | src/pages/recording.js:61-67 | for "data:<mime>;base64,<payload>" with no comma in mime or payload, the strip returns exactly the payload |
| `RecordingSpec.Initial` | src/pages/recording.js:6-14 | computes the initial hooks: "", "", false, null, "", false, false, null, "Ready to record! 🎙️" |
| `RecordingSpec.QueryLoaded` | src/pages/recording.js:18-23 | computes the query effect: uuid and pin both copied when both query values are truthy, the state unchanged otherwise |
| `RecordingSpec.Stopped` | src/pages/recording.js:27-33 | computes the stop branch: `recording` false and the "Recording stopped" message |
| `RecordingSpec.StartAttempted` | src/pages/recording.js:34-56 | computes the start branch: on `Granted`, `recording` true and the "Recording..." message; on any failure, only the microphone-denied error |
| `RecordingSpec.Saved` | src/pages/recording.js:45-49 | computes `onstop`: the blob is the recorder's chunks and the "Recording saved!" message is shown |
| `RecordingSpec.Began` | src/pages/recording.js:73-87 | computes the synchronous part of `sendAudio` (and of `surpriseMe`, lines 115-124): a failed guard sets only its error; otherwise the kind's loading flag is raised, the error and response are cleared and the pending message is shown |
| `RecordingSpec.RequestFor` | src/pages/recording.js:89-95 | computes the request issued (also `surpriseMe`'s at lines 126-131): none after a failed guard, else the kind's endpoint with uuid and pin, plus the blob for audio |
| `RecordingSpec.Finished` | src/pages/recording.js:97-111 | computes the part after the request (also `surpriseMe`'s at lines 133-147): Ok stores the data, an HTTP error sets `HttpErrorText`, an exception sets the server error, each with its kind's message, and then the kind's loading flag is lowered |
| `RecordingSpec.AudioGuard` | src/pages/recording.js:74-82 | the guard reports missing credentials iff uuid or pin is empty, a missing blob iff the credentials are set but there is no blob, and lets the send through iff both are present |
| `RecordingSpec.SurpriseGuard` | src/pages/recording.js:116-119 | the surprise guard lets the send through iff uuid and pin are non-empty, otherwise it reports missing credentials |
| `RecordingSpec.QueryLoadedFromInitial` | src/pages/recording.js:18-23 | from the initial state, uuid and pin are copied from the query iff both parameters are truthy; otherwise both stay "" and nothing else changes |
| `RecordingSpec.StopWritesOnlyRecordingAndMessage` | src/pages/recording.js:27-33 | stopping sets `recording` to false and "Recording stopped. 🎤 Ready to send?" and changes no other field, the blob included |
| `RecordingSpec.StartOutcomes` | src/pages/recording.js:34-56 | a refused start sets only "❌ Microphone access denied." and recording stays off; a granted start sets recording and the "Recording..." message and keeps the error and the blob |
| `RecordingSpec.GuardFailureOnlySetsError` | src/pages/recording.js:73-82 | a failed guard of either send changes only `error`, leaves both loading flags alone and issues no request |
| `RecordingSpec.AudioGuardOrder` | src/pages/recording.js:74-82 | missing credentials are reported first even when the blob is also missing |
| `RecordingSpec.SurpriseIgnoresBlob` | src/pages/recording.js:115-131 | the surprise guard does not depend on the blob, and a surprise request is issued iff uuid and pin are non-empty |
| `RecordingSpec.HttpErrorText` | src/pages/recording.js:103 | computes the HTTP error text: "❌ Error: " followed by the message when it is a non-empty string, else by "Invalid UUID or PIN." (the same text at line 139) |
| `RecordingSpec.HttpErrorTextLayout` | src/pages/recording.js:103 | the HTTP error text is "❌ Error: " followed by the server's message when it is a non-empty string, else by "Invalid UUID or PIN." |
| `RecordingSpec.HttpErrorTextInjective` | src/pages/recording.js:139 | different non-empty server messages give different error texts |
| `RecordingSpec.SendRound` | src/pages/recording.js:84-111 | across Begin and Finish, a send's own loading flag is raised while pending and lowered after every outcome, and the other kind's flag is untouched; the response is the data on Ok and null otherwise; the error is empty iff Ok; recording, blob and credentials survive |
| `RecordingSpec.RecordingHandlersKeepCredentialsPaired` | src/pages/recording.js:18-58 | initialising, loading the query, stopping, starting and saving keep uuid and pin either both empty or both set |
| `RecordingSpec.SendHandlersKeepCredentialsPaired` | src/pages/recording.js:73-148 | the Begin and Finish steps of both sends keep uuid and pin either both empty or both set |
| `RecordingSpec.TakeThenSend` | src/pages/recording.js:40-94 | with truthy query credentials, a granted start, a stop and `onstop`, the audio request carries exactly the collected chunks, even when there are none |
| `RecordingPage.Stream.constructor` | src/pages/recording.js:36 | a stream from `getUserMedia` starts live |
| `RecordingPage.Stream.StopTracks` | src/pages/recording.js:30 | stopping every track releases the microphone |
| `RecordingPage.Recorder.constructor` | src/pages/recording.js:37-40 | a new recorder is on the given stream, is not yet capturing and has an empty chunk list |
| `RecordingPage.Recorder.Start` | src/pages/recording.js:51 | starting makes the recorder capture and keeps its chunks |
| `RecordingPage.Recorder.DataAvailable` | src/pages/recording.js:41-43 | a delivered chunk is appended at the end of the chunk list; nothing else changes |
| `RecordingPage.Recorder.Stop` | src/pages/recording.js:29 | stopping ends capture and keeps the chunks |
| `RecordingPage.Page.constructor` | src/pages/recording.js:6-15 | the hooks start as "", "", false, null, "", false, false, null, "Ready to record! 🎙️" with no recorder |
| `RecordingPage.Page.LoadQuery` | src/pages/recording.js:18-23 | the query effect leaves the page in `QueryLoaded` of the old state |
| `RecordingPage.Page.ToggleRecording` | src/pages/recording.js:26-58 | stop: the recorder, if present, is stopped and its stream released, and under `Valid()` one always is present; the page is in `Stopped`. Start: the page is in `StartAttempted`; a refused request opens no stream; a recorder that throws leaves a fresh live stream that nothing on the page holds; otherwise a fresh recorder on a fresh live stream with empty chunks is installed, capturing only when granted; a previous recorder and its stream are untouched |
| `RecordingPage.Page.OnStop` | src/pages/recording.js:45-49 | the blob becomes the chunks of the recorder the callback belongs to, in push order, with the "Recording saved!" message |
| `RecordingPage.Page.SendAudioBegin` | src/pages/recording.js:73-95 | the page ends in `Began(Audio, …)` and the returned request is `RequestFor(Audio, …)` |
| `RecordingPage.Page.SendAudioFinish` | src/pages/recording.js:97-111 | the page ends in `Finished(Audio, …)`: the outcome's response or error and message, then `loading` false |
| `RecordingPage.Page.SurpriseMeBegin` | src/pages/recording.js:115-131 | the page ends in `Began(Surprise, …)` and the returned request is `RequestFor(Surprise, …)` |
| `RecordingPage.Page.SurpriseMeFinish` | src/pages/recording.js:133-147 | the page ends in `Finished(Surprise, …)`: the outcome's response or error and message, then `surpriseLoading` false |
| `RecordingPage.TakeAndSend` | src/pages/recording.js:26-112 | a two-chunk take followed by a successful send issues a request carrying both chunks in delivery order; it ends with the microphone released, the response shown, no error, not loading and not recording |

## Left out

- Rendering: JSX, Tailwind classes and button labels are presentation only. So are the `disabled={loading}` and `disabled={surpriseLoading}` attributes. The handlers themselves accept a second send while one is pending, and the model does the same.
- The browser APIs `fetch`, `getUserMedia`, `MediaRecorder` and `FileReader`: their results are the inputs `MicResult` and `Outcome`. The base64 encoding of the blob and the JSON serialisation of the request body are not modelled. `Request` names the endpoint, the credentials and the blob to be encoded. When the strip is undefined, `JSON.stringify` drops the `file` field; that is not modelled either.
- React scheduling: there is no interleaving of awaits, re-renders or effect timing. The events that `mediaRecorder.stop()` fires later are the separate methods `Recorder.DataAvailable` and `Page.OnStop`.
- Repeated query parameters: Next.js turns them into arrays. The query is a map from names to single strings.
- RecordingSpec.HttpErrorTextLayout: only string `message` values are modelled. A number or object message is stringified by the template literal; that is not modelled. A non-2xx body that is JSON `null` makes `data.message` throw, and the caller passes that case as `Exception`.
- Strings: a Dafny `string` is a sequence of Unicode scalar values, while a JavaScript string is a sequence of UTF-16 code units. Lone surrogates cannot be represented, and emoji have different lengths. No contract here depends on string lengths of non-ASCII text.
- Json: numbers in response bodies are integers. Floating point is not modelled.
- `src/pages/uuid.js`, `src/pages/index.js`, `src/pages/_app.js` and `next.config.js` are not part of this model. They hold a raw text input, static links, head metadata and build configuration.
- These pages have no credential storage, 4-slot PIN entry, connectivity probe, elapsed-time counter or `complete_data.recommendation` extraction, so none is modelled.
