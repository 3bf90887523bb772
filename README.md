# Synthesis page controller, modelled in Dafny

The front end of a text-to-speech page (static/script.js). A user types text
and presses SYNTHESIZE. The page trims the text. It refuses empty text with an
error notification. Otherwise it disables both buttons, POSTs
`{ "text": … }` to `/generate-voice` and waits for the response. The response
decides the notification. A delivered `audio_url` is stored in the one-slot
`lastAudioUrl` and played. A `finally` block then re-enables the synthesize
button, and it re-enables the playback button when the slot holds a URL.
PLAY LAST replays the stored URL, or reports that there is none.

Modules:

- `Wrappers` (wrappers.dfy): `Option` and JavaScript truthiness of a string that may be missing.
- `JsTrim` (trim.dfy): `String.prototype.trim` as a pure function over the white space and line terminators of ECMA-262.
- `Handlers` (handlers.dfy): the page state `UiState` and the handlers as functions from state to state. This is the specification.
- `Page` (page.dfy): the class `Page`. Its fields are the page's mutable state (`lastAudioUrl`, the two `disabled` flags, the button label, the notification bar's text, `data-text` and `error` class, the audio element's `src`). Its ghost logs record the alerts shown, the requests sent and the URLs played. Each method is proved to produce the state given by the matching `Handlers` function.
- `Session` (session.dfy): runs of click and response events. A disabled button fires no click. `handleSynthesis` is split at its `await` into `BeginSynthesis` and `SettleSynthesis`, so a run can place other clicks between a request and its response.

The network call and its JSON parsing are an input, `Outcome`:

- `NotOk(detail)`: a non-ok status, with the body's `detail` if it has one.
- `Ok(audioUrl)`: an ok status, with the body's `audio_url` if it has one.
- `Thrown(msg)`: a rejected `fetch`, or a body that is not JSON, with the error's message.

JavaScript truthiness of these strings is explicit. An empty `detail` or `audio_url` behaves as a missing one.

## Model

| member | source | states |
|---|---|---|
| `Wrappers.OrElse` | static/script.js:152 | the JavaScript `or` of the `detail` and 'API request failed': the detail when it is present and non-empty, the fallback otherwise |
| `JsTrim.SkipSpace` | static/script.js:133 | the first index at or after the start that does not hold white space (or the end); everything skipped is white space |
| `JsTrim.SkipSpaceBack` | static/script.js:133 | walking back from the end, the end of the last character that is not white space; everything walked over is white space |
| `JsTrim.Trim` | static/script.js:133 | result is a contiguous slice of the input with no white space at either end, and only white space is cut away on each side |
| `JsTrim.TrimEmptyIff` | static/script.js:133-134 | the trimmed input is empty exactly when the input is all white space (both directions) |
| `JsTrim.TrimIdempotent` | static/script.js:133 | trimming a trimmed string changes nothing |
| `Handlers.Init` | static/script.js:21-24 | initially the slot is empty, the playback button is disabled, the synthesize button is enabled, and nothing has been shown, sent or played |
| `Handlers.ShowAlert` | static/script.js:106-109 | the bar's text and `data-text` become the message; its `error` class is the error flag; one alert is logged; buttons, label, slot and audio are untouched |
| `Handlers.BeginSynthesis` | static/script.js:133-148 | empty trimmed input: the alert is the error 'NO INPUT DETECTED', no request is sent, and buttons, label and slot are unchanged. Otherwise exactly one request to `/generate-voice` carrying the trimmed text, sent with both buttons disabled and the label 'PROCESSING...', leaving the slot, the audio source and the notification bar unchanged |
| `Handlers.OutcomeAlert` | static/script.js:150-169 | the alert is an error exactly when no URL was delivered; its text is the truthy `detail` or 'API request failed', 'SYNTHESIS COMPLETE. PLAYING AUDIO.', 'Audio URL not found in response.', or the thrown message |
| `Handlers.Restore` | static/script.js:170-174 | the synthesize button is enabled and labelled 'SYNTHESIZE'; the playback button is enabled when the slot holds a URL and otherwise keeps its flag; the slot, the audio source, the notification bar and the logs are unchanged |
| `Handlers.SettleSynthesis` | static/script.js:150-174 | exactly one alert, the outcome's. The slot takes the delivered URL, which is also played and becomes the audio source; otherwise slot and playback log are unchanged. No further request. The `finally` restoration follows |
| `Handlers.Synthesize` | static/script.js:132-175 | one alert per call, which is what the bar shows. Empty input: 'NO INPUT DETECTED' error, no request, controls unchanged. Otherwise: one request with the trimmed text; the synthesize button is re-enabled with its label restored; the playback button is enabled iff the slot holds a URL, even one from an earlier success. The alert for each outcome as listed above. The slot is overwritten only by a delivered URL and otherwise keeps its value |
| `Handlers.Playback` | static/script.js:177-185 | with a URL in the slot: the non-error alert 'PLAYING LAST SYNTHESIS.' and exactly that URL played. Without one: the error alert 'NO AUDIO AVAILABLE FOR PLAYBACK.' and nothing played. Either way no request, and no change to the buttons, the label or the slot |
| `Handlers.ReplayAfterSuccess` | static/script.js:158-162 | after a successful synthesis the playback button is enabled, and a replay plays the same URL again without a new request |
| `Page.Page.constructor` | static/script.js:21-24 | the page starts in the state `Handlers.Init` describes |
| `Page.Page.ShowAlert` | static/script.js:106-109 | updates the bar's fields in place as `Handlers.ShowAlert` describes |
| `Page.Page.BeginSynthesis` | static/script.js:133-148 | returns the trimmed text; when it is non-empty, both buttons are disabled and exactly that request has been appended |
| `Page.Page.SettleSynthesis` | static/script.js:150-174 | the new page state is `Handlers.SettleSynthesis` of the old one; the synthesize button is enabled afterwards |
| `Page.Page.HandleSynthesis` | static/script.js:132-175 | the new page state is `Handlers.Synthesize` of the old one: one alert; the slot changes only to a delivered URL; the controls are restored when a request was sent |
| `Page.Page.HandlePlayback` | static/script.js:177-185 | the new page state is `Handlers.Playback` of the old one: the stored URL is played, or the 'NO AUDIO AVAILABLE' error is logged and nothing is played |
| `Session.StartConsistent` | static/script.js:21-24 | the initial page is consistent: no request outstanding, empty slot, playback disabled |
| `Session.StepConsistent` | static/script.js:132-185 | any click or response keeps the page consistent. Between requests: synthesize enabled, playback enabled iff a URL is stored. During a request: both disabled. Any stored URL is non-empty |
| `Session.RunConsistent` | static/script.js:132-185 | every page state reachable by clicks and responses is consistent |
| `Session.InFlightIgnoresClicks` | static/script.js:139-140 | while a request is outstanding, clicking either button changes nothing, so no second request is sent |
| `Session.EmptyReplayUnreachable` | static/script.js:24 | from the initial page, a playback click takes effect exactly when no request is outstanding and a URL is stored, so the 'NO AUDIO AVAILABLE' branch is never reached through the button |
| `Session.RequestsBalance` | static/script.js:143-174 | requests sent equal requests settled plus at most one outstanding |
| `Session.SlotNeverCleared` | static/script.js:160 | once the slot holds a URL it never returns to empty |
| `Session.SlotFromSuccess` | static/script.js:156-160 | the slot keeps its value, or holds a non-empty URL that some ok response delivered |
| `Session.DeliveredThenReplayed` | static/script.js:158-185 | a delivered response ends the request and restores the controls; a replay then plays the delivered URL again and sends no request |

## Left out

- The timed part of `showAlert` (static/script.js:111-129) is left out: the 500 ms entrance animation, the `glitch` class, and the 3000 ms timeout that later removes `glitch` and `error`. The code never cancels an earlier timeout when a new alert arrives. So an old alert's expiry can remove the `error` class from a newer error message. A cancel-and-restart rule for notifications is therefore not part of this model, because the code does not have one.
- When an old alert's 3000 ms timeout fires, it also fades the notification bar to opacity 0 (static/script.js:120-124). That hides a newer message early too, not only its `error` class. Opacity and animation are not modelled.
- The `console.error` call in the `catch` block (static/script.js:168) is left out. It only writes to the browser console and changes no page state.
- `Handlers.Init` assumes the markup does not give the notification bar the `error` class (`notificationError` starts false). The label and the bar's text and `data-text`, by contrast, are parameters.
- `fetch`, `response.json()` and `audioPlayback.play()` are browser I/O. They appear only as the `Outcome` input and the ghost logs of requests and played URLs. A JSON parse failure is a `Thrown` outcome. A failure of `play()` is not observed.
- Non-string JSON values are left out. A `detail` or `audio_url` that is truthy but not a string (a number, an object, or the list FastAPI sends with a 422 response) would be turned into text by JavaScript. `Outcome` carries only strings or nothing.
- The button label is set by a 300 ms anime.js animation. The model keeps only the label the animation ends on. The initial label and the initial text of the notification bar come from the page markup, which is not part of this model; they are parameters of the constructor.
- The synthesize button is assumed enabled in the initial markup.
- The request has no timeout in the code, so a request that never settles leaves both buttons disabled forever. `Session` lets a run simply end with a request outstanding.
- No explicit "request in flight" state exists in the code. Only the disabled buttons prevent a second request. `Session` models this as a `ClickSynthesize` on a disabled button doing nothing, and `Page.Page.HandleSynthesis` has no such guard.
- Left out as decorative: `runBootSequence`, `initHUD`, `initInteractiveAnimations` (hover effects), `initParallax` and `updateLiveStats` (clock and random telemetry).
- main.py is not part of this model. It is the server-side proxy to the speech service.
