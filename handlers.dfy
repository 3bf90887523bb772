/** The state of the synthesis page and its three handlers, `showAlert`,
    `handleSynthesis` and `handlePlayback` of static/script.js, as functions
    from one state to the next. The class `Page.Page` is proved against them. */
module Handlers {
  import opened Wrappers
  import opened JsTrim

  const Endpoint := "/generate-voice"
  const ReadyLabel := "SYNTHESIZE"
  const BusyLabel := "PROCESSING..."
  const NoInput := "NO INPUT DETECTED"
  const ApiFailed := "API request failed"
  const MissingUrl := "Audio URL not found in response."
  const Complete := "SYNTHESIS COMPLETE. PLAYING AUDIO."
  const PlayingLast := "PLAYING LAST SYNTHESIS."
  const NoAudio := "NO AUDIO AVAILABLE FOR PLAYBACK."

  /** How the request to the synthesis endpoint settles: a response whose
      status is not ok (with the `detail` of its JSON body, if any), an ok
      response (with the `audio_url` of its JSON body, if any), or a rejected
      promise (network failure, or a body that is not JSON) with its message. */
  datatype Outcome = NotOk(detail: Option<string>) | Ok(audioUrl: Option<string>) | Thrown(msg: string)

  /** One call of `showAlert`: the message and whether it is an error. */
  datatype Alert = Alert(text: string, isError: bool)

  /** A POST to `path` whose JSON body is `{ "text": text }`. */
  datatype Request = Request(path: string, text: string)

  /** Everything the handlers read or write. The first eight fields are the
      page's own state; `alerts`, `requests` and `played` record the calls of
      `showAlert`, `fetch` and `audioPlayback.play()` in order. */
  datatype UiState = UiState(
    lastAudioUrl: Option<string>,
    synthesizeDisabled: bool,
    playbackDisabled: bool,
    synthesizeLabel: string,
    notificationText: string,
    notificationDataText: string,
    notificationError: bool,
    audioSrc: string,
    alerts: seq<Alert>,
    requests: seq<Request>,
    played: seq<string>)

  /** The notification bar shows `a` and `a` is the latest alert. */
  predicate Shows(s: UiState, a: Alert) {
    && s.notificationText == a.text
    && s.notificationDataText == a.text
    && s.notificationError == a.isError
    && s.alerts != [] && s.alerts[|s.alerts| - 1] == a
  }

  /** Both buttons, the label, the slot and the audio element are as in `s`. */
  predicate SameControls(s: UiState, r: UiState) {
    && r.lastAudioUrl == s.lastAudioUrl
    && r.synthesizeDisabled == s.synthesizeDisabled
    && r.playbackDisabled == s.playbackDisabled
    && r.synthesizeLabel == s.synthesizeLabel
    && r.audioSrc == s.audioSrc
    && r.played == s.played
  }

  /** The page after its initialisation: the markup supplies the button label
      and the notification bar's text and `data-text`; the slot is empty, the
      playback button disabled, the audio element has no source. */
  function Init(buttonLabel: string, notice: string, dataText: string): (r: UiState)
    ensures r.lastAudioUrl == None && r.playbackDisabled && !r.synthesizeDisabled
    ensures r.alerts == [] && r.requests == [] && r.played == []
  {
    UiState(None, false, true, buttonLabel, notice, dataText, false, "", [], [], [])
  }

  /** The synchronous part of `showAlert`: text, `data-text` and the `error`
      class of the notification bar. */
  function ShowAlert(s: UiState, message: string, isError: bool): (r: UiState)
    ensures Shows(r, Alert(message, isError))
    ensures r.alerts == s.alerts + [Alert(message, isError)]
    ensures SameControls(s, r) && r.requests == s.requests
  {
    s.(notificationText := message, notificationDataText := message,
       notificationError := isError, alerts := s.alerts + [Alert(message, isError)])
  }

  /** `handleSynthesis` up to the `await` of the request: an input that trims
      to nothing is refused with an alert; otherwise both buttons are disabled,
      the label turns busy and exactly one request carrying the trimmed text
      is sent. */
  function BeginSynthesis(s: UiState, input: string): (r: UiState)
    ensures Trim(input) == [] ==>
              && r.alerts == s.alerts + [Alert(NoInput, true)] && Shows(r, Alert(NoInput, true))
              && r.requests == s.requests && SameControls(s, r)
    ensures Trim(input) != [] ==>
              && r.requests == s.requests + [Request(Endpoint, Trim(input))]
              && r.synthesizeDisabled && r.playbackDisabled && r.synthesizeLabel == BusyLabel
              && r.alerts == s.alerts && r.lastAudioUrl == s.lastAudioUrl && r.played == s.played
              && r.notificationText == s.notificationText && r.notificationDataText == s.notificationDataText
              && r.notificationError == s.notificationError && r.audioSrc == s.audioSrc
  {
    var text := Trim(input);
    if text == [] then
      ShowAlert(s, NoInput, true)
    else
      s.(synthesizeDisabled := true, playbackDisabled := true, synthesizeLabel := BusyLabel,
         requests := s.requests + [Request(Endpoint, text)])
  }

  /** A successful outcome: an ok response with a truthy `audio_url`. */
  predicate Delivers(o: Outcome) {
    o.Ok? && Truthy(o.audioUrl)
  }

  /** The alert the `try`/`catch` shows for an outcome. */
  function OutcomeAlert(o: Outcome): (a: Alert)
    ensures a.isError <==> !Delivers(o)
    ensures o.NotOk? ==> a.text == (if Truthy(o.detail) then o.detail.value else ApiFailed)
    ensures o.Ok? ==> a.text == (if Truthy(o.audioUrl) then Complete else MissingUrl)
    ensures o.Thrown? ==> a.text == o.msg
  {
    match o
    case NotOk(detail) => Alert(OrElse(detail, ApiFailed), true)
    case Ok(url) => if Truthy(url) then Alert(Complete, false) else Alert(MissingUrl, true)
    case Thrown(msg) => Alert(msg, true)
  }

  /** The `finally` block: the synthesize button comes back with its label, and
      the playback button is enabled only if the slot holds a URL. */
  function Restore(s: UiState): (r: UiState)
    ensures !r.synthesizeDisabled && r.synthesizeLabel == ReadyLabel
    ensures r.playbackDisabled == (s.playbackDisabled && !Truthy(s.lastAudioUrl))
    ensures r.lastAudioUrl == s.lastAudioUrl && r.audioSrc == s.audioSrc
    ensures r.alerts == s.alerts && r.requests == s.requests && r.played == s.played
    ensures r.notificationText == s.notificationText && r.notificationDataText == s.notificationDataText
    ensures r.notificationError == s.notificationError
  {
    s.(synthesizeDisabled := false, synthesizeLabel := ReadyLabel,
       playbackDisabled := if Truthy(s.lastAudioUrl) then false else s.playbackDisabled)
  }

  /** `handleSynthesis` after the request settles: exactly one alert; the slot
      takes the URL of a successful outcome and keeps its value otherwise; the
      URL is played; then the `finally` block runs whatever the outcome. */
  function SettleSynthesis(s: UiState, o: Outcome): (r: UiState)
    ensures r.alerts == s.alerts + [OutcomeAlert(o)] && Shows(r, OutcomeAlert(o))
    ensures r.requests == s.requests
    ensures r.lastAudioUrl == (if Delivers(o) then o.audioUrl else s.lastAudioUrl)
    ensures r.played == (if Delivers(o) then s.played + [o.audioUrl.value] else s.played)
    ensures Delivers(o) ==> r.audioSrc == o.audioUrl.value
    ensures !Delivers(o) ==> r.audioSrc == s.audioSrc
    ensures !r.synthesizeDisabled && r.synthesizeLabel == ReadyLabel
    ensures Truthy(r.lastAudioUrl) ==> !r.playbackDisabled
    ensures !Truthy(r.lastAudioUrl) ==> r.playbackDisabled == s.playbackDisabled
  {
    var caught :=
      match o
      case NotOk(detail) => ShowAlert(s, OrElse(detail, ApiFailed), true)
      case Ok(url) =>
        if Truthy(url) then
          ShowAlert(s, Complete, false).(lastAudioUrl := url, audioSrc := url.value,
                                         played := s.played + [url.value])
        else
          ShowAlert(s, MissingUrl, true)
      case Thrown(msg) => ShowAlert(s, msg, true);
    Restore(caught)
  }

  /** The whole of `handleSynthesis` for a given input and outcome. */
  function Synthesize(s: UiState, input: string, o: Outcome): (r: UiState)
    // exactly one alert per call, and it is what the bar shows
    ensures |r.alerts| == |s.alerts| + 1 && r.alerts[..|s.alerts|] == s.alerts && Shows(r, r.alerts[|s.alerts|])
    // empty input: an error alert, no request, nothing else changes
    ensures Trim(input) == [] ==>
              r.alerts[|s.alerts|] == Alert(NoInput, true) && r.requests == s.requests && SameControls(s, r)
    // otherwise one request with the trimmed text, and the controls come back
    ensures Trim(input) != [] ==>
              && r.requests == s.requests + [Request(Endpoint, Trim(input))]
              && !r.synthesizeDisabled && r.synthesizeLabel == ReadyLabel
              && (r.playbackDisabled <==> !Truthy(r.lastAudioUrl))
    // the alert for each outcome
    ensures Trim(input) != [] && o.NotOk? ==>
              r.alerts[|s.alerts|] == Alert(if Truthy(o.detail) then o.detail.value else ApiFailed, true)
    ensures Trim(input) != [] && o.Ok? && Truthy(o.audioUrl) ==> r.alerts[|s.alerts|] == Alert(Complete, false)
    ensures Trim(input) != [] && o.Ok? && !Truthy(o.audioUrl) ==> r.alerts[|s.alerts|] == Alert(MissingUrl, true)
    ensures Trim(input) != [] && o.Thrown? ==> r.alerts[|s.alerts|] == Alert(o.msg, true)
    // the slot is overwritten only by a delivered URL, which is then played
    ensures r.lastAudioUrl == (if Trim(input) != [] && Delivers(o) then o.audioUrl else s.lastAudioUrl)
    ensures r.played == (if Trim(input) != [] && Delivers(o) then s.played + [o.audioUrl.value] else s.played)
  {
    var begun := BeginSynthesis(s, input);
    if Trim(input) == [] then begun else SettleSynthesis(begun, o)
  }

  /** `handlePlayback`: replays the slot's URL, or reports that there is none.
      Either way one alert, no request, and no button or slot change. */
  function Playback(s: UiState): (r: UiState)
    ensures |r.alerts| == |s.alerts| + 1 && r.alerts[..|s.alerts|] == s.alerts && Shows(r, r.alerts[|s.alerts|])
    ensures r.requests == s.requests && r.lastAudioUrl == s.lastAudioUrl
    ensures r.synthesizeDisabled == s.synthesizeDisabled && r.playbackDisabled == s.playbackDisabled
    ensures r.synthesizeLabel == s.synthesizeLabel
    ensures Truthy(s.lastAudioUrl) ==>
              && r.alerts[|s.alerts|] == Alert(PlayingLast, false)
              && r.played == s.played + [s.lastAudioUrl.value] && r.audioSrc == s.lastAudioUrl.value
    ensures !Truthy(s.lastAudioUrl) ==>
              r.alerts[|s.alerts|] == Alert(NoAudio, true) && r.played == s.played && r.audioSrc == s.audioSrc
  {
    if Truthy(s.lastAudioUrl) then
      var url := s.lastAudioUrl.value;
      ShowAlert(s, PlayingLast, false).(audioSrc := url, played := s.played + [url])
    else
      ShowAlert(s, NoAudio, true)
  }

  /** After a successful synthesis, a replay plays the very URL that was
      delivered, and issues no request of its own. */
  lemma ReplayAfterSuccess(s: UiState, input: string, url: string)
    requires Trim(input) != [] && url != ""
    ensures var done := Synthesize(s, input, Ok(Some(url)));
            && !done.playbackDisabled
            && Playback(done).played == s.played + [url, url]
            && Playback(done).requests == s.requests + [Request(Endpoint, Trim(input))]
  {
  }
}
