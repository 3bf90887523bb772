/** The page itself: the top-level `lastAudioUrl`, the two buttons, the
    notification bar and the audio element, updated in place by the handlers
    of static/script.js. Each method is proved to take the page from one state
    to the state the matching function of `Handlers` describes. */
module Page {
  import opened Wrappers
  import opened JsTrim
  import opened Handlers

  class Page {
    var lastAudioUrl: Option<string>
    var synthesizeDisabled: bool
    var playbackDisabled: bool
    var synthesizeLabel: string
    var notificationText: string
    var notificationDataText: string
    var notificationError: bool
    var audioSrc: string
    // what the page has done so far: alerts shown, requests sent, URLs played
    ghost var alerts: seq<Alert>
    ghost var requests: seq<Request>
    ghost var played: seq<string>

    ghost function State(): UiState
      reads this
    {
      UiState(lastAudioUrl, synthesizeDisabled, playbackDisabled, synthesizeLabel,
              notificationText, notificationDataText, notificationError, audioSrc,
              alerts, requests, played)
    }

    /** The `DOMContentLoaded` initialisation: the slot starts empty and the
        playback button starts disabled. */
    constructor (buttonLabel: string, notice: string, dataText: string)
      ensures State() == Init(buttonLabel, notice, dataText)
      ensures lastAudioUrl == None && playbackDisabled
    {
      lastAudioUrl := None;
      synthesizeDisabled := false;
      playbackDisabled := true;
      synthesizeLabel := buttonLabel;
      notificationText := notice;
      notificationDataText := dataText;
      notificationError := false;
      audioSrc := "";
      alerts, requests, played := [], [], [];
    }

    /** The synchronous part of `showAlert`. */
    method ShowAlert(message: string, isError: bool)
      modifies this
      ensures State() == Handlers.ShowAlert(old(State()), message, isError)
    {
      notificationText := message;
      notificationDataText := message;
      notificationError := isError;
      alerts := alerts + [Alert(message, isError)];
    }

    /** `handleSynthesis` up to the `await`: returns the trimmed text, which is
        empty when the input was refused and otherwise is the body of the one
        request sent with both buttons disabled. */
    method BeginSynthesis(input: string) returns (text: string)
      modifies this
      ensures text == Trim(input)
      ensures State() == Handlers.BeginSynthesis(old(State()), input)
      ensures text != [] ==> synthesizeDisabled && playbackDisabled
                             && requests == old(requests) + [Request(Endpoint, text)]
    {
      text := Trim(input);
      if text == [] {
        ShowAlert(NoInput, true);
        return;
      }
      synthesizeDisabled := true;
      playbackDisabled := true;
      synthesizeLabel := BusyLabel;
      requests := requests + [Request(Endpoint, text)];
    }

    /** `handleSynthesis` once the request has settled with outcome `o`. */
    method SettleSynthesis(o: Outcome)
      modifies this
      ensures State() == Handlers.SettleSynthesis(old(State()), o)
      ensures !synthesizeDisabled && synthesizeLabel == ReadyLabel
    {
      match o {
        case NotOk(detail) =>
          ShowAlert(OrElse(detail, ApiFailed), true);
        case Ok(url) =>
          if Truthy(url) {
            ShowAlert(Complete, false);
            lastAudioUrl := url;
            audioSrc := url.value;
            played := played + [url.value];
          } else {
            ShowAlert(MissingUrl, true);
          }
        case Thrown(msg) =>
          ShowAlert(msg, true);
      }
      // finally
      synthesizeDisabled := false;
      if Truthy(lastAudioUrl) {
        playbackDisabled := false;
      }
      synthesizeLabel := ReadyLabel;
    }

    /** The whole `handleSynthesis`, for an input and the outcome its request
        would have. */
    method HandleSynthesis(input: string, o: Outcome)
      modifies this
      ensures State() == Synthesize(old(State()), input, o)
      ensures |alerts| == |old(alerts)| + 1
      ensures lastAudioUrl == if Trim(input) != [] && Delivers(o) then o.audioUrl else old(lastAudioUrl)
      ensures Trim(input) != [] ==> !synthesizeDisabled && (playbackDisabled <==> !Truthy(lastAudioUrl))
    {
      var text := BeginSynthesis(input);
      if text != [] {
        SettleSynthesis(o);
      }
    }

    /** `handlePlayback`. */
    method HandlePlayback()
      modifies this
      ensures State() == Playback(old(State()))
      ensures Truthy(old(lastAudioUrl)) ==> played == old(played) + [old(lastAudioUrl).value]
      ensures !Truthy(old(lastAudioUrl)) ==> played == old(played) && alerts == old(alerts) + [Alert(NoAudio, true)]
    {
      if Truthy(lastAudioUrl) {
        ShowAlert(PlayingLast, false);
        audioSrc := lastAudioUrl.value;
        played := played + [lastAudioUrl.value];
      } else {
        ShowAlert(NoAudio, true);
      }
    }
  }
}
