/** Sequences of user clicks and request completions. The handlers are
    attached to the two buttons' `click` events; a disabled button fires no
    click, and `handleSynthesis` is suspended at its `await` until the request
    settles. A `Config` is the page plus whether a request is outstanding. */
module Session {
  import opened Wrappers
  import opened JsTrim
  import opened Handlers

  datatype Event = ClickSynthesize(input: string) | Respond(outcome: Outcome) | ClickPlayback

  /** `settled` counts the requests whose outcome the handler has processed. */
  datatype Config = Config(ui: UiState, inFlight: bool, settled: nat)

  function Start(buttonLabel: string, notice: string, dataText: string): Config {
    Config(Init(buttonLabel, notice, dataText), false, 0)
  }

  function Step(c: Config, e: Event): Config {
    match e
    case ClickSynthesize(input) =>
      if c.ui.synthesizeDisabled then c
      else Config(BeginSynthesis(c.ui, input), Trim(input) != [], c.settled)
    case Respond(o) =>
      if c.inFlight then Config(SettleSynthesis(c.ui, o), false, c.settled + 1) else c
    case ClickPlayback =>
      if c.ui.playbackDisabled then c else c.(ui := Playback(c.ui))
  }

  function Run(c: Config, evs: seq<Event>): Config
    decreases |evs|
  {
    if evs == [] then c else Run(Step(c, evs[0]), evs[1..])
  }

  /** The slot holds a non-empty URL or nothing. */
  predicate SlotWellFormed(s: UiState) {
    s.lastAudioUrl.Some? ==> s.lastAudioUrl.value != ""
  }

  /** Between requests the synthesize button is enabled and the playback
      button is enabled exactly when the slot holds a URL; while a request is
      outstanding both are disabled. */
  predicate Consistent(c: Config) {
    && SlotWellFormed(c.ui)
    && (!c.inFlight ==> !c.ui.synthesizeDisabled && (c.ui.playbackDisabled <==> c.ui.lastAudioUrl.None?))
    && (c.inFlight ==> c.ui.synthesizeDisabled && c.ui.playbackDisabled)
  }

  lemma StartConsistent(buttonLabel: string, notice: string, dataText: string)
    ensures var c := Start(buttonLabel, notice, dataText);
            Consistent(c) && !c.inFlight && c.ui.lastAudioUrl == None && c.ui.playbackDisabled
  {
  }

  lemma StepConsistent(c: Config, e: Event)
    requires Consistent(c)
    ensures Consistent(Step(c, e))
  {
  }

  /** Every configuration reachable from a consistent one is consistent. */
  lemma {:induction false} RunConsistent(c: Config, evs: seq<Event>)
    requires Consistent(c)
    ensures Consistent(Run(c, evs))
    decreases |evs|
  {
    if evs != [] {
      StepConsistent(c, evs[0]);
      RunConsistent(Step(c, evs[0]), evs[1..]);
    }
  }

  /** While a request is outstanding, clicks on either button do nothing: no
      second request can be sent and nothing is replayed. */
  lemma InFlightIgnoresClicks(c: Config, evs: seq<Event>, input: string)
    requires Consistent(c)
    ensures var r := Run(c, evs);
            r.inFlight ==> Step(r, ClickSynthesize(input)) == r && Step(r, ClickPlayback) == r
  {
    RunConsistent(c, evs);
  }

  /** When no request is outstanding, the synthesize button always accepts a
      click and the playback button accepts one exactly when there is a URL
      to replay; so the 'NO AUDIO AVAILABLE' branch of `handlePlayback` is
      never reached from the page. */
  lemma {:induction false} EmptyReplayUnreachable(buttonLabel: string, notice: string, dataText: string, evs: seq<Event>)
    ensures var r := Run(Start(buttonLabel, notice, dataText), evs);
            && (!r.inFlight ==> !r.ui.synthesizeDisabled)
            && (Step(r, ClickPlayback) != r <==> Truthy(r.ui.lastAudioUrl) && !r.inFlight)
  {
    RunConsistent(Start(buttonLabel, notice, dataText), evs);
  }

  /** Every request is settled exactly once and at most one is outstanding:
      the requests sent are those settled plus the one in flight, if any. */
  lemma {:induction false} RequestsBalance(c: Config, evs: seq<Event>)
    requires Consistent(c)
    requires |c.ui.requests| == c.settled + (if c.inFlight then 1 else 0)
    ensures var r := Run(c, evs);
            |r.ui.requests| == r.settled + (if r.inFlight then 1 else 0)
    decreases |evs|
  {
    if evs != [] {
      StepConsistent(c, evs[0]);
      RequestsBalance(Step(c, evs[0]), evs[1..]);
    }
  }

  /** Once the slot holds a URL it never goes back to empty. */
  lemma {:induction false} SlotNeverCleared(c: Config, evs: seq<Event>)
    requires c.ui.lastAudioUrl.Some?
    ensures Run(c, evs).ui.lastAudioUrl.Some?
    decreases |evs|
  {
    if evs != [] {
      SlotNeverCleared(Step(c, evs[0]), evs[1..]);
    }
  }

  /** The slot only ever takes a URL that a successful response delivered. */
  lemma {:induction false} SlotFromSuccess(c: Config, evs: seq<Event>)
    ensures var u := Run(c, evs).ui.lastAudioUrl;
            u == c.ui.lastAudioUrl
            || exists i :: 0 <= i < |evs| && evs[i] == Respond(Ok(u)) && Truthy(u)
    decreases |evs|
  {
    if evs != [] {
      var next := Step(c, evs[0]);
      SlotFromSuccess(next, evs[1..]);
      var u := Run(c, evs).ui.lastAudioUrl;
      assert Run(c, evs) == Run(next, evs[1..]);
      if u != next.ui.lastAudioUrl {
        var i :| 0 <= i < |evs[1..]| && evs[1..][i] == Respond(Ok(u)) && Truthy(u);
        assert evs[i + 1] == Respond(Ok(u));
      } else if u != c.ui.lastAudioUrl {
        assert evs[0] == Respond(Ok(u)) && Truthy(u);
      }
    }
  }

  /** Replaying issues no request; a replay after a delivered response plays
      that response's URL. */
  lemma DeliveredThenReplayed(c: Config, url: string)
    requires Consistent(c) && c.inFlight && url != ""
    ensures var done := Step(c, Respond(Ok(Some(url))));
            var again := Step(done, ClickPlayback);
            && !done.inFlight && !done.ui.synthesizeDisabled && done.ui.synthesizeLabel == ReadyLabel
            && again.ui.requests == c.ui.requests
            && again.ui.played == c.ui.played + [url, url]
  {
  }
}
