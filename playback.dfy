/** The activity's subtitle and narration state machine: which cue is on
    screen, whether narration is on, the player's volume and the requests
    sent to the speech engine. The `Screen` value and the `After*`
    functions specify each handler; the `MainActivity` class performs them
    field by field, as the activity does. */
module Playback {
  import opened Wrappers
  import opened Cues
  import opened SpeechRate

  /** A request sent to the platform speech engine: speak a text (with the
      rate set just before it, the engine flushing whatever it was saying)
      or stop speaking. */
  datatype TtsRequest = Speak(text: string, rate: real) | Stop

  /** Everything the subtitle logic reads or writes: `lastSubtitleId`,
      `isTAudioOn`, the player's volume, the speech engine's current rate,
      the text view's visibility and text, and the log of speech requests. */
  datatype Screen = Screen(
    lastSubtitleId: Option<int>,
    isTAudioOn: bool,
    volume: real,
    speechRate: real,
    visible: bool,
    shownText: string,
    tts: seq<TtsRequest>)

  /** On creation: no cue shown yet, narration on, full volume and the
      engine's normal rate; the text view is taken to start hidden and empty. */
  function Initial(): Screen {
    Screen(None, true, 1.0, 1.0, false, "", [])
  }

  /** `currentSubtitle?.id`. */
  function IdOf(found: Option<Subtitle>): Option<int> {
    if found.None? then None else Some(found.value.id)
  }

  /** `updateSubtitle(pos)`. Nothing happens unless the id of the cue found
      differs from `lastSubtitleId`. On a change to a cue, narration (when
      on) sets the engine's rate to the cue's rate, mutes the player and
      asks for the cue's text to be spoken; then the text is shown. On a
      change to no cue the text view is hidden, and the volume and speech
      are left as they are. */
  function AfterUpdate(cues: seq<Subtitle>, s: Screen, pos: int): Screen {
    var found := FindCue(cues, pos);
    if IdOf(found) == s.lastSubtitleId then s
    else if found.None? then s.(visible := false, lastSubtitleId := None)
    else
      var cue := found.value;
      var narrated :=
        if s.isTAudioOn then
          var rate := CueRate(cue);
          s.(speechRate := rate, volume := 0.0, tts := s.tts + [Speak(cue.text, rate)])
        else s;
      narrated.(shownText := cue.text, visible := true, lastSubtitleId := Some(cue.id))
  }

  /** One run of the polling runnable: the subtitle is only updated while
      the player is playing. */
  function AfterTick(cues: seq<Subtitle>, s: Screen, isPlaying: bool, pos: int): Screen {
    if isPlaying then AfterUpdate(cues, s, pos) else s
  }

  /** The narration button: narration off for good, full volume, and the
      speech engine told to stop. */
  function AfterTAudioClick(s: Screen): Screen {
    s.(isTAudioOn := false, volume := 1.0, tts := s.tts + [Stop])
  }

  /** `stopRunnableHandler`, run when playback pauses or ends: the speech
      engine is told to stop; the volume is not touched. */
  function AfterStopPolling(s: Screen): Screen {
    s.(tts := s.tts + [Stop])
  }

  /** What reaches the subtitle logic: a poll of the player (is it playing,
      where is it), a press of the narration button, or playback pausing
      or ending. */
  datatype Event = Poll(isPlaying: bool, pos: int) | TAudioClick | PlaybackStopped

  function Step(cues: seq<Subtitle>, s: Screen, e: Event): Screen {
    match e
    case Poll(isPlaying, pos) => AfterTick(cues, s, isPlaying, pos)
    case TAudioClick => AfterTAudioClick(s)
    case PlaybackStopped => AfterStopPolling(s)
  }

  /** The events applied in order. */
  function Run(cues: seq<Subtitle>, s: Screen, events: seq<Event>): Screen
    decreases |events|
  {
    if events == [] then s else Run(cues, Step(cues, s, events[0]), events[1..])
  }

  /** After an update, `lastSubtitleId` is the id of the cue found, or none. */
  lemma UpdateRecordsId(cues: seq<Subtitle>, s: Screen, pos: int)
    ensures AfterUpdate(cues, s, pos).lastSubtitleId == IdOf(FindCue(cues, pos))
  {
  }

  /** De-duplication: a second update at any position that resolves to the
      same cue, or to none again, changes nothing at all. */
  lemma UpdateDeduplicates(cues: seq<Subtitle>, s: Screen, pos1: int, pos2: int)
    requires IdOf(FindCue(cues, pos2)) == IdOf(FindCue(cues, pos1))
    ensures AfterUpdate(cues, AfterUpdate(cues, s, pos1), pos2) == AfterUpdate(cues, s, pos1)
  {
    UpdateRecordsId(cues, s, pos1);
  }

  /** A change to a cue with narration on mutes the player and issues
      exactly one speech request, carrying the cue's text and its rate;
      the text is shown. */
  lemma NarratedCueChange(cues: seq<Subtitle>, s: Screen, pos: int, cue: Subtitle)
    requires s.isTAudioOn
    requires FindCue(cues, pos) == Some(cue) && s.lastSubtitleId != Some(cue.id)
    ensures cue.startTime < cue.endTime
    ensures var t := AfterUpdate(cues, s, pos);
      t.volume == 0.0 && t.tts == s.tts + [Speak(cue.text, CueRate(cue))] &&
      t.speechRate == CueRate(cue) && t.visible && t.shownText == cue.text &&
      t.isTAudioOn
  {
  }

  /** With narration off a cue change only shows the text. */
  lemma SilentCueChange(cues: seq<Subtitle>, s: Screen, pos: int, cue: Subtitle)
    requires !s.isTAudioOn
    requires FindCue(cues, pos) == Some(cue) && s.lastSubtitleId != Some(cue.id)
    ensures AfterUpdate(cues, s, pos) ==
      s.(shownText := cue.text, visible := true, lastSubtitleId := Some(cue.id))
  {
  }

  /** A change to "no cue" hides the text and touches neither the volume
      nor the speech engine: a muted player stays muted. */
  lemma HideKeepsAudio(cues: seq<Subtitle>, s: Screen, pos: int)
    requires FindCue(cues, pos) == None && s.lastSubtitleId.Some?
    ensures AfterUpdate(cues, s, pos) == s.(visible := false, lastSubtitleId := None)
  {
  }

  /** The hardcoded list: leaving the second cue for the gap at 6500 ms
      hides the text and leaves the volume where narration put it. */
  lemma GapAfterSecondCue(s: Screen)
    requires s.lastSubtitleId == Some(2)
    ensures AfterUpdate(Subtitles, s, 6500) == s.(visible := false, lastSubtitleId := None)
  {
    SubtitlesGaps();
    HideKeepsAudio(Subtitles, s, 6500);
  }

  /** A poll while the player is not playing leaves everything unchanged. */
  lemma PausedTickIgnored(cues: seq<Subtitle>, s: Screen, pos: int)
    ensures AfterTick(cues, s, false, pos) == s
  {
  }

  /** The rate `updateSubtitle` works out step by step, from the window,
      the words per second and the estimate, is the cue's rate. */
  lemma NarrateRate(cue: Subtitle)
    requires cue.startTime < cue.endTime
    ensures AdjustedRate(SpeechDuration(cue.text, WordsPerSecond(cue.text)),
      (cue.endTime - cue.startTime) as real) == CueRate(cue)
  {
  }

  /** The speech requests only ever grow; those after position `n` are all stops. */
  predicate OnlyStopsAfter(reqs: seq<TtsRequest>, n: nat) {
    forall k :: n <= k < |reqs| ==> reqs[k] == Stop
  }

  /** Once narration is off, no event turns it on again, changes the
      volume or issues a speech request: whatever follows, the volume stays
      at full and the engine only ever gets stops. */
  lemma {:induction false} NarrationStaysOff(cues: seq<Subtitle>, s: Screen, events: seq<Event>)
    requires !s.isTAudioOn && s.volume == 1.0
    ensures var t := Run(cues, s, events);
      !t.isTAudioOn && t.volume == 1.0 && t.speechRate == s.speechRate &&
      |s.tts| <= |t.tts| && t.tts[..|s.tts|] == s.tts && OnlyStopsAfter(t.tts, |s.tts|)
    decreases |events|
  {
    if events != [] {
      var s1 := Step(cues, s, events[0]);
      assert !s1.isTAudioOn && s1.volume == 1.0 && s1.speechRate == s.speechRate;
      assert s1.tts == s.tts || s1.tts == s.tts + [Stop];
      NarrationStaysOff(cues, s1, events[1..]);
      var t := Run(cues, s1, events[1..]);
      assert t.tts[..|s1.tts|] == s1.tts;
      assert t.tts[..|s.tts|] == s1.tts[..|s.tts|];
    }
  }

  /** The narration button: narration off, full volume, the engine stopped,
      and from then on as `NarrationStaysOff` says. */
  lemma TAudioClickSilences(cues: seq<Subtitle>, s: Screen, events: seq<Event>)
    ensures var t := Run(cues, AfterTAudioClick(s), events);
      !t.isTAudioOn && t.volume == 1.0 &&
      |s.tts| < |t.tts| && t.tts[..|s.tts|] == s.tts && OnlyStopsAfter(t.tts, |s.tts|)
  {
    var c := AfterTAudioClick(s);
    NarrationStaysOff(cues, c, events);
    var t := Run(cues, c, events);
    assert t.tts[..|s.tts|] == c.tts[..|s.tts|];
  }

  /** Pausing or ending playback stops the speech but, unlike the button,
      leaves the volume as it was: a player muted for a narrated cue stays
      muted through the pause. */
  lemma StopPollingKeepsVolume(s: Screen)
    ensures AfterStopPolling(s).volume == s.volume
    ensures AfterStopPolling(s).tts == s.tts + [Stop]
    ensures AfterStopPolling(s).isTAudioOn == s.isTAudioOn
  {
  }

  /** The consistency the handlers keep: the text view is visible exactly
      while a cue is recorded, and then it shows that cue's text; the
      player is either muted or at full volume, and muted only while
      narration is on; the engine's rate and every rate sent to it are
      positive. */
  predicate Inv(cues: seq<Subtitle>, s: Screen) {
    (s.visible <==> s.lastSubtitleId.Some?) &&
    (s.lastSubtitleId.Some? ==>
      exists i :: 0 <= i < |cues| && cues[i].id == s.lastSubtitleId.value && cues[i].text == s.shownText) &&
    (s.volume == 0.0 || s.volume == 1.0) &&
    (s.volume == 0.0 ==> s.isTAudioOn) &&
    s.speechRate > 0.0 &&
    (forall k :: 0 <= k < |s.tts| && s.tts[k].Speak? ==> s.tts[k].rate > 0.0)
  }

  lemma InitialInv(cues: seq<Subtitle>)
    ensures Inv(cues, Initial())
  {
  }

  /** Every rate handed to the engine is positive: the estimate is. */
  lemma CueRatePositive(cue: Subtitle)
    requires cue.startTime < cue.endTime
    ensures CueRate(cue) > 0.0
  {
    var d := (cue.endTime - cue.startTime) as real;
    assert EstimatedMs(cue.text) > 0.0;
    assert AdjustedRate(EstimatedMs(cue.text), d) > 0.0;
  }

  lemma UpdateInv(cues: seq<Subtitle>, s: Screen, pos: int)
    requires Inv(cues, s)
    ensures Inv(cues, AfterUpdate(cues, s, pos))
  {
    var found := FindCue(cues, pos);
    if IdOf(found) != s.lastSubtitleId && found.Some? {
      var cue := found.value;
      var i :| 0 <= i < |cues| && cues[i] == cue;
      var t := AfterUpdate(cues, s, pos);
      assert cues[i].id == t.lastSubtitleId.value && cues[i].text == t.shownText;
      if s.isTAudioOn {
        CueRatePositive(cue);
        assert t.tts == s.tts + [Speak(cue.text, CueRate(cue))];
        forall k | 0 <= k < |t.tts| && t.tts[k].Speak?
          ensures t.tts[k].rate > 0.0
        {
          if k < |s.tts| {
            assert t.tts[k] == s.tts[k];
          }
        }
      }
    }
  }

  lemma StepInv(cues: seq<Subtitle>, s: Screen, e: Event)
    requires Inv(cues, s)
    ensures Inv(cues, Step(cues, s, e))
  {
    match e
    case Poll(isPlaying, pos) =>
      if isPlaying {
        UpdateInv(cues, s, pos);
      }
    case TAudioClick =>
      var t := AfterTAudioClick(s);
      forall k | 0 <= k < |t.tts| && t.tts[k].Speak?
        ensures t.tts[k].rate > 0.0
      {
        assert k < |s.tts| && t.tts[k] == s.tts[k];
      }
    case PlaybackStopped =>
      var t := AfterStopPolling(s);
      forall k | 0 <= k < |t.tts| && t.tts[k].Speak?
        ensures t.tts[k].rate > 0.0
      {
        assert k < |s.tts| && t.tts[k] == s.tts[k];
      }
  }

  /** The consistency holds after any sequence of events. */
  lemma {:induction false} RunInv(cues: seq<Subtitle>, s: Screen, events: seq<Event>)
    requires Inv(cues, s)
    ensures Inv(cues, Run(cues, s, events))
    decreases |events|
  {
    if events != [] {
      StepInv(cues, s, events[0]);
      RunInv(cues, Step(cues, s, events[0]), events[1..]);
    }
  }

  /** The activity's fields that the subtitle logic touches: its own
      `lastSubtitleId` and `isTAudioOn`, the player's volume, the speech
      engine's rate and request log, and the subtitle view's visibility
      and text. */
  class MainActivity {
    const subtitles: seq<Subtitle>
    var lastSubtitleId: Option<int>
    var isTAudioOn: bool
    var volume: real
    var speechRate: real
    var visible: bool
    var shownText: string
    var tts: seq<TtsRequest>

    function State(): Screen
      reads this
    {
      Screen(lastSubtitleId, isTAudioOn, volume, speechRate, visible, shownText, tts)
    }

    constructor()
      ensures subtitles == Subtitles
      ensures State() == Initial()
    {
      subtitles := Subtitles;
      lastSubtitleId := None;
      isTAudioOn := true;
      volume := 1.0;
      speechRate := 1.0;
      visible := false;
      shownText := "";
      tts := [];
    }

    /** `textToSpeech.setSpeechRate`. */
    method SetSpeechRate(rate: real)
      modifies this
      ensures State() == old(State()).(speechRate := rate)
    {
      speechRate := rate;
    }

    /** `speakText`: mute the player and ask for `text` at the current rate. */
    method SpeakText(text: string)
      modifies this
      ensures State() == old(State()).(volume := 0.0, tts := old(tts) + [Speak(text, speechRate)])
    {
      volume := 0.0;
      tts := tts + [Speak(text, speechRate)];
    }

    /** The narrated half of a cue change: the rate that fits the cue's
        window, then `speakText`. */
    method NarrateCue(cue: Subtitle)
      requires cue.startTime < cue.endTime
      modifies this
      ensures State() == old(State()).(speechRate := CueRate(cue), volume := 0.0,
        tts := old(tts) + [Speak(cue.text, CueRate(cue))])
    {
      var subtitleDurationMs := (cue.endTime - cue.startTime) as real;
      var wordsPerSecond := WordsPerSecond(cue.text);
      var estimatedSpeakTimeMs := SpeechDuration(cue.text, wordsPerSecond);
      var adjustedSpeechRate := AdjustedRate(estimatedSpeakTimeMs, subtitleDurationMs);
      NarrateRate(cue);
      SetSpeechRate(adjustedSpeechRate);
      SpeakText(cue.text);
    }

    method UpdateSubtitle(currentPosition: int)
      modifies this
      ensures State() == AfterUpdate(subtitles, old(State()), currentPosition)
    {
      var currentSubtitle := FindCue(subtitles, currentPosition);
      if IdOf(currentSubtitle) != lastSubtitleId {
        if currentSubtitle.Some? {
          var cue := currentSubtitle.value;
          if isTAudioOn {
            NarrateCue(cue);
          }
          shownText := cue.text;
          visible := true;
        } else {
          visible := false;
        }
        lastSubtitleId := IdOf(currentSubtitle);
      }
    }

    /** One run of the polling runnable (its re-posting is not modelled). */
    method Tick(isPlaying: bool, currentPosition: int)
      modifies this
      ensures State() == AfterTick(subtitles, old(State()), isPlaying, currentPosition)
    {
      if isPlaying {
        UpdateSubtitle(currentPosition);
      }
    }

    /** The narration button's click handler. */
    method OnTAudioClick()
      modifies this
      ensures State() == AfterTAudioClick(old(State()))
    {
      isTAudioOn := false;
      volume := 1.0;
      tts := tts + [Stop];
    }

    /** `stopRunnableHandler` (the polling's cancellation is not modelled). */
    method StopRunnableHandler()
      modifies this
      ensures State() == AfterStopPolling(old(State()))
    {
      tts := tts + [Stop];
    }
  }
}
