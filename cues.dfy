/** The subtitle cues and the lookup of the cue shown at a playback position. */
module Cues {
  import opened Wrappers

  /** `MainActivity.Subtitle`: times are milliseconds from the start of the video. */
  datatype Subtitle = Subtitle(id: int, startTime: int, endTime: int, text: string)

  /** The half-open display window `[startTime, endTime)` contains `pos`. */
  predicate Covers(cue: Subtitle, pos: int) {
    cue.startTime <= pos < cue.endTime
  }

  /** The cue list the activity is built with. */
  const Subtitles: seq<Subtitle> := [
    Subtitle(1, 0, 3500, "Sir, how did you get so much knowledge"),
    Subtitle(2, 3500, 6500, "about Islam by studying in general line?"),
    Subtitle(3, 6501, 8000, "We who study in normal line,"),
    Subtitle(4, 8001, 10000, "How will we learn about Islam?")
  ]

  /** `subtitles.find { pos >= it.startTime && pos < it.endTime }`: the first
      cue in list order whose window holds `pos`, or none. */
  function FindCue(cues: seq<Subtitle>, pos: int): (r: Option<Subtitle>)
    ensures r.None? <==> forall i :: 0 <= i < |cues| ==> !Covers(cues[i], pos)
    ensures r.Some? ==> r.value in cues && r.value.startTime <= pos < r.value.endTime
    decreases |cues|
  {
    if cues == [] then None
    else if Covers(cues[0], pos) then Some(cues[0])
    else FindCue(cues[1..], pos)
  }

  /** First match wins: a cue covering `pos` with no covering cue before it
      is the one found. */
  lemma {:induction false} FindCueFirst(cues: seq<Subtitle>, pos: int, i: nat)
    requires i < |cues| && Covers(cues[i], pos)
    requires forall j :: 0 <= j < i ==> !Covers(cues[j], pos)
    ensures FindCue(cues, pos) == Some(cues[i])
    decreases i
  {
    if i > 0 {
      assert !Covers(cues[0], pos);
      FindCueFirst(cues[1..], pos, i - 1);
    }
  }

  /** Cues in time order with disjoint windows. */
  predicate Ordered(cues: seq<Subtitle>) {
    forall i, j :: 0 <= i < j < |cues| ==> cues[i].endTime <= cues[j].startTime
  }

  /** On an ordered list the lookup finds the unique cue covering `pos`. */
  lemma FindCueUnique(cues: seq<Subtitle>, pos: int, i: nat)
    requires Ordered(cues)
    requires i < |cues| && Covers(cues[i], pos)
    ensures FindCue(cues, pos) == Some(cues[i])
  {
    forall j | 0 <= j < i
      ensures !Covers(cues[j], pos)
    {
      assert cues[j].endTime <= cues[i].startTime;
    }
    FindCueFirst(cues, pos, i);
  }

  /** A cue is never found at its own end time. */
  lemma EndExcluded(cues: seq<Subtitle>, cue: Subtitle)
    ensures FindCue(cues, cue.endTime) != Some(cue)
  {
  }

  /** The hardcoded list is ordered, and 6500 and 8000 fall into its gaps. */
  lemma SubtitlesGaps()
    ensures Ordered(Subtitles)
    ensures FindCue(Subtitles, 6500) == None
    ensures FindCue(Subtitles, 8000) == None
  {
  }
}
