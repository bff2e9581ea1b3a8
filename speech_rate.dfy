/** The speech-rate estimate: a words-per-second tier chosen by the
    syllable count, the speaking time it predicts, and the rate that makes
    the narration fill the cue's display window. Kotlin's `Float`
    arithmetic is modelled with exact reals. */
module SpeechRate {
  import opened Words
  import opened Syllables
  import opened Cues

  /** `calculateWordsPerSecond`'s three tiers: long or complex texts are
      spoken slower. */
  function Tier(syllableCount: int): (wps: real)
    ensures wps == 1.8 || wps == 2.2 || wps == 2.5
    ensures wps == 2.5 <==> syllableCount <= 8
    ensures wps == 2.2 <==> 9 <= syllableCount <= 15
    ensures wps == 1.8 <==> 16 <= syllableCount
  {
    if syllableCount > 15 then 1.8
    else if syllableCount > 8 then 2.2
    else 2.5
  }

  /** More syllables never means a faster tier. */
  lemma TierNonIncreasing(a: int, b: int)
    requires a <= b
    ensures Tier(b) <= Tier(a)
  {
  }

  /** `calculateWordsPerSecond`. The `wordCount > 0` test always holds
      (there is at least one token), so the default branch is never taken
      and the tier alone decides. */
  function WordsPerSecond(text: string): (wps: real)
    ensures wps == Tier(TextSyllables(text))
    ensures wps > 0.0
  {
    if WordCount(text) > 0 then Tier(TextSyllables(text)) else 2.5
  }

  /** `calculateSpeechDuration`: milliseconds needed to say the words of
      `text` at `wps` words per second. */
  function SpeechDuration(text: string, wps: real): (ms: real)
    requires wps > 0.0
    ensures ms * wps == WordCount(text) as real * 1000.0
    ensures ms > 0.0
  {
    (WordCount(text) as real / wps) * 1000.0
  }

  /** The estimated speaking time of a cue's text
      (`calculateSpeechDuration(text, calculateWordsPerSecond(text))`):
      400 ms a word in the fast tier, 5000/11 ms in the middle one and
      5000/9 ms in the slow one. */
  function EstimatedMs(text: string): (ms: real)
    ensures Tier(TextSyllables(text)) == 2.5 ==> ms == WordCount(text) as real * 400.0
    ensures Tier(TextSyllables(text)) == 2.2 ==> ms == WordCount(text) as real * (5000.0 / 11.0)
    ensures Tier(TextSyllables(text)) == 1.8 ==> ms == WordCount(text) as real * (5000.0 / 9.0)
    ensures ms > 0.0
  {
    SpeechDuration(text, WordsPerSecond(text))
  }

  /** More syllables over the same number of words never give a shorter
      estimate. */
  lemma EstimateMonotone(t1: string, t2: string)
    requires WordCount(t1) == WordCount(t2)
    requires TextSyllables(t1) <= TextSyllables(t2)
    ensures EstimatedMs(t1) <= EstimatedMs(t2)
  {
    TierNonIncreasing(TextSyllables(t1), TextSyllables(t2));
  }

  /** `adjustedSpeechRate = estimatedSpeakTimeMs / subtitleDurationMs`: the
      factor by which the narration must run faster than its natural pace
      (below one: slower) to fill the cue's display window. */
  function AdjustedRate(estimatedMs: real, durationMs: real): (rate: real)
    requires durationMs > 0.0
    ensures rate * durationMs == estimatedMs
    ensures estimatedMs > 0.0 ==> rate > 0.0
    ensures rate > 1.0 <==> estimatedMs > durationMs
  {
    var rate := estimatedMs / durationMs;
    assert rate * durationMs == estimatedMs;
    AboveOne(rate, durationMs);
    rate
  }

  lemma AboveOne(r: real, d: real)
    requires d > 0.0
    ensures r > 1.0 <==> r * d > d
  {
    if r > 1.0 {
      assert (r - 1.0) * d > 0.0;
    } else {
      assert (1.0 - r) * d >= 0.0;
    }
  }

  /** The rate handed to the speech engine for a cue. The caller only asks
      for a cue found at some position, whose window is therefore not empty. */
  function CueRate(cue: Subtitle): real
    requires cue.startTime < cue.endTime
  {
    AdjustedRate(EstimatedMs(cue.text), (cue.endTime - cue.startTime) as real)
  }
}
