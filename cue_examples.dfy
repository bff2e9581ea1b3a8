/** Worked values of the speech-rate estimate. */
module CueExamples {
  import opened Words
  import opened Syllables
  import opened SpeechRate
  import opened Cues
  import opened FirstCueSplitting

  lemma SumOfFour(a: string, b: string, c: string, d: string)
    ensures SumSyllables([a, b, c, d]) == WordSyllables(a) + WordSyllables(b) + WordSyllables(c) + WordSyllables(d)
  {
    assert [a, b, c, d][1..] == [b, c, d];
    assert [b, c, d][1..] == [c, d];
    assert [c, d][1..] == [d];
    assert [d][1..] == [];
    assert SumSyllables([d]) == WordSyllables(d);
    assert SumSyllables([c, d]) == WordSyllables(c) + WordSyllables(d);
    assert SumSyllables([b, c, d]) == WordSyllables(b) + WordSyllables(c) + WordSyllables(d);
  }

  lemma SumOfFive(a: string, b: string, c: string, d: string, e: string)
    ensures SumSyllables([a, b, c, d, e]) ==
      WordSyllables(a) + WordSyllables(b) + WordSyllables(c) + WordSyllables(d) + WordSyllables(e)
  {
    assert [a, b, c, d, e][1..] == [b, c, d, e];
    SumOfFour(b, c, d, e);
  }

  lemma LetterSyllables()
    ensures WordSyllables("a") == 1 && WordSyllables("b") == 0
    ensures WordSyllables("c") == 0 && WordSyllables("d") == 0
  {
    CleanWordSyllables("a", 1);
    CleanWordSyllables("b", 0);
    CleanWordSyllables("c", 0);
    CleanWordSyllables("d", 0);
  }

  lemma LettersTokens()
    ensures SumSyllables(["a", "b", "c", "d", "e"]) == 2
  {
    LetterSyllables();
    ESyllables();
    SumOfFive("a", "b", "c", "d", "e");
  }

  lemma LettersJoin()
    ensures Join(["a", "b", "c", "d", "e"]) == "a b c d e"
  {
  }

  /** "a b c d e" splits into its five letters ... */
  lemma LettersSplit()
    ensures Split("a b c d e") == ["a", "b", "c", "d", "e"]
  {
    LettersJoin();
    SplitJoin(["a", "b", "c", "d", "e"]);
  }

  /** ... so it has five words and two syllables. */
  lemma LettersText()
    ensures TextSyllables("a b c d e") == 2 && WordCount("a b c d e") == 5
  {
    LettersSplit();
    LettersTokens();
  }

  /** The estimate of a text from its word and syllable counts. */
  lemma EstimateOf(text: string, words: nat, syllables: nat)
    requires WordCount(text) == words && TextSyllables(text) == syllables
    ensures WordsPerSecond(text) == Tier(syllables)
    ensures EstimatedMs(text) * Tier(syllables) == words as real * 1000.0
  {
  }

  /** "a b c d e" is spoken at 2.5 words per second: an estimated 2000 ms. */
  lemma LettersEstimate()
    ensures WordsPerSecond("a b c d e") == 2.5
    ensures EstimatedMs("a b c d e") == 2000.0
  {
    LettersText();
    EstimateOf("a b c d e", 5, 2);
  }

  /** 2000 ms of speech over a 3500 ms window: 4/7 of the natural pace. */
  lemma FourSevenths()
    ensures AdjustedRate(2000.0, 3500.0) == 4.0 / 7.0
  {
  }

  lemma LettersRate()
    ensures AdjustedRate(EstimatedMs("a b c d e"), 3500.0) == 4.0 / 7.0
  {
    LettersEstimate();
    FourSevenths();
  }

  /** So a 3500 ms cue reading "a b c d e" is narrated at 4/7 of the
      natural pace. */
  lemma LettersCueRate()
    ensures CueRate(Subtitle(1, 0, 3500, "a b c d e")) == 4.0 / 7.0
  {
    LettersRate();
  }

  /** The comma is dropped and the capital lower-cased: "Sir," counts as "sir". */
  lemma SirSyllables()
    ensures WordSyllables("Sir,") == 1
  {
    assert Clean("Sir,") == "sir";
    assert RunStarts("sir", 3) == 1;
    RunsOf("sir", 1);
    WordSyllablesOf("Sir,", "sir", 1);
  }

  lemma HowSyllables()
    ensures WordSyllables("how") == 1
  {
    assert RunStarts("how", 3) == 1;
    CleanWordSyllables("how", 1);
  }

  lemma DidSyllables()
    ensures WordSyllables("did") == 1
  {
    assert RunStarts("did", 3) == 1;
    CleanWordSyllables("did", 1);
  }

  /** "you": `y` is a consonant here, and "ou" is a single run. */
  lemma YouSyllables()
    ensures WordSyllables("you") == 1
  {
    assert RunStarts("you", 3) == 1;
    CleanWordSyllables("you", 1);
  }

  lemma GetSyllables()
    ensures WordSyllables("get") == 1
  {
    assert RunStarts("get", 3) == 1;
    CleanWordSyllables("get", 1);
  }

  lemma SoSyllables()
    ensures WordSyllables("so") == 1
  {
    assert RunStarts("so", 2) == 1;
    CleanWordSyllables("so", 1);
  }

  lemma MuchSyllables()
    ensures WordSyllables("much") == 1
  {
    assert RunStarts("much", 4) == 1;
    CleanWordSyllables("much", 1);
  }

  lemma FirstCueHead()
    ensures SumSyllables(["Sir,", "how", "did", "you"]) == 4
  {
    SirSyllables();
    HowSyllables();
    DidSyllables();
    YouSyllables();
    SumOfFour("Sir,", "how", "did", "you");
  }

  lemma FirstCueTail()
    ensures SumSyllables(["get", "so", "much", "knowledge"]) == 5
  {
    GetSyllables();
    SoSyllables();
    MuchSyllables();
    KnowledgeSyllables();
    SumOfFour("get", "so", "much", "knowledge");
  }

  /** The eight tokens of the first cue carry nine syllables. */
  lemma FirstCueSum()
    ensures SumSyllables(FirstCueTokens) == 9
  {
    FirstCueHead();
    FirstCueTail();
    SumSyllablesAppend(["Sir,", "how", "did", "you"], ["get", "so", "much", "knowledge"]);
  }

  /** So a text that splits into those tokens falls in the middle tier,
      2.2 words per second, and its eight words are estimated at
      40000/11 ms. */
  lemma FirstCueEstimateOf(text: string)
    requires Split(text) == FirstCueTokens
    ensures WordsPerSecond(text) == 2.2
    ensures EstimatedMs(text) == 40000.0 / 11.0
  {
    FirstCueSum();
    EstimateOf(text, 8, 9);
  }

  lemma EightyOverSeventySeven()
    ensures AdjustedRate(40000.0 / 11.0, 3500.0) == 80.0 / 77.0
  {
  }

  /** Over a 3500 ms window such a text is narrated slightly faster than
      its natural pace, at 80/77. */
  lemma FirstCueAdjusted(text: string)
    requires Split(text) == FirstCueTokens
    ensures AdjustedRate(EstimatedMs(text), 3500.0) == 80.0 / 77.0
  {
    FirstCueEstimateOf(text);
    EightyOverSeventySeven();
  }

  /** The first hardcoded cue is in the 2.2 tier, estimated at 40000/11 ms. */
  lemma FirstCueEstimate()
    ensures WordsPerSecond(Subtitles[0].text) == 2.2
    ensures EstimatedMs(Subtitles[0].text) == 40000.0 / 11.0
  {
    FirstCueSplit();
    FirstCueEstimateOf(Subtitles[0].text);
  }

  /** So a cue showing such a text from 0 to 3500 ms is narrated at 80/77. */
  lemma FirstCueRateOf(cue: Subtitle)
    requires cue.startTime == 0 && cue.endTime == 3500
    requires Split(cue.text) == FirstCueTokens
    ensures CueRate(cue) == 80.0 / 77.0
  {
    FirstCueAdjusted(cue.text);
    assert (cue.endTime - cue.startTime) as real == 3500.0;
  }

  /** The first hardcoded cue is such a cue: over its 3500 ms window it is
      narrated slightly faster than its natural pace, at 80/77. */
  lemma FirstCueRate()
    ensures Subtitles[0].startTime < Subtitles[0].endTime
    ensures CueRate(Subtitles[0]) == 80.0 / 77.0
  {
    FirstCueSplit();
    FirstCueRateOf(Subtitles[0]);
  }
}

/** The first hardcoded cue's text and its split into words. */
module FirstCueSplitting {
  import opened Words
  import opened Cues

  /** The tokens of the first hardcoded cue,
      "Sir, how did you get so much knowledge". */
  const FirstCueTokens: seq<string> := ["Sir,", "how", "did", "you"] + ["get", "so", "much", "knowledge"]

  /** Four tokens glued with single spaces. */
  lemma JoinFour(a: string, b: string, c: string, d: string)
    ensures Join([a, b, c, d]) == a + " " + b + " " + c + " " + d
  {
    assert [c, d][1..] == [d];
    assert Join([c, d]) == c + " " + d;
    assert [b, c, d][1..] == [c, d];
    assert Join([b, c, d]) == b + " " + (c + " " + d);
    assert [a, b, c, d][1..] == [b, c, d];
    assert a + " " + (b + " " + (c + " " + d)) == a + " " + b + " " + c + " " + d;
  }

  /** Four space-free words glued with single spaces split back into them. */
  lemma FourWordsSplit(a: string, b: string, c: string, d: string)
    requires ' ' !in a && ' ' !in b && ' ' !in c && ' ' !in d
    ensures Split(a + " " + b + " " + c + " " + d) == [a, b, c, d]
  {
    var ws := [a, b, c, d];
    assert forall i :: 0 <= i < |ws| ==> ' ' !in ws[i];
    JoinFour(a, b, c, d);
    SplitJoin(ws);
  }

  lemma FirstCueHeadSplit()
    ensures Split("Sir, how did you") == ["Sir,", "how", "did", "you"]
  {
    assert "Sir, how did you" == "Sir," + " " + "how" + " " + "did" + " " + "you";
    FourWordsSplit("Sir,", "how", "did", "you");
  }

  lemma FirstCueTailSplit()
    ensures Split("get so much knowledge") == ["get", "so", "much", "knowledge"]
  {
    assert "get so much knowledge" == "get" + " " + "so" + " " + "much" + " " + "knowledge";
    FourWordsSplit("get", "so", "much", "knowledge");
  }

  /** The first hardcoded cue's text is its first four words, a space and
      its last four. Proved in two steps, `FirstCueText` and `TextHalves`:
      the single equation between the cue list and the halves costs the
      solver several times more than the two together. */
  lemma FirstCueHalves()
    ensures Subtitles[0].text == "Sir, how did you" + " " + "get so much knowledge"
  {
    FirstCueText();
    TextHalves();
  }

  /** The text of the first cue in the list. */
  lemma FirstCueText()
    ensures Subtitles[0].text == "Sir, how did you get so much knowledge"
  {
  }

  /** The same text, cut after its fourth word. */
  lemma TextHalves()
    ensures "Sir, how did you get so much knowledge" == "Sir, how did you" + " " + "get so much knowledge"
  {
  }

  /** The first hardcoded cue's text splits into its eight tokens. */
  lemma FirstCueSplit()
    ensures Split(Subtitles[0].text) == FirstCueTokens
  {
    FirstCueHalves();
    FirstCueHeadSplit();
    FirstCueTailSplit();
    SplitAround("Sir, how did you", "get so much knowledge");
  }

}
