/** The syllable heuristic behind the speech-rate estimate: per word, count
    the runs of the vowels a, e, i, o, u in the word cleaned to lower-case
    letters, less one for a silent final `e`, and sum over the words. */
module Syllables {
  import opened Words

  /** `"aeiou".contains(c)`: `y` is not a vowel. */
  predicate IsVowel(c: char) {
    c == 'a' || c == 'e' || c == 'i' || c == 'o' || c == 'u'
  }

  predicate IsLetter(c: char) {
    'a' <= c <= 'z' || 'A' <= c <= 'Z'
  }

  /** ASCII lower-casing: the only part of `lowercase` that survives the
      cleaning below. */
  function Lower(c: char): (l: char)
    ensures IsLetter(c) ==> 'a' <= l <= 'z'
    ensures 'a' <= l <= 'z' ==> IsLetter(c) || c == l
  {
    if 'A' <= c <= 'Z' then (c as int + 32) as char else c
  }

  /** A word lower-cased with every character outside a–z dropped
      (`lowercase(...).replace("[^a-z]".toRegex(), "")`). */
  function Clean(w: string): (r: string)
    ensures |r| <= |w|
    ensures forall i :: 0 <= i < |r| ==> 'a' <= r[i] <= 'z'
    decreases |w|
  {
    if w == [] then []
    else
      var c := Lower(w[0]);
      (if 'a' <= c <= 'z' then [c] else []) + Clean(w[1..])
  }

  /** Every letter of the word survives cleaning, lower-cased. */
  lemma {:induction false} CleanKeepsLetters(w: string)
    ensures forall i :: 0 <= i < |w| && IsLetter(w[i]) ==> Lower(w[i]) in Clean(w)
    decreases |w|
  {
    if w != [] {
      CleanKeepsLetters(w[1..]);
      forall i | 0 <= i < |w| && IsLetter(w[i])
        ensures Lower(w[i]) in Clean(w)
      {
        if i > 0 {
          assert w[1..][i - 1] == w[i];
        }
      }
    }
  }

  /** A word that is already clean is left alone. */
  lemma {:induction false} CleanFixed(w: string)
    requires forall i :: 0 <= i < |w| ==> 'a' <= w[i] <= 'z'
    ensures Clean(w) == w
    decreases |w|
  {
    if w != [] {
      CleanFixed(w[1..]);
      assert w == [w[0]] + w[1..];
    }
  }

  /** So cleaning twice is cleaning once. */
  lemma CleanIdempotent(w: string)
    ensures Clean(Clean(w)) == Clean(w)
  {
    CleanFixed(Clean(w));
  }

  /** The number of vowels in a word. */
  function VowelCount(w: string): nat
    decreases |w|
  {
    if w == [] then 0
    else VowelCount(w[..|w| - 1]) + (if IsVowel(w[|w| - 1]) then 1 else 0)
  }

  /** Position `i` opens a run of vowels: a vowel not preceded by one. */
  predicate StartsRun(w: string, i: nat)
    requires i < |w|
  {
    IsVowel(w[i]) && (i == 0 || !IsVowel(w[i - 1]))
  }

  /** The number of maximal vowel runs in `w`, counted left to right as the
      character loop does (it counts a syllable whenever a vowel follows a
      non-vowel or the start of the word). */
  function VowelRuns(w: string): (n: nat)
    ensures n <= VowelCount(w)
    ensures n == 0 <==> VowelCount(w) == 0
    decreases |w|
  {
    if w == [] then 0
    else VowelRuns(w[..|w| - 1]) + (if StartsRun(w, |w| - 1) then 1 else 0)
  }

  /** The number of positions below `k` that open a vowel run: the reference
      count of maximal runs, by position rather than by prefix. */
  function RunStarts(w: string, k: nat): nat
    requires k <= |w|
  {
    if k == 0 then 0 else RunStarts(w, k - 1) + (if StartsRun(w, k - 1) then 1 else 0)
  }

  /** The loop's count is the number of maximal vowel runs. */
  lemma {:induction false} VowelRunsCountsRunStarts(w: string, k: nat)
    requires k <= |w|
    ensures VowelRuns(w[..k]) == RunStarts(w, k)
  {
    if k > 0 {
      VowelRunsCountsRunStarts(w, k - 1);
      VowelRunsStep(w, k - 1);
    }
  }

  /** One more character of the character loop. */
  lemma VowelRunsStep(w: string, i: nat)
    requires i < |w|
    ensures VowelRuns(w[..i + 1]) == VowelRuns(w[..i]) + (if StartsRun(w, i) then 1 else 0)
  {
    var p := w[..i + 1];
    assert p[..|p| - 1] == w[..i];
    assert StartsRun(p, i) == StartsRun(w, i);
  }

  /** Kotlin's `endsWith("e")`. */
  predicate EndsWithE(w: string) {
    |w| > 0 && w[|w| - 1] == 'e'
  }

  /** The syllable estimate of one token: the vowel runs of the cleaned
      token, less one for a final `e` when there is more than one run. */
  function WordSyllables(word: string): (n: nat)
    ensures n <= VowelCount(Clean(word))
    ensures n >= 1 <==> VowelCount(Clean(word)) >= 1
    ensures EndsWithE(Clean(word)) && VowelRuns(Clean(word)) > 1 ==> n == VowelRuns(Clean(word)) - 1
    ensures !(EndsWithE(Clean(word)) && VowelRuns(Clean(word)) > 1) ==> n == VowelRuns(Clean(word))
  {
    var cleanWord := Clean(word);
    var runs := VowelRuns(cleanWord);
    if EndsWithE(cleanWord) && runs > 1 then runs - 1 else runs
  }

  /** The syllable estimates of a list of tokens, added up. */
  function SumSyllables(words: seq<string>): nat
    decreases |words|
  {
    if words == [] then 0 else WordSyllables(words[0]) + SumSyllables(words[1..])
  }

  lemma {:induction false} SumSyllablesAppend(xs: seq<string>, ys: seq<string>)
    ensures SumSyllables(xs + ys) == SumSyllables(xs) + SumSyllables(ys)
    decreases |xs|
  {
    if xs == [] {
      assert xs + ys == ys;
    } else {
      assert (xs + ys)[0] == xs[0];
      assert (xs + ys)[1..] == xs[1..] + ys;
      SumSyllablesAppend(xs[1..], ys);
    }
  }

  /** One more token of the token loop. */
  lemma SumSyllablesStep(words: seq<string>, k: nat)
    requires k < |words|
    ensures SumSyllables(words[..k + 1]) == SumSyllables(words[..k]) + WordSyllables(words[k])
  {
    assert words[..k + 1] == words[..k] + [words[k]];
    SumSyllablesAppend(words[..k], [words[k]]);
  }

  /** The syllable estimate of a text: the sum over its space-separated tokens. */
  function TextSyllables(text: string): nat {
    SumSyllables(Split(text))
  }

  /** The text estimate is additive over the words on either side of a space. */
  lemma TextSyllablesAround(a: string, b: string)
    ensures TextSyllables(a + " " + b) == TextSyllables(a) + TextSyllables(b)
  {
    SplitAround(a, b);
    SumSyllablesAppend(Split(a), Split(b));
  }

  /** No text has more syllables than vowels. */
  lemma {:induction false} SumSyllablesBound(words: seq<string>)
    ensures SumSyllables(words) <= SumVowels(words)
    decreases |words|
  {
    if words != [] {
      SumSyllablesBound(words[1..]);
    }
  }

  function SumVowels(words: seq<string>): nat
    decreases |words|
  {
    if words == [] then 0 else VowelCount(Clean(words[0])) + SumVowels(words[1..])
  }

  /** `estimateSyllables`: the nested loops over the tokens and over the
      characters of each cleaned token, tracking whether the previous
      character was a vowel. */
  method EstimateSyllables(text: string) returns (syllableCount: int)
    ensures syllableCount == TextSyllables(text)
  {
    var words := Split(text);
    syllableCount := 0;
    for k := 0 to |words|
      invariant syllableCount == SumSyllables(words[..k])
    {
      var cleanWord := Clean(words[k]);
      var wordSyllables := 0;
      var isPrevVowel := false;
      for i := 0 to |cleanWord|
        invariant wordSyllables == VowelRuns(cleanWord[..i])
        invariant isPrevVowel == (i > 0 && IsVowel(cleanWord[i - 1]))
      {
        var isVowel := IsVowel(cleanWord[i]);
        if isVowel && !isPrevVowel {
          wordSyllables := wordSyllables + 1;
        }
        isPrevVowel := isVowel;
        VowelRunsStep(cleanWord, i);
      }
      assert cleanWord[..|cleanWord|] == cleanWord;
      if EndsWithE(cleanWord) && wordSyllables > 1 {
        wordSyllables := wordSyllables - 1;
      }
      syllableCount := syllableCount + wordSyllables;
      SumSyllablesStep(words, k);
    }
    assert words[..|words|] == words;
  }

  /** The syllable estimate of a token, given its cleaned form and the
      vowel runs in it. */
  lemma WordSyllablesOf(word: string, clean: string, runs: nat)
    requires Clean(word) == clean && VowelRuns(clean) == runs
    ensures WordSyllables(word) == if EndsWithE(clean) && runs > 1 then runs - 1 else runs
  {
  }

  /** A token without spaces is its own text. */
  lemma TextSyllablesOfWord(w: string)
    requires ' ' !in w
    ensures TextSyllables(w) == WordSyllables(w)
  {
    SplitNoSpace(w);
    var ws := [w];
    assert ws[0] == w && ws[1..] == [];
    assert SumSyllables(ws) == WordSyllables(w) + SumSyllables([]);
  }

  lemma RunsOf(w: string, n: nat)
    requires RunStarts(w, |w|) == n
    ensures VowelRuns(w) == n
  {
    VowelRunsCountsRunStarts(w, |w|);
    assert w[..|w|] == w;
  }

  /** The syllable estimate of an already clean word from its run count. */
  lemma CleanWordSyllables(w: string, runs: nat)
    requires forall i :: 0 <= i < |w| ==> 'a' <= w[i] <= 'z'
    requires RunStarts(w, |w|) == runs
    ensures WordSyllables(w) == if EndsWithE(w) && runs > 1 then runs - 1 else runs
  {
    CleanFixed(w);
    RunsOf(w, runs);
    WordSyllablesOf(w, w, runs);
  }

  /** Worked value: the final `e` of "knowledge" is taken as silent. */
  lemma KnowledgeSyllables()
    ensures WordSyllables("knowledge") == 2
  {
    assert RunStarts("knowledge", 9) == 3;
    CleanWordSyllables("knowledge", 3);
  }

  /** Worked value: the silent `e` of "line". */
  lemma LineSyllables()
    ensures WordSyllables("line") == 1
  {
    assert RunStarts("line", 4) == 2;
    CleanWordSyllables("line", 2);
  }

  /** Worked value: `y` is not a vowel, so "by" has no syllable. */
  lemma BySyllables()
    ensures WordSyllables("by") == 0
  {
    assert RunStarts("by", 2) == 0;
    CleanWordSyllables("by", 0);
  }

  /** Worked value: a lone "e" keeps its one syllable. */
  lemma ESyllables()
    ensures WordSyllables("e") == 1
  {
    assert RunStarts("e", 1) == 1;
    CleanWordSyllables("e", 1);
  }
}
