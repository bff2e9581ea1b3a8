/** Word splitting as the activity does it: Kotlin's `text.split(" ")`. */
module Words {

  /** The tokens of `s` cut at every single space. Like Kotlin's `split(" ")`
      (and unlike Java's), empty tokens are kept: leading, trailing and
      between adjacent spaces, so there is always one token more than there
      are spaces. */
  function Split(s: string): (tokens: seq<string>)
    ensures |tokens| >= 1
    decreases |s|
  {
    if s == [] then [""]
    else
      var rest := Split(s[1..]);
      if s[0] == ' ' then [""] + rest
      else [[s[0]] + rest[0]] + rest[1..]
  }

  /** One token more than there are spaces. */
  lemma {:induction false} SplitCount(s: string)
    ensures |Split(s)| == multiset(s)[' '] + 1
    decreases |s|
  {
    if s != [] {
      SplitCount(s[1..]);
      assert s == [s[0]] + s[1..];
    }
  }

  /** No token contains the separator. */
  lemma {:induction false} SplitTokensHaveNoSpace(s: string)
    ensures forall i :: 0 <= i < |Split(s)| ==> ' ' !in Split(s)[i]
    decreases |s|
  {
    if s != [] {
      SplitTokensHaveNoSpace(s[1..]);
      var rest := Split(s[1..]);
      if s[0] != ' ' {
        assert ' ' !in [s[0]] + rest[0];
      }
    }
  }

  /** The word count used by the speech-rate estimate: `text.split(" ").size`. */
  function WordCount(text: string): (n: nat)
    ensures n == multiset(text)[' '] + 1
    ensures n >= 1
  {
    SplitCount(text);
    |Split(text)|
  }

  /** The inverse of Split: the tokens glued back with single spaces. */
  function Join(tokens: seq<string>): string
    requires |tokens| >= 1
  {
    if |tokens| == 1 then tokens[0] else tokens[0] + " " + Join(tokens[1..])
  }

  /** Splitting loses nothing: joining the tokens gives the text back. */
  lemma {:induction false} JoinSplit(s: string)
    ensures Join(Split(s)) == s
    decreases |s|
  {
    if s != [] {
      var rest := Split(s[1..]);
      JoinSplit(s[1..]);
      assert s == [s[0]] + s[1..];
      if s[0] != ' ' && |rest| > 1 {
        assert Split(s)[1..] == rest[1..];
        assert Join(Split(s)) == [s[0]] + rest[0] + " " + Join(rest[1..]);
      }
    }
  }

  /** A text without spaces is one token. */
  lemma {:induction false} SplitNoSpace(w: string)
    requires ' ' !in w
    ensures Split(w) == [w]
    decreases |w|
  {
    if w != [] {
      assert w == [w[0]] + w[1..];
      SplitNoSpace(w[1..]);
    }
  }

  /** Split of a text from its first character and the rest. */
  lemma SplitCons(c: char, t: string)
    ensures Split([c] + t) ==
      if c == ' ' then [""] + Split(t) else [[c] + Split(t)[0]] + Split(t)[1..]
  {
    assert ([c] + t)[1..] == t;
  }

  /** Split of `c` followed by the text `t + " " + b`. */
  lemma SplitConsAround(c: char, t: string, b: string)
    ensures Split([c] + t + " " + b) ==
      if c == ' ' then [""] + Split(t + " " + b)
      else [[c] + Split(t + " " + b)[0]] + Split(t + " " + b)[1..]
  {
    assert [c] + t + " " + b == [c] + (t + " " + b);
    SplitCons(c, t + " " + b);
  }

  /** The token-list algebra of one step of `SplitAround`. */
  lemma ConsTokens(c: char, x: seq<string>, y: seq<string>)
    requires |x| >= 1
    ensures (if c == ' ' then [""] + (x + y) else [[c] + (x + y)[0]] + (x + y)[1..]) ==
      (if c == ' ' then [""] + x else [[c] + x[0]] + x[1..]) + y
  {
    if c != ' ' {
      assert (x + y)[0] == x[0];
      assert (x + y)[1..] == x[1..] + y;
    }
  }

  /** Splitting at a space splits the token lists apart. */
  lemma {:induction false} SplitAround(a: string, b: string)
    ensures Split(a + " " + b) == Split(a) + Split(b)
    decreases |a|
  {
    if a == [] {
      assert a + " " + b == [' '] + b;
      SplitCons(' ', b);
    } else {
      var c, t := a[0], a[1..];
      assert a == [c] + t;
      SplitAround(t, b);
      SplitConsAround(c, t, b);
      SplitCons(c, t);
      ConsTokens(c, Split(t), Split(b));
    }
  }

  /** The other round trip: space-free tokens survive joining and splitting. */
  lemma {:induction false} SplitJoin(tokens: seq<string>)
    requires |tokens| >= 1
    requires forall i :: 0 <= i < |tokens| ==> ' ' !in tokens[i]
    ensures Split(Join(tokens)) == tokens
    decreases |tokens|
  {
    SplitNoSpace(tokens[0]);
    if |tokens| > 1 {
      SplitJoin(tokens[1..]);
      SplitAround(tokens[0], Join(tokens[1..]));
      assert tokens == [tokens[0]] + tokens[1..];
    }
  }

  /** Word counts add up across a space. */
  lemma WordCountAround(a: string, b: string)
    ensures WordCount(a + " " + b) == WordCount(a) + WordCount(b)
  {
    SplitAround(a, b);
  }
}
