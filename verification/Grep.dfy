/**
 The pattern matcher of examples/c/grep.c.  Patterns and texts are the characters before the
 terminating NUL.
 */
module Grep {

  // ---------------------------------------------------------------- what a pattern means

  /** `One` and `Star` hold the pattern character; '.' stands for any. */
  datatype Item = One(c: char) | Star(c: char) | End

  /** A character followed by '*' repeats; a final '$' is the end of the text; the rest stands for itself. */
  function Parse(re: string): seq<Item> {
    if re == [] then []
    else if |re| >= 2 && re[1] == '*' then [Star(re[0])] + Parse(re[2..])
    else if re == "$" then [End]
    else [One(re[0])] + Parse(re[1..])
  }

  function Print(items: seq<Item>): string {
    if items == [] then ""
    else (match items[0] case One(c) => [c] case Star(c) => [c, '*'] case End => "$") + Print(items[1..])
  }

  /** Parsing loses nothing. */
  lemma {:induction false} ParseKeepsPattern(re: string)
    ensures Print(Parse(re)) == re
  {
    if re == [] || re == "$" {
    } else if |re| >= 2 && re[1] == '*' {
      ParseKeepsPattern(re[2..]);
      assert Parse(re)[1..] == Parse(re[2..]);
      assert re == [re[0], '*'] + re[2..];
    } else {
      ParseKeepsPattern(re[1..]);
      assert Parse(re)[1..] == Parse(re[1..]);
      assert re == [re[0]] + re[1..];
    }
  }

  predicate Fits(c: char, x: char) {
    c == '.' || c == x
  }

  /** Item `it` matches the text from `lo` to `hi`. */
  ghost predicate ItemMatches(it: Item, text: string, lo: nat, hi: nat)
    requires lo <= hi <= |text|
  {
    match it
    case One(c) => hi == lo + 1 && Fits(c, text[lo])
    case Star(c) => forall i :: lo <= i < hi ==> Fits(c, text[i])
    case End => lo == hi == |text|
  }

  /** Item `i` matches the piece of the text between two cuts. */
  ghost predicate Piece(items: seq<Item>, text: string, cuts: seq<nat>, i: nat)
    requires i < |items| && |cuts| == |items| + 1
  {
    cuts[i] <= cuts[i + 1] <= |text| && ItemMatches(items[i], text, cuts[i], cuts[i + 1])
  }

  /** The items match consecutive pieces of the text, which `cuts` delimits, starting at 0. */
  ghost predicate Cuts(items: seq<Item>, text: string, cuts: seq<nat>) {
    && |cuts| == |items| + 1 && cuts[0] == 0
    && forall i :: 0 <= i < |items| ==> Piece(items, text, cuts, i)
  }

  ghost predicate PrefixMatches(items: seq<Item>, text: string) {
    exists cuts :: Cuts(items, text, cuts)
  }

  /** The meaning of a whole pattern: a leading '^' ties the match to the start of the text. */
  ghost predicate Matches(re: string, text: string) {
    if re != "" && re[0] == '^' then PrefixMatches(Parse(re[1..]), text)
    else exists k :: 0 <= k <= |text| && PrefixMatches(Parse(re), text[k..])
  }

  // ---------------------------------------------------------------- one item at a time

  lemma Shift(it: Item, text: string, k: nat, lo: nat, hi: nat)
    requires k + lo <= k + hi <= |text|
    ensures ItemMatches(it, text[k..], lo, hi) <==> ItemMatches(it, text, k + lo, k + hi)
  {
    if it.Star? && ItemMatches(it, text[k..], lo, hi) {
      forall i | k + lo <= i < k + hi
        ensures Fits(it.c, text[i])
      {
        assert text[k..][i - k] == text[i];
      }
    }
  }

  /** The first item takes some prefix and the rest of the items match what is left. */
  lemma Unroll(it: Item, rest: seq<Item>, text: string)
    ensures PrefixMatches([it] + rest, text) <==>
            exists k :: 0 <= k <= |text| && ItemMatches(it, text, 0, k) && PrefixMatches(rest, text[k..])
  {
    if PrefixMatches([it] + rest, text) {
      var cuts :| Cuts([it] + rest, text, cuts);
      TailCuts(it, rest, text, cuts);
    }
    if k :| 0 <= k <= |text| && ItemMatches(it, text, 0, k) && PrefixMatches(rest, text[k..]) {
      var cuts :| Cuts(rest, text[k..], cuts);
      HeadCuts(it, rest, text, k, cuts);
    }
  }

  lemma TailCuts(it: Item, rest: seq<Item>, text: string, cuts: seq<nat>)
    requires Cuts([it] + rest, text, cuts)
    ensures var k := cuts[1]; k <= |text| && ItemMatches(it, text, 0, k) && PrefixMatches(rest, text[k..])
  {
    var items, k := [it] + rest, cuts[1];
    assert items[0] == it && Piece(items, text, cuts, 0);
    var tail := seq(|rest| + 1, i requires 0 <= i <= |rest| => if cuts[i + 1] >= k then cuts[i + 1] - k else 0);
    forall i | 0 <= i < |rest|
      ensures Piece(rest, text[k..], tail, i)
    {
      assert items[i + 1] == rest[i] && Piece(items, text, cuts, i + 1);
      CutsIncrease(items, text, cuts, i + 1);
      CutsIncrease(items, text, cuts, i + 2);
      Shift(rest[i], text, k, tail[i], tail[i + 1]);
    }
    assert Cuts(rest, text[k..], tail);
  }

  lemma {:induction false} CutsIncrease(items: seq<Item>, text: string, cuts: seq<nat>, i: nat)
    requires Cuts(items, text, cuts) && 1 <= i < |cuts|
    ensures cuts[1] <= cuts[i]
  {
    if i > 1 {
      CutsIncrease(items, text, cuts, i - 1);
      assert Piece(items, text, cuts, i - 1);
    }
  }

  lemma HeadCuts(it: Item, rest: seq<Item>, text: string, k: nat, cuts: seq<nat>)
    requires k <= |text| && ItemMatches(it, text, 0, k) && Cuts(rest, text[k..], cuts)
    ensures PrefixMatches([it] + rest, text)
  {
    var items := [it] + rest;
    var all := [0] + seq(|cuts|, i requires 0 <= i < |cuts| => k + cuts[i]);
    forall i | 0 <= i < |items|
      ensures Piece(items, text, all, i)
    {
      if i > 0 {
        assert items[i] == rest[i - 1] && Piece(rest, text[k..], cuts, i - 1);
        Shift(rest[i - 1], text, k, cuts[i - 1], cuts[i]);
      }
    }
    assert Cuts(items, text, all);
  }

  // ---------------------------------------------------------------- the matcher

  /** Some repetitions of `c` are followed by a match of `items`. */
  ghost predicate StarMatches(c: char, items: seq<Item>, text: string) {
    exists k :: 0 <= k <= |text| && StarAt(c, items, text, k)
  }

  ghost predicate StarAt(c: char, items: seq<Item>, text: string, k: nat)
    requires k <= |text|
  {
    (forall i :: 0 <= i < k ==> Fits(c, text[i])) && PrefixMatches(items, text[k..])
  }

  /** `c*` and then `re`: tries `re` after each number of repetitions, fewest first. */
  method MatchStar(c: char, re: string, text: string) returns (b: bool)
    ensures b == StarMatches(c, Parse(re), text)
    decreases |re|, 1, |text|
  {
    var i := 0;
    while true
      invariant i <= |text| && (forall j :: 0 <= j < i ==> Fits(c, text[j]))
      invariant forall k :: 0 <= k < i ==> !StarAt(c, Parse(re), text, k)
      decreases |text| - i
    {
      b := MatchHere(re, text[i..]);
      if b {
        assert StarAt(c, Parse(re), text, i);
        return;
      }
      assert !StarAt(c, Parse(re), text, i);
      if i == |text| {
        return false;
      }
      if !Fits(c, text[i]) {
        assert forall k :: i < k <= |text| ==> !StarAt(c, Parse(re), text, k);
        return false;
      }
      i := i + 1;
    }
  }

  /** Does the text start with a match of `re`? */
  method MatchHere(re: string, text: string) returns (b: bool)
    ensures b == PrefixMatches(Parse(re), text)
    decreases |re|, 0, |text|
  {
    HereCases(re, text);
    if re == [] {
      return true;
    }
    if |re| >= 2 && re[1] == '*' {
      b := MatchStar(re[0], re[2..], text);
      return;
    }
    if re[0] == '$' && |re| == 1 {
      return text == [];
    }
    if text != [] && (re[0] == '.' || re[0] == text[0]) {
      b := MatchHere(re[1..], text[1..]);
      return;
    }
    return false;
  }

  /** The meaning of a pattern, case by case as the matcher looks at it. */
  lemma HereCases(re: string, text: string)
    ensures re == [] ==> PrefixMatches(Parse(re), text)
    ensures |re| >= 2 && re[1] == '*' ==> (PrefixMatches(Parse(re), text) <==> StarMatches(re[0], Parse(re[2..]), text))
    ensures re == "$" ==> (PrefixMatches(Parse(re), text) <==> text == [])
    ensures re != [] && re != "$" && !(|re| >= 2 && re[1] == '*') ==>
              (PrefixMatches(Parse(re), text) <==>
                text != [] && Fits(re[0], text[0]) && PrefixMatches(Parse(re[1..]), text[1..]))
  {
    EmptyMatches(text);
    if re == [] {
    } else if |re| >= 2 && re[1] == '*' {
      StarUnroll(re[0], Parse(re[2..]), text);
    } else if re == "$" {
      EndUnroll(text);
    } else {
      OneUnroll(re[0], Parse(re[1..]), text);
    }
  }

  lemma EmptyMatches(text: string)
    ensures PrefixMatches([], text)
  {
    assert Cuts([], text, [0]);
  }

  lemma StarUnroll(c: char, rest: seq<Item>, text: string)
    ensures PrefixMatches([Star(c)] + rest, text) <==> StarMatches(c, rest, text)
  {
    Unroll(Star(c), rest, text);
    if k :| 0 <= k <= |text| && ItemMatches(Star(c), text, 0, k) && PrefixMatches(rest, text[k..]) {
      assert StarAt(c, rest, text, k);
    }
    if StarMatches(c, rest, text) {
      var k :| 0 <= k <= |text| && StarAt(c, rest, text, k);
      assert ItemMatches(Star(c), text, 0, k);
    }
  }

  lemma EndUnroll(text: string)
    ensures PrefixMatches([End], text) <==> text == []
  {
    Unroll(End, [], text);
    assert [End] + [] == [End];
    EmptyMatches(text[|text|..]);
  }

  lemma OneUnroll(c: char, rest: seq<Item>, text: string)
    ensures PrefixMatches([One(c)] + rest, text) <==> text != [] && Fits(c, text[0]) && PrefixMatches(rest, text[1..])
  {
    Unroll(One(c), rest, text);
    if text != [] && Fits(c, text[0]) && PrefixMatches(rest, text[1..]) {
      assert ItemMatches(One(c), text, 0, 1);
    }
  }

  /** `casa`: the whole search. */
  method Match(re: string, text: string) returns (b: bool)
    ensures b == Matches(re, text)
  {
    if re != "" && re[0] == '^' {
      b := MatchHere(re[1..], text);
      return;
    }
    var i := 0;
    while true
      invariant i <= |text| && forall k :: 0 <= k < i ==> !PrefixMatches(Parse(re), text[k..])
      decreases |text| - i
    {
      b := MatchHere(re, text[i..]);
      if b {
        return;
      }
      if i == |text| {
        return false;
      }
      i := i + 1;
    }
  }
}
