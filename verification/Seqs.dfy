/** Small facts about sequences that several components share. */
module Seqs {

  datatype Option<+T> = None | Some(value: T)

  /** No element occurs twice. */
  ghost predicate NoDup<T>(s: seq<T>) {
    forall i, j :: 0 <= i < j < |s| ==> s[i] != s[j]
  }

  /** `Vec::remove(i)`. */
  function RemoveAt<T>(s: seq<T>, i: nat): (r: seq<T>)
    requires i < |s|
  {
    s[..i] + s[i + 1..]
  }

  lemma RemoveAtMembers<T>(s: seq<T>, i: nat)
    requires i < |s| && NoDup(s)
    ensures NoDup(RemoveAt(s, i))
    ensures forall x :: x in RemoveAt(s, i) <==> x in s && x != s[i]
  {
    var r := RemoveAt(s, i);
    forall x | x in s && x != s[i]
      ensures x in r
    {
      var k :| 0 <= k < |s| && s[k] == x;
      assert r[if k < i then k else k - 1] == x;
    }
  }

  lemma AppendMembers<T>(s: seq<T>, x: T)
    requires NoDup(s) && x !in s
    ensures NoDup(s + [x])
    ensures forall y :: y in s + [x] <==> y in s || y == x
  {
  }

  lemma RemoveAtPrefix<T>(b: seq<T>, u: seq<T>, i: nat)
    requires i < |b|
    ensures RemoveAt(b + u, i) == RemoveAt(b, i) + u
  {
    assert (b + u)[..i] == b[..i];
    assert (b + u)[i + 1..] == b[i + 1..] + u;
  }

  lemma RemoveAtSubset<T>(b: seq<T>, i: nat, x: T)
    requires i < |b| && x !in b
    ensures x !in RemoveAt(b, i)
  {
  }
}
