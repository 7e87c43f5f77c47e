/** Splitting a string at a separator, and joining the parts again. */
module Splitting {

  predicate Lacks(s: string, c: char) {
    forall i :: 0 <= i < |s| ==> s[i] != c
  }

  /** The first place of a character, or the length. */
  function IndexOf(s: string, c: char): (k: nat)
    ensures k <= |s| && Lacks(s[..k], c) && (k < |s| ==> s[k] == c)
  {
    if s == "" || s[0] == c then 0
    else
      var k := 1 + IndexOf(s[1..], c);
      assert s[..k] == [s[0]] + s[1..][..k - 1];
      k
  }

  function Split(s: string, c: char): (parts: seq<string>)
    ensures parts != []
    decreases |s|
  {
    var k := IndexOf(s, c);
    if k == |s| then [s] else [s[..k]] + Split(s[k + 1..], c)
  }

  function Join(parts: seq<string>, c: char): string
    requires parts != []
  {
    if |parts| == 1 then parts[0] else parts[0] + [c] + Join(parts[1..], c)
  }

  predicate AllLack(parts: seq<string>, c: char) {
    forall i :: 0 <= i < |parts| ==> Lacks(parts[i], c)
  }

  lemma IndexIsFirst(a: string, b: string, c: char)
    requires Lacks(a, c) && (b == "" || b[0] == c)
    ensures IndexOf(a + b, c) == |a|
  {
    var s, k := a + b, IndexOf(a + b, c);
    assert forall i :: 0 <= i < |a| ==> s[i] == a[i];
    assert forall i :: 0 <= i < k ==> s[i] == s[..k][i];
    assert b != "" ==> s[|a|] == b[0];
  }

  lemma {:induction false} JoinSplit(s: string, c: char)
    ensures Join(Split(s, c), c) == s && AllLack(Split(s, c), c)
    decreases |s|
  {
    var k := IndexOf(s, c);
    if k == |s| {
      assert s[..k] == s;
    } else {
      JoinSplit(s[k + 1..], c);
      assert s == s[..k] + [c] + s[k + 1..];
      assert Split(s, c)[1..] == Split(s[k + 1..], c);
    }
  }

  lemma {:induction false} SplitJoin(parts: seq<string>, c: char)
    requires parts != [] && AllLack(parts, c)
    ensures Split(Join(parts, c), c) == parts
    decreases |parts|
  {
    var first := parts[0];
    if |parts| == 1 {
      assert first + "" == first;
      IndexIsFirst(first, "", c);
    } else {
      var rest := Join(parts[1..], c);
      SplitJoin(parts[1..], c);
      assert Join(parts, c) == first + ([c] + rest);
      IndexIsFirst(first, [c] + rest, c);
      assert (first + ([c] + rest))[|first| + 1..] == rest;
    }
  }
}
