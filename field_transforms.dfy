/**
 * The store's array field transforms, `arrayUnion` and `arrayRemove`, on one element,
 * and the facts about duplicates and length the room invariants rest on.
 */
module FieldTransforms {

  predicate NoDuplicates(s: seq<string>) {
    forall i, j :: 0 <= i < j < |s| ==> s[i] != s[j]
  }

  /** `arrayUnion(x)`: appends `x` unless it is already present. */
  function ArrayUnion(s: seq<string>, x: string): (r: seq<string>)
    ensures x in r
    ensures forall y :: y in r <==> y in s || y == x
    ensures x in s ==> r == s
    ensures x !in s ==> |r| == |s| + 1
  {
    if x in s then s else s + [x]
  }

  /** `arrayRemove(x)`: drops every occurrence of `x`, keeping the order of the rest. */
  function ArrayRemove(s: seq<string>, x: string): (r: seq<string>)
    ensures x !in r
    ensures forall y :: y in r <==> y in s && y != x
    ensures |r| <= |s|
  {
    if s == [] then []
    else (if s[0] == x then [] else [s[0]]) + ArrayRemove(s[1..], x)
  }

  lemma ArrayUnionIdempotent(s: seq<string>, x: string)
    ensures ArrayUnion(ArrayUnion(s, x), x) == ArrayUnion(s, x)
  {
  }

  lemma ArrayUnionKeepsNoDuplicates(s: seq<string>, x: string)
    requires NoDuplicates(s)
    ensures NoDuplicates(ArrayUnion(s, x))
  {
  }

  /** Removing an element that occurs once (as in a duplicate-free list) shortens it by one. */
  lemma {:induction false} ArrayRemoveOnce(s: seq<string>, x: string)
    requires NoDuplicates(s)
    ensures NoDuplicates(ArrayRemove(s, x))
    ensures |ArrayRemove(s, x)| == if x in s then |s| - 1 else |s|
  {
    if s != [] {
      assert NoDuplicates(s[1..]);
      ArrayRemoveOnce(s[1..], x);
      if s[0] == x {
        assert x !in s[1..];
      } else {
        var r := ArrayRemove(s, x);
        assert r == [s[0]] + ArrayRemove(s[1..], x);
        assert s[0] !in ArrayRemove(s[1..], x);
      }
    }
  }
}
