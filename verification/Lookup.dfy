/** The first-match linear scan shared by the texture table and the
    material list: both are searched front to back by tag, the first entry
    whose tag equals the key wins, and a miss is reported as -1. */
module Lookup {

  /** `r` is where a front-to-back scan of `tags` for `tag` stops: the
      smallest index holding `tag`, or -1 when no index holds it. */
  predicate IsFirstIndex(tags: seq<string>, tag: string, r: int)
  {
    && -1 <= r < |tags|
    && (r >= 0 ==> tags[r] == tag)
    && (forall j :: 0 <= j < |tags| && (r < 0 || j < r) ==> tags[j] != tag)
  }

  /** The reference definition of the scan, by recursion on the list. */
  function FirstIndex(tags: seq<string>, tag: string): (r: int)
    ensures IsFirstIndex(tags, tag, r)
    ensures r >= 0 <==> tag in tags
  {
    if |tags| == 0 then -1
    else if tags[0] == tag then 0
    else
      var k := FirstIndex(tags[1..], tag);
      assert forall j :: 1 <= j < |tags| ==> tags[j] == tags[1..][j - 1];
      if k < 0 then -1 else k + 1
  }

  /** At most one index satisfies the first-match description. */
  lemma FirstIndexUnique(tags: seq<string>, tag: string, r: int)
    requires IsFirstIndex(tags, tag, r)
    ensures r == FirstIndex(tags, tag)
  {
  }

  /** Appending never moves an earlier match; a key first found in the
      appended part is found at its offset past the old end. */
  lemma FirstIndexAppend(a: seq<string>, b: seq<string>, tag: string)
    ensures FirstIndex(a + b, tag) ==
      if FirstIndex(a, tag) >= 0 then FirstIndex(a, tag)
      else if FirstIndex(b, tag) >= 0 then |a| + FirstIndex(b, tag)
      else -1
  {
    var ra, rb := FirstIndex(a, tag), FirstIndex(b, tag);
    var r := if ra >= 0 then ra else if rb >= 0 then |a| + rb else -1;
    forall j | 0 <= j < |a + b| && (r < 0 || j < r)
      ensures (a + b)[j] != tag
    {
      if j >= |a| {
        assert (a + b)[j] == b[j - |a|];
      }
    }
    if r >= |a| {
      assert (a + b)[r] == b[rb];
    }
    FirstIndexUnique(a + b, tag, r);
  }

  /** Index `i` is the first occurrence of its own key exactly when the scan
      for that key stops at `i`. */
  lemma FirstOccurrence(tags: seq<string>, i: int)
    requires 0 <= i < |tags|
    ensures FirstIndex(tags, tags[i]) == i <==> forall j :: 0 <= j < i ==> tags[j] != tags[i]
  {
    if forall j :: 0 <= j < i ==> tags[j] != tags[i] {
      FirstIndexUnique(tags, tags[i], i);
    }
  }
}
