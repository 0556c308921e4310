/** Index-keyed sequence edits shared by the cards. */
module Lists {

  /** The list with entry `i` replaced by `x`, for an index the interface rendered. */
  function ReplaceAt<T>(s: seq<T>, i: nat, x: T): (r: seq<T>)
    requires i < |s|
    ensures |r| == |s| && r[i] == x
    ensures forall j :: 0 <= j < |s| && j != i ==> r[j] == s[j]
  {
    s[i := x]
  }

  /** The list without entry `i`, or the list itself when `i` is past the end. */
  function RemoveAt<T>(s: seq<T>, i: nat): (r: seq<T>)
    ensures i < |s| ==> |r| == |s| - 1
    ensures i >= |s| ==> r == s
    ensures forall j :: 0 <= j < i && j < |r| ==> r[j] == s[j]
    ensures forall j :: i <= j < |r| ==> r[j] == s[j + 1]
  {
    if i < |s| then s[..i] + s[i + 1..] else s
  }

  /** The list keeping every entry whose position is not `i`, built front to back. */
  function WithoutIndex<T>(s: seq<T>, i: nat): seq<T>
    decreases |s|
  {
    if |s| == 0 then []
    else WithoutIndex(s[..|s| - 1], i) + (if |s| - 1 == i then [] else [s[|s| - 1]])
  }

  /** Filtering out index `i` is the same as splicing it out. */
  lemma {:induction false} WithoutIndexIsRemoveAt<T>(s: seq<T>, i: nat)
    ensures WithoutIndex(s, i) == RemoveAt(s, i)
    decreases |s|
  {
    if |s| > 0 {
      var n := |s| - 1;
      WithoutIndexIsRemoveAt(s[..n], i);
      if n == i {
        assert s[..n][..i] == s[..i];
        assert s[i + 1..] == [];
      } else if n < i {
        assert s[..n] + [s[n]] == s;
      } else {
        assert s[..n][..i] == s[..i];
        assert s[..n][i + 1..] + [s[n]] == s[i + 1..];
      }
    }
  }

  /** Removing an element keeps the others in their relative order. */
  lemma RemoveAtKeepsOrder<T>(s: seq<T>, i: nat, j: nat, k: nat)
    requires i < |s| && j < k < |s| && j != i && k != i
    ensures var r := RemoveAt(s, i);
            var j' := if j < i then j else j - 1;
            var k' := if k < i then k else k - 1;
            j' < k' < |r| && r[j'] == s[j] && r[k'] == s[k]
  {
  }
}
