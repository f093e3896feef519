/** Callers in the middle of a call, listed in no particular order and named by their place. */
module Callers {

  /** The list once the caller at `i` has moved on. */
  function Without<A>(s: seq<A>, i: nat): (r: seq<A>)
    requires i < |s|
    ensures |r| == |s| - 1
    ensures forall k :: 0 <= k < i ==> r[k] == s[k]
    ensures forall k :: i <= k < |r| ==> r[k] == s[k + 1]
  {
    s[..i] + s[i + 1..]
  }

  /** Only the one caller is gone. */
  lemma WithoutKeeps<A>(s: seq<A>, i: nat, a: A)
    requires i < |s|
    ensures a in Without(s, i) ==> a in s
    ensures a in s ==> a in Without(s, i) || a == s[i]
  {
    var r := Without(s, i);
    if a in s && a != s[i] {
      var k :| 0 <= k < |s| && s[k] == a;
      assert r[if k < i then k else k - 1] == a;
    }
  }
}
