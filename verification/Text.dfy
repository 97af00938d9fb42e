// Substrings and lower-casing, as JavaScript's includes and (on ASCII) toLowerCase.
module Texts {
  predicate OccursAt(s: string, part: string, i: nat) { i + |part| <= |s| && s[i..i + |part|] == part }

  predicate Includes(s: string, part: string) { exists i :: 0 <= i <= |s| && OccursAt(s, part, i) }

  function ToLower(s: string): (t: string)
    ensures |t| == |s|
  {
    seq(|s|, i requires 0 <= i < |s| =>
      if 'A' <= s[i] <= 'Z' then (s[i] as int + 32) as char else s[i])
  }

  lemma IncludesTransitive(s: string, t: string, u: string)
    requires Includes(s, t) && Includes(t, u)
    ensures Includes(s, u)
  {
    var i :| 0 <= i <= |s| && OccursAt(s, t, i);
    var j :| 0 <= j <= |t| && OccursAt(t, u, j);
    assert forall k :: 0 <= k < |u| ==> u[k] == t[j + k] == s[i + (j + k)];
    assert s[i + j..i + j + |u|] == u;
    assert OccursAt(s, u, i + j);
  }

  lemma PartIncluded(s: string, part: string, i: nat)
    requires OccursAt(s, part, i)
    ensures Includes(s, part)
  {
  }
}
