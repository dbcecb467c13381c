/** Small vocabulary shared by the models. */
module Basics {
  datatype Option<+T> = None | Some(value: T)

  /** A workflow task, named by its project and its id; the empty id is the "no dependency" sentinel. */
  datatype Task = Task(project: int, id: string)

  ghost predicate Distinct<T>(s: seq<T>) {
    forall i, j :: 0 <= i < j < |s| ==> s[i] != s[j]
  }

  /** A sequence without repetitions drawn from a finite set is no longer than the set. */
  lemma {:induction false} DistinctFits<T>(s: seq<T>, within: set<T>)
    requires Distinct(s)
    requires forall x :: x in s ==> x in within
    ensures |s| <= |within|
  {
    if s != [] {
      var n := |s| - 1;
      forall x | x in s[..n] ensures x in within - {s[n]} {
        var i :| 0 <= i < n && s[..n][i] == x;
        assert s[i] == x;
      }
      DistinctFits(s[..n], within - {s[n]});
    }
  }

  lemma {:induction false} DistinctCounts<T>(s: seq<T>, x: T)
    requires Distinct(s)
    ensures multiset(s)[x] == if x in s then 1 else 0
  {
    if s != [] {
      var n := |s| - 1;
      DistinctCounts(s[..n], x);
      assert s == s[..n] + [s[n]];
    }
  }

  lemma RepeatedCounts<T>(s: seq<T>, i: nat, j: nat)
    requires i < j < |s| && s[i] == s[j]
    ensures multiset(s)[s[i]] >= 2
  {
    assert s == s[..j] + s[j..] && s[..j][i] in s[..j] && s[j..][0] in s[j..];
  }
}
