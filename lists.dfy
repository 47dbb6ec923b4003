// Order-preserving filtering, as `Array.prototype.filter` does it.
module Lists {
  /** `sub` is `s` with some elements dropped and the rest in their order. */
  predicate IsSubsequence<T(==)>(sub: seq<T>, s: seq<T>)
    decreases |s|
  {
    if sub == [] then true
    else if s == [] then false
    else if sub[0] == s[0] then IsSubsequence(sub[1..], s[1..])
    else IsSubsequence(sub, s[1..])
  }

  /** The elements of `s` that satisfy `p`, in their order. */
  function Keep<T(==)>(s: seq<T>, p: T -> bool): (r: seq<T>)
    ensures |r| <= |s|
    ensures forall i :: 0 <= i < |r| ==> r[i] in s && p(r[i])
    ensures forall i :: 0 <= i < |s| && p(s[i]) ==> s[i] in r
    ensures IsSubsequence(r, s)
  {
    if s == [] then []
    else if p(s[0]) then
      var rest := Keep(s[1..], p);
      assert ([s[0]] + rest)[1..] == rest;
      [s[0]] + rest
    else Keep(s[1..], p)
  }

  /** Keep takes every copy of an element that passes and none of one that fails. */
  lemma {:induction false} KeepCount<T(!new)>(s: seq<T>, p: T -> bool)
    ensures forall x :: multiset(Keep(s, p))[x] == if p(x) then multiset(s)[x] else 0
  {
    if s != [] {
      KeepCount(s[1..], p);
      assert s == [s[0]] + s[1..];
      var rest := Keep(s[1..], p);
      if p(s[0]) {
        assert Keep(s, p) == [s[0]] + rest;
        assert multiset(Keep(s, p)) == multiset{s[0]} + multiset(rest);
      } else {
        assert Keep(s, p) == rest;
      }
      assert multiset(s) == multiset{s[0]} + multiset(s[1..]);
    }
  }

  /** The elements of a subsequence are elements of the sequence. */
  lemma {:induction false} SubsequenceMembers<T>(sub: seq<T>, s: seq<T>)
    requires IsSubsequence(sub, s)
    ensures forall k :: 0 <= k < |sub| ==> sub[k] in s
    decreases |s|
  {
    if sub != [] && s != [] {
      if sub[0] == s[0] {
        SubsequenceMembers(sub[1..], s[1..]);
        forall k | 1 <= k < |sub| ensures sub[k] in s {
          assert sub[k] == sub[1..][k - 1];
        }
      } else {
        SubsequenceMembers(sub, s[1..]);
      }
    }
  }

  /** A subsequence keeps every ordering its sequence has. */
  lemma {:induction false} SubsequenceKeepsOrder<T>(sub: seq<T>, s: seq<T>, before: (T, T) -> bool)
    requires IsSubsequence(sub, s)
    requires forall i, j :: 0 <= i < j < |s| ==> before(s[i], s[j])
    ensures forall i, j :: 0 <= i < j < |sub| ==> before(sub[i], sub[j])
    decreases |s|
  {
    if sub != [] && s != [] {
      if sub[0] == s[0] {
        SubsequenceKeepsOrder(sub[1..], s[1..], before);
        SubsequenceMembers(sub[1..], s[1..]);
        forall i, j | 0 <= i < j < |sub| ensures before(sub[i], sub[j]) {
          assert sub[j] == sub[1..][j - 1];
          var m :| 0 <= m < |s[1..]| && s[1..][m] == sub[j];
          if i > 0 {
            assert sub[i] == sub[1..][i - 1];
          } else {
            assert before(s[0], s[m + 1]);
          }
        }
      } else {
        SubsequenceKeepsOrder(sub, s[1..], before);
      }
    }
  }

  /** Keeping what satisfies an always-true test keeps everything. */
  lemma {:induction false} KeepAll<T>(s: seq<T>, p: T -> bool)
    requires forall i :: 0 <= i < |s| ==> p(s[i])
    ensures Keep(s, p) == s
  {
    if s != [] {
      KeepAll(s[1..], p);
    }
  }

  /** `s` without any copy of `x`. */
  function Remove<T(==)>(s: seq<T>, x: T): (r: seq<T>)
    ensures x !in r
    ensures forall i :: 0 <= i < |s| && s[i] != x ==> s[i] in r
    ensures forall i :: 0 <= i < |r| ==> r[i] in s
    ensures IsSubsequence(r, s) && |r| <= |s|
  {
    if s == [] then []
    else if s[0] != x then
      var rest := Remove(s[1..], x);
      assert ([s[0]] + rest)[1..] == rest;
      [s[0]] + rest
    else Remove(s[1..], x)
  }

  /** Removing an element that is not there changes nothing. */
  lemma {:induction false} RemoveAbsent<T>(s: seq<T>, x: T)
    requires x !in s
    ensures Remove(s, x) == s
  {
    if s != [] {
      RemoveAbsent(s[1..], x);
    }
  }

  /** Removing `x` ignores a copy of `x` appended at the end. */
  lemma {:induction false} RemoveAppended<T>(s: seq<T>, x: T)
    ensures Remove(s + [x], x) == Remove(s, x)
  {
    if s == [] {
      assert [x][1..] == [];
    } else {
      assert (s + [x])[1..] == s[1..] + [x];
      RemoveAppended(s[1..], x);
    }
  }
}
