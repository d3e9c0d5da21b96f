/**
 * Sequence operations the components use: `Array.prototype.filter`, the
 * "order-preserving sub-list" relation and duplicate-freedom.
 */
module Seqs {

  /** `s.filter(p)`: the elements of `s` that satisfy `p`, in their original order. */
  function Keep<T>(s: seq<T>, p: T -> bool): (r: seq<T>)
    ensures |r| <= |s|
  {
    if s == [] then []
    else if p(s[0]) then [s[0]] + Keep(s[1..], p)
    else Keep(s[1..], p)
  }

  /** An element is kept exactly when it is in the input and satisfies the predicate. */
  lemma {:induction false} KeepMembership<T>(s: seq<T>, p: T -> bool)
    ensures forall i :: 0 <= i < |Keep(s, p)| ==> Keep(s, p)[i] in s && p(Keep(s, p)[i])
    ensures forall i :: 0 <= i < |s| && p(s[i]) ==> s[i] in Keep(s, p)
  {
    if s != [] {
      KeepMembership(s[1..], p);
      var t := Keep(s[1..], p);
      if p(s[0]) {
        forall i | 0 <= i < |[s[0]] + t| ensures ([s[0]] + t)[i] in s && p(([s[0]] + t)[i]) {
          if i > 0 {
            assert ([s[0]] + t)[i] == t[i - 1];
          }
        }
      }
      forall i | 0 <= i < |s| && p(s[i]) ensures s[i] in Keep(s, p) {
        if i > 0 {
          assert s[i] == s[1..][i - 1];
        }
      }
    }
  }

  /** `a` can be obtained from `b` by deleting elements, keeping the order of the rest. */
  predicate IsSubsequence<T(==)>(a: seq<T>, b: seq<T>)
  {
    if a == [] then true
    else if b == [] then false
    else if a[0] == b[0] then IsSubsequence(a[1..], b[1..])
    else IsSubsequence(a, b[1..])
  }

  predicate NoDuplicates<T(==)>(s: seq<T>)
  {
    forall i, j :: 0 <= i < j < |s| ==> s[i] != s[j]
  }

  lemma {:induction false} SubsequenceReflexive<T>(s: seq<T>)
    ensures IsSubsequence(s, s)
  {
    if s != [] {
      SubsequenceReflexive(s[1..]);
    }
  }

  lemma {:induction false} SubsequenceOfTail<T>(a: seq<T>, b: seq<T>)
    requires b != [] && IsSubsequence(a, b[1..])
    ensures IsSubsequence(a, b)
  {
    if a != [] && a[0] == b[0] {
      SubsequenceDropHead(a, b[1..]);
    }
  }

  lemma {:induction false} SubsequenceDropHead<T>(a: seq<T>, b: seq<T>)
    requires a != [] && IsSubsequence(a, b)
    ensures IsSubsequence(a[1..], b)
  {
    if a[1..] != [] {
      if a[0] != b[0] {
        SubsequenceDropHead(a, b[1..]);
      }
      SubsequenceOfTail(a[1..], b);
    }
  }

  /** Filtering never reorders: the result is a sub-list of its input. */
  lemma {:induction false} KeepIsSubsequence<T>(s: seq<T>, p: T -> bool)
    ensures IsSubsequence(Keep(s, p), s)
  {
    if s != [] {
      KeepIsSubsequence(s[1..], p);
      if !p(s[0]) && Keep(s[1..], p) != [] {
        SubsequenceOfTail(Keep(s[1..], p), s);
      }
    }
  }

  /** Filtering with a predicate every element satisfies changes nothing. */
  lemma {:induction false} KeepAll<T>(s: seq<T>, p: T -> bool)
    requires forall i :: 0 <= i < |s| ==> p(s[i])
    ensures Keep(s, p) == s
  {
    if s != [] {
      KeepAll(s[1..], p);
    }
  }

  /** Filtering with a predicate no element satisfies leaves nothing. */
  lemma {:induction false} KeepNone<T>(s: seq<T>, p: T -> bool)
    requires forall i :: 0 <= i < |s| ==> !p(s[i])
    ensures Keep(s, p) == []
  {
    if s != [] {
      KeepNone(s[1..], p);
    }
  }

  /** Two predicates that agree on the elements of `s` keep the same sub-list. */
  lemma {:induction false} KeepCongruent<T>(s: seq<T>, p: T -> bool, q: T -> bool)
    requires forall i :: 0 <= i < |s| ==> p(s[i]) == q(s[i])
    ensures Keep(s, p) == Keep(s, q)
  {
    if s != [] {
      KeepCongruent(s[1..], p, q);
    }
  }

  /** Two successive filters are one filter by the conjunction of their predicates. */
  lemma {:induction false} KeepKeep<T>(s: seq<T>, p: T -> bool, q: T -> bool, pq: T -> bool)
    requires forall i :: 0 <= i < |s| ==> pq(s[i]) == (p(s[i]) && q(s[i]))
    ensures Keep(Keep(s, p), q) == Keep(s, pq)
  {
    if s != [] {
      KeepKeep(s[1..], p, q, pq);
    }
  }

  /** Filtering twice by the same predicate is filtering once. */
  lemma {:induction false} KeepIdempotent<T>(s: seq<T>, p: T -> bool)
    ensures Keep(Keep(s, p), p) == Keep(s, p)
  {
    if s != [] {
      KeepIdempotent(s[1..], p);
    }
  }

  /** The callback `(y) => y !== x`. */
  function OtherThan<T(==)>(x: T): T -> bool
  {
    y => y != x
  }

  /** Filtering out one value from a list that does not hold it changes nothing. */
  lemma KeepOtherThanAbsent<T>(s: seq<T>, x: T)
    requires x !in s
    ensures Keep(s, OtherThan(x)) == s
  {
    KeepAll(s, OtherThan(x));
  }

  /** Filtering out a value removes every occurrence of it and keeps every other element. */
  lemma KeepOtherThanMembership<T>(s: seq<T>, x: T)
    ensures x !in Keep(s, OtherThan(x))
    ensures forall y :: y != x ==> (y in Keep(s, OtherThan(x)) <==> y in s)
  {
    var r := Keep(s, OtherThan(x));
    KeepMembership(s, OtherThan(x));
    assert forall i :: 0 <= i < |r| ==> OtherThan(x)(r[i]);
    forall y | y != x ensures y in r <==> y in s {
      if y in s {
        var i :| 0 <= i < |s| && s[i] == y;
      }
      if y in r {
        var i :| 0 <= i < |r| && r[i] == y;
      }
    }
  }

  /** Filtering distributes over appending one element. */
  lemma {:induction false} KeepAppend<T>(s: seq<T>, x: T, p: T -> bool)
    ensures Keep(s + [x], p) == Keep(s, p) + (if p(x) then [x] else [])
  {
    if s == [] {
      assert s + [x] == [x];
      assert [x][1..] == [];
    } else {
      assert (s + [x])[1..] == s[1..] + [x];
      KeepAppend(s[1..], x, p);
    }
  }

  /** Filtering preserves duplicate-freedom. */
  lemma {:induction false} KeepNoDuplicates<T>(s: seq<T>, p: T -> bool)
    requires NoDuplicates(s)
    ensures NoDuplicates(Keep(s, p))
  {
    if s != [] {
      assert NoDuplicates(s[1..]) by {
        forall i, j | 0 <= i < j < |s[1..]| ensures s[1..][i] != s[1..][j] {
          assert s[1..][i] == s[i + 1] && s[1..][j] == s[j + 1];
        }
      }
      KeepNoDuplicates(s[1..], p);
      KeepMembership(s[1..], p);
      if p(s[0]) {
        var t := Keep(s[1..], p);
        assert s[0] !in t;
        forall i, j | 0 <= i < j < |[s[0]] + t| ensures ([s[0]] + t)[i] != ([s[0]] + t)[j] {
          if i == 0 {
            assert ([s[0]] + t)[j] == t[j - 1];
          } else {
            assert ([s[0]] + t)[i] == t[i - 1] && ([s[0]] + t)[j] == t[j - 1];
          }
        }
      }
    }
  }

  /** `Keep` on a list of five, spelled out element by element. */
  lemma KeepFive<T>(s: seq<T>, p: T -> bool)
    requires |s| == 5
    ensures Keep(s, p) ==
      (if p(s[0]) then [s[0]] else []) + ((if p(s[1]) then [s[1]] else []) +
      ((if p(s[2]) then [s[2]] else []) + ((if p(s[3]) then [s[3]] else []) +
      (if p(s[4]) then [s[4]] else []))))
  {
    var k4 := Keep(s[4..], p);
    assert k4 == (if p(s[4]) then [s[4]] else []) by {
      assert s[4..][1..] == [];
    }
    var k3 := Keep(s[3..], p);
    assert k3 == (if p(s[3]) then [s[3]] else []) + k4 by {
      assert s[3..][1..] == s[4..];
    }
    var k2 := Keep(s[2..], p);
    assert k2 == (if p(s[2]) then [s[2]] else []) + k3 by {
      assert s[2..][1..] == s[3..];
    }
    var k1 := Keep(s[1..], p);
    assert k1 == (if p(s[1]) then [s[1]] else []) + k2 by {
      assert s[1..][1..] == s[2..];
    }
    assert Keep(s, p) == (if p(s[0]) then [s[0]] else []) + k1;
  }

  /**
   * `Keep` on a list of five of which the elements at `i < j < k` pass and
   * the other two, at `l` and `m`, do not.
   */
  lemma KeepThreeOfFive<T>(s: seq<T>, p: T -> bool, i: nat, j: nat, k: nat, l: nat, m: nat)
    requires |s| == 5 && i < j < k < 5 && l < m < 5
    requires l != i && l != j && l != k && m != i && m != j && m != k
    requires p(s[i]) && p(s[j]) && p(s[k]) && !p(s[l]) && !p(s[m])
    ensures Keep(s, p) == [s[i], s[j], s[k]]
  {
    KeepFive(s, p);
  }
}
