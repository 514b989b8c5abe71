/**
  Sequence operations that the dashboard's pages use through JavaScript's
  array methods: `filter` (Keep), index-based removal (RemoveAt), and the
  "order-preserving subsequence" relation used to state what filtering keeps.
 */
module Collections {

  datatype Option<+T> = None | Some(value: T)

  /** `s.filter(p)`: the elements of `s` that satisfy `p`, in their original order. */
  function Keep<T(!new)>(s: seq<T>, p: T -> bool): (r: seq<T>)
    ensures |r| <= |s|
    ensures forall x :: x in r <==> x in s && p(x)
    ensures forall x :: multiset(r)[x] == if p(x) then multiset(s)[x] else 0
  {
    if s == [] then []
    else
      assert s == [s[0]] + s[1..];
      (if p(s[0]) then [s[0]] else []) + Keep(s[1..], p)
  }

  /** `a` is obtained from `b` by deleting elements, without reordering. */
  predicate IsSubsequence<T(==)>(a: seq<T>, b: seq<T>)
    decreases |b|
  {
    if a == [] then true
    else if b == [] then false
    else if a[0] == b[0] then IsSubsequence(a[1..], b[1..])
    else IsSubsequence(a, b[1..])
  }

  /** `s.filter((_, i) => i !== index)`: drop the element at `index`, if there is one. */
  function RemoveAt<T>(s: seq<T>, index: nat): (r: seq<T>)
    ensures index < |s| ==> |r| == |s| - 1
    ensures index >= |s| ==> r == s
    ensures forall k :: 0 <= k < |r| && k < index ==> r[k] == s[k]
    ensures forall k :: index <= k < |r| ==> r[k] == s[k + 1]
  {
    if index < |s| then s[..index] + s[index + 1..] else s
  }

  lemma {:induction false} KeepIsSubsequence<T(!new)>(s: seq<T>, p: T -> bool)
    ensures IsSubsequence(Keep(s, p), s)
  {
    if s != [] {
      KeepIsSubsequence(s[1..], p);
      if p(s[0]) {
        assert Keep(s, p) == [s[0]] + Keep(s[1..], p);
        assert Keep(s, p)[1..] == Keep(s[1..], p);
      } else {
        assert Keep(s, p) == Keep(s[1..], p);
        SubsequenceOfTail(Keep(s, p), s);
      }
    }
  }

  /** Helper: a subsequence of the tail of `b` is a subsequence of `b`. */
  lemma {:induction false} SubsequenceOfTail<T>(a: seq<T>, b: seq<T>)
    requires b != [] && IsSubsequence(a, b[1..])
    ensures IsSubsequence(a, b)
    decreases |b|
  {
    if a != [] && a[0] == b[0] {
      if |b| > 1 {
        SubsequenceDropHead(a, b[1..]);
        SubsequenceOfTail(a[1..], b[1..]);
      } else {
        assert false;
      }
    }
  }

  /** Helper: dropping the first element of a subsequence keeps it a subsequence. */
  lemma {:induction false} SubsequenceDropHead<T>(a: seq<T>, b: seq<T>)
    requires a != [] && IsSubsequence(a, b)
    ensures IsSubsequence(a[1..], b[1..])
    decreases |b|
  {
    assert b != [];
    if a[0] != b[0] {
      SubsequenceDropHead(a, b[1..]);
      SubsequenceOfTail(a[1..], b[1..]);
    }
  }

  lemma {:induction false} KeepIdempotent<T(!new)>(s: seq<T>, p: T -> bool)
    ensures Keep(Keep(s, p), p) == Keep(s, p)
  {
    if s != [] {
      KeepIdempotent(s[1..], p);
      if p(s[0]) {
        var k := Keep(s, p);
        assert k == [s[0]] + Keep(s[1..], p);
        assert k[1..] == Keep(s[1..], p);
        assert Keep(k, p) == [k[0]] + Keep(k[1..], p);
      } else {
        assert Keep(s, p) == Keep(s[1..], p);
      }
    }
  }

  lemma {:induction false} KeepAll<T(!new)>(s: seq<T>, p: T -> bool)
    requires forall i :: 0 <= i < |s| ==> p(s[i])
    ensures Keep(s, p) == s
  {
    if s != [] {
      KeepAll(s[1..], p);
    }
  }

  /** Filtering by `p` and by a condition that holds exactly where `p` fails splits the sequence in two. */
  lemma KeepSplits<T(!new)>(s: seq<T>, p: T -> bool, q: T -> bool)
    requires forall i :: 0 <= i < |s| ==> q(s[i]) == !p(s[i])
    ensures |Keep(s, p)| + |Keep(s, q)| == |s|
    ensures multiset(Keep(s, p)) + multiset(Keep(s, q)) == multiset(s)
  {
    forall x
      ensures multiset(Keep(s, p))[x] + multiset(Keep(s, q))[x] == multiset(s)[x]
    {
      if x in s {
        var i :| 0 <= i < |s| && s[i] == x;
        assert q(x) == !p(x);
      }
    }
    assert multiset(Keep(s, p)) + multiset(Keep(s, q)) == multiset(s);
    assert |multiset(Keep(s, p))| == |Keep(s, p)| && |multiset(Keep(s, q))| == |Keep(s, q)|;
  }

  /** Two filters whose conditions never hold together keep at most `|s|` elements between them. */
  lemma {:induction false} KeepDisjoint<T(!new)>(s: seq<T>, p: T -> bool, q: T -> bool)
    requires forall i :: 0 <= i < |s| ==> !(p(s[i]) && q(s[i]))
    ensures |Keep(s, p)| + |Keep(s, q)| <= |s|
  {
    if s != [] {
      KeepDisjoint(s[1..], p, q);
    }
  }

  /** Removing one position loses exactly that element and keeps the order of the rest. */
  lemma RemoveAtLosesOne<T>(s: seq<T>, index: nat)
    requires index < |s|
    ensures multiset(RemoveAt(s, index)) + multiset{s[index]} == multiset(s)
    ensures IsSubsequence(RemoveAt(s, index), s)
  {
    SplitAt(s, index);
    SubsequenceSplice(s[..index], s[index], s[index + 1..]);
  }

  /** Helper: a sequence is its part before `index`, the element there, and its part after. */
  lemma SplitAt<T>(s: seq<T>, index: nat)
    requires index < |s|
    ensures s == s[..index] + [s[index]] + s[index + 1..]
    ensures RemoveAt(s, index) == s[..index] + s[index + 1..]
  {
    assert s[index..] == [s[index]] + s[index + 1..];
    assert s == s[..index] + s[index..];
  }

  /** Helper: `a + c` is a subsequence of `a + [x] + c`. */
  lemma {:induction false} SubsequenceSplice<T>(a: seq<T>, x: T, c: seq<T>)
    ensures IsSubsequence(a + c, a + [x] + c)
  {
    if a == [] {
      assert a + c == c && a + [x] + c == [x] + c;
      SubsequenceReflexive(c);
      assert ([x] + c)[1..] == c;
      SubsequenceOfTail(c, [x] + c);
    } else {
      var u, v := a + c, a + [x] + c;
      SubsequenceSplice(a[1..], x, c);
      assert u[1..] == a[1..] + c && v[1..] == a[1..] + [x] + c;
      assert u != [] && v != [] && u[0] == v[0];
    }
  }

  lemma {:induction false} SubsequenceReflexive<T>(s: seq<T>)
    ensures IsSubsequence(s, s)
  {
    if s != [] {
      SubsequenceReflexive(s[1..]);
    }
  }
}
