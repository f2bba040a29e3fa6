/**
 * `list.filter(val => val !== x)` over the static job lists of the legacy
 * tree, and the distinctness those lists are meant to keep.
 */
module Lists {
  /** `s.filter(val => val !== x)`: every occurrence of `x` removed, the rest in order. */
  function Without(s: seq<nat>, x: nat): (r: seq<nat>)
    ensures |r| <= |s|
    ensures forall y :: y in r <==> y in s && y != x
    ensures x !in s ==> r == s
  {
    if s == [] then []
    else Without(s[..|s| - 1], x) + (if s[|s| - 1] == x then [] else [s[|s| - 1]])
  }

  /** No element occurs twice. */
  predicate Distinct(s: seq<nat>)
  {
    s == [] || (s[0] !in s[1..] && Distinct(s[1..]))
  }

  /** Removing keeps a list distinct. */
  lemma {:induction false} WithoutDistinct(s: seq<nat>, x: nat)
    requires Distinct(s)
    ensures Distinct(Without(s, x))
  {
    if s != [] {
      var init := s[..|s| - 1];
      DistinctInit(s);
      WithoutDistinct(init, x);
      var last := s[|s| - 1];
      assert s[..|s| - 1] == init;
      if last != x {
        DistinctSnoc(Without(init, x), last);
        assert Without(s, x) == Without(init, x) + [last];
      } else {
        assert Without(s, x) == Without(init, x);
      }
    }
  }

  /** The list without its last element is distinct and does not hold it. */
  lemma {:induction false} DistinctInit(s: seq<nat>)
    requires Distinct(s) && s != []
    ensures Distinct(s[..|s| - 1]) && s[|s| - 1] !in s[..|s| - 1]
  {
    if |s| > 1 {
      DistinctInit(s[1..]);
      assert s[1..][..|s| - 2] == s[..|s| - 1][1..];
      assert s[..|s| - 1] == [s[0]] + s[1..][..|s| - 2];
    }
  }

  /** Appending a new element keeps a list distinct. */
  lemma {:induction false} DistinctSnoc(s: seq<nat>, x: nat)
    requires Distinct(s) && x !in s
    ensures Distinct(s + [x])
  {
    if s != [] {
      DistinctSnoc(s[1..], x);
      assert (s + [x])[1..] == s[1..] + [x];
    }
  }

  /** Both halves of a distinct list are distinct, and they share nothing. */
  lemma DistinctSplit(s: seq<nat>, k: nat)
    requires Distinct(s) && k <= |s|
    ensures Distinct(s[k..])
    ensures forall x :: x in s[k..] ==> x !in s[..k]
  {
    DistinctSuffix(s, k);
    DistinctApart(s, k);
  }

  lemma {:induction false} DistinctSuffix(s: seq<nat>, k: nat)
    requires Distinct(s) && k <= |s|
    ensures Distinct(s[k..])
  {
    if k > 0 {
      DistinctSuffix(s[1..], k - 1);
      assert s[1..][k - 1..] == s[k..];
    }
  }

  lemma DistinctApart(s: seq<nat>, k: nat)
    requires Distinct(s) && k <= |s|
    ensures forall x :: x in s[k..] ==> x !in s[..k]
  {
    DistinctIndices(s);
    forall x | x in s[k..] ensures x !in s[..k] {
      var m :| 0 <= m < |s| - k && s[k..][m] == x;
      assert s[k + m] == x;
      forall n | 0 <= n < k ensures s[..k][n] != x {
        assert s[..k][n] == s[n];
      }
    }
  }

  /** In a distinct list, different positions hold different elements. */
  lemma {:induction false} DistinctIndices(s: seq<nat>)
    requires Distinct(s)
    ensures forall i, j :: 0 <= i < j < |s| ==> s[i] != s[j]
  {
    if s != [] {
      var t := s[1..];
      DistinctIndices(t);
      forall i, j | 0 <= i < j < |s| ensures s[i] != s[j] {
        assert s[j] == t[j - 1];
        if i > 0 {
          assert s[i] == t[i - 1];
        } else {
          assert s[j] in t;
        }
      }
    }
  }

  /** A prefix of a distinct list is distinct. */
  lemma {:induction false} DistinctPrefix(s: seq<nat>, k: nat)
    requires Distinct(s) && k <= |s|
    ensures Distinct(s[..k])
  {
    if k > 0 {
      DistinctPrefix(s[1..], k - 1);
      assert s[..k][1..] == s[1..][..k - 1];
    }
  }

  /** Appending a list that shares nothing keeps a list distinct. */
  lemma {:induction false} DistinctAppend(a: seq<nat>, b: seq<nat>)
    requires Distinct(a) && Distinct(b)
    requires forall x :: x in b ==> x !in a
    ensures Distinct(a + b)
    decreases |b|
  {
    if b != [] {
      var init := b[..|b| - 1];
      DistinctInit(b);
      DistinctAppend(a, init);
      DistinctSnoc(a + init, b[|b| - 1]);
      assert a + b == (a + init) + [b[|b| - 1]];
    } else {
      assert a + b == a;
    }
  }

  /** The elements of a list, as a set. */
  function Members(s: seq<nat>): (r: set<nat>)
    ensures forall x :: x in r <==> x in s
  {
    if s == [] then {} else Members(s[..|s| - 1]) + {s[|s| - 1]}
  }

  /** Appending is associative; stated once so that long logs need not be regrouped by the solver. */
  lemma SeqAssoc<T>(a: seq<T>, b: seq<T>, c: seq<T>)
    ensures (a + b) + c == a + (b + c)
  {
  }

  function Min(a: int, b: int): int
  {
    if a < b then a else b
  }
}
