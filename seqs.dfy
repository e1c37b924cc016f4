/** Sequence helpers shared by the catalog views: order-preserving filters by a
    key, subsequences, and flattening of string pieces. */
module Seqs {
  import opened Wrappers

  /** `r` can be obtained from `s` by deleting elements, keeping the order. */
  predicate SubseqOf<T(==)>(r: seq<T>, s: seq<T>)
    decreases |s|
  {
    if r == [] then true
    else if s == [] then false
    else (r[0] == s[0] && SubseqOf(r[1..], s[1..])) || SubseqOf(r, s[1..])
  }

  /** The elements of `s` whose key equals `k`, in their order in `s`
      (JavaScript's `s.filter(x => key(x) === k)`). */
  function Select<T(!new), K(==)>(s: seq<T>, key: T -> K, k: K): (r: seq<T>)
    ensures |r| <= |s|
    ensures forall x :: x in r <==> x in s && key(x) == k
    ensures SubseqOf(r, s)
  {
    if s == [] then []
    else if key(s[0]) == k then [s[0]] + Select(s[1..], key, k)
    else Select(s[1..], key, k)
  }

  /** The elements of `s` whose key differs from `k`, in their order in `s`
      (JavaScript's `s.filter(x => key(x) !== k)`). */
  function Drop<T(!new), K(==)>(s: seq<T>, key: T -> K, k: K): (r: seq<T>)
    ensures |r| <= |s|
    ensures forall x :: x in r <==> x in s && key(x) != k
    ensures SubseqOf(r, s)
  {
    if s == [] then []
    else if key(s[0]) != k then [s[0]] + Drop(s[1..], key, k)
    else Drop(s[1..], key, k)
  }

  /** The first element of `s` whose key equals `k` (JavaScript's
      `s.find(x => key(x) === k)`), `None` when there is none. */
  function Find<T, K(==)>(s: seq<T>, key: T -> K, k: K): (r: Option<T>)
    ensures r.None? <==> forall i :: 0 <= i < |s| ==> key(s[i]) != k
    ensures r.Some? ==> exists i :: 0 <= i < |s| && s[i] == r.value && key(r.value) == k
                          && forall j :: 0 <= j < i ==> key(s[j]) != k
  {
    if s == [] then None
    else if key(s[0]) == k then Some(s[0])
    else
      var r := Find(s[1..], key, k);
      assert r.Some? ==> exists i :: 0 <= i < |s| && s[i] == r.value && key(r.value) == k
                          && forall j :: 0 <= j < i ==> key(s[j]) != k by {
        if r.Some? {
          var i :| 0 <= i < |s[1..]| && s[1..][i] == r.value && key(r.value) == k
                   && forall j :: 0 <= j < i ==> key(s[1..][j]) != k;
          assert forall j :: 0 <= j < i + 1 ==> key(s[j]) != k by {
            forall j | 0 <= j < i + 1 ensures key(s[j]) != k {
              if j > 0 { assert s[j] == s[1..][j - 1]; }
            }
          }
        }
      }
      r
  }

  /** Filtering distributes over concatenation: together with its effect on a
      single element this pins `Select` down as the order-keeping filter. */
  lemma {:induction false} SelectAppend<T(!new), K>(a: seq<T>, b: seq<T>, key: T -> K, k: K)
    ensures Select(a + b, key, k) == Select(a, key, k) + Select(b, key, k)
  {
    if a == [] {
      assert a + b == b;
    } else {
      assert (a + b)[0] == a[0];
      assert (a + b)[1..] == a[1..] + b;
      SelectAppend(a[1..], b, key, k);
    }
  }

  /** Every element lands in exactly one of the two halves. */
  lemma {:induction false} SelectDropSize<T(!new), K>(s: seq<T>, key: T -> K, k: K)
    ensures |Select(s, key, k)| + |Drop(s, key, k)| == |s|
  {
    if s != [] {
      SelectDropSize(s[1..], key, k);
    }
  }

  /** Removing the elements keyed `k'` does not disturb any other key's selection. */
  lemma {:induction false} SelectOfDrop<T(!new), K>(s: seq<T>, key: T -> K, k: K, k': K)
    requires k != k'
    ensures Select(Drop(s, key, k'), key, k) == Select(s, key, k)
  {
    if s != [] {
      SelectOfDrop(s[1..], key, k, k');
    }
  }

  /** All keys of `s` are pairwise different. */
  predicate DistinctKeys<T, K(==)>(s: seq<T>, key: T -> K) {
    forall i, j :: 0 <= i < j < |s| ==> key(s[i]) != key(s[j])
  }

  /** In a sequence with distinct keys, dropping the key of a present element
      removes exactly that one element. */
  lemma {:induction false} DropOnePresent<T(!new), K>(s: seq<T>, key: T -> K, x: T)
    requires DistinctKeys(s, key) && x in s
    ensures |Drop(s, key, key(x))| == |s| - 1
  {
    if s[0] == x {
      assert forall y :: y in s[1..] ==> key(y) != key(x) by {
        forall y | y in s[1..] ensures key(y) != key(x) {
          var j :| 0 <= j < |s[1..]| && s[1..][j] == y;
          assert s[j + 1] == y;
        }
      }
      DropNoneMatching(s[1..], key, key(x));
    } else {
      assert DistinctKeys(s[1..], key) by {
        forall i, j | 0 <= i < j < |s[1..]| ensures key(s[1..][i]) != key(s[1..][j]) {
          assert s[1..][i] == s[i + 1] && s[1..][j] == s[j + 1];
        }
      }
      DropOnePresent(s[1..], key, x);
    }
  }

  /** Dropping a key that nothing carries changes nothing. */
  lemma {:induction false} DropNoneMatching<T(!new), K>(s: seq<T>, key: T -> K, k: K)
    requires forall y :: y in s ==> key(y) != k
    ensures Drop(s, key, k) == s
  {
    if s != [] {
      DropNoneMatching(s[1..], key, k);
    }
  }

  /** A filter that every element passes keeps the whole sequence. */
  lemma {:induction false} SelectAllMatching<T(!new), K>(s: seq<T>, key: T -> K, k: K)
    requires forall x :: x in s ==> key(x) == k
    ensures Select(s, key, k) == s
  {
    if s != [] {
      SelectAllMatching(s[1..], key, k);
    }
  }

  /** A filter that no element passes keeps nothing. */
  lemma SelectNoneMatching<T(!new), K>(s: seq<T>, key: T -> K, k: K)
    requires forall x :: x in s ==> key(x) != k
    ensures Select(s, key, k) == []
  {
  }

  /** Concatenation of pieces, built from the back so that appending one more
      piece at the end is one step. */
  function Concat<T>(pieces: seq<seq<T>>): (r: seq<T>)
  {
    if pieces == [] then [] else Concat(pieces[..|pieces| - 1]) + pieces[|pieces| - 1]
  }

  lemma {:induction false} ConcatAppend<T>(a: seq<seq<T>>, b: seq<seq<T>>)
    ensures Concat(a + b) == Concat(a) + Concat(b)
    decreases |b|
  {
    if b == [] {
      assert a + b == a;
    } else {
      var front, last := b[..|b| - 1], b[|b| - 1];
      assert a + b == (a + front) + [last];
      assert Concat(a + b) == Concat(a + front) + last;
      ConcatAppend(a, front);
      assert Concat(b) == Concat(front) + last;
    }
  }
}
