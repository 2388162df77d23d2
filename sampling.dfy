/** `random.sample` and `random.shuffle`, modelled as free choices: the model
    promises only what every run of the random number generator promises. */
module Sampling {
  import opened Results
  import opened PyOps

  /** `r` is what `random.sample(pool, k)` can return: `k` elements taken from
      `k` distinct positions of `pool`, in any order. */
  predicate IsSample<T(==)>(r: seq<T>, pool: seq<T>, k: int) {
    k >= 0 && |r| == k && multiset(r) <= multiset(pool)
  }

  /** `r` is what `random.shuffle` can leave in a list that held `s`. */
  predicate IsShuffle<T(==)>(r: seq<T>, s: seq<T>) {
    |r| == |s| && multiset(r) == multiset(s)
  }

  /** The first `k` elements of the pool are one possible sample. */
  lemma PrefixIsSample<T>(pool: seq<T>, k: int)
    requires 0 <= k <= |pool|
    ensures IsSample(pool[..k], pool, k)
  {
    assert pool == pool[..k] + pool[k..];
    assert multiset(pool) == multiset(pool[..k]) + multiset(pool[k..]);
  }

  /** `random.sample(pool, k)`: raises ValueError unless `0 <= k <= len(pool)`. */
  method Sample(pool: seq<int>, k: int) returns (r: Result<seq<int>>)
    ensures r.Ok? <==> 0 <= k <= |pool|
    ensures r.Err? ==> r.error == ValueError
    ensures r.Ok? ==> IsSample(r.value, pool, k)
  {
    if 0 <= k <= |pool| {
      PrefixIsSample(pool, k);
      var s :| IsSample(s, pool, k);
      r := Ok(s);
    } else {
      r := Err(ValueError);
    }
  }

  /** `random.shuffle(s)`: some permutation of `s`. */
  method Shuffle<T(==)>(s: seq<T>) returns (r: seq<T>)
    ensures IsShuffle(r, s)
  {
    assert IsShuffle(s, s);
    r :| IsShuffle(r, s);
  }

  lemma {:induction false} CountAtMostOne<T>(s: seq<T>, x: T)
    requires Distinct(s)
    ensures multiset(s)[x] <= 1
  {
    if s != [] {
      assert s == [s[0]] + s[1..];
      assert Distinct(s[1..]) by {
        forall i, j | 0 <= i < j < |s[1..]| ensures s[1..][i] != s[1..][j] {
          assert s[1..][i] == s[i + 1] && s[1..][j] == s[j + 1];
        }
      }
      CountAtMostOne(s[1..], x);
      if s[0] == x {
        assert x !in s[1..];
      }
    }
  }

  lemma CountAtLeastTwo<T>(s: seq<T>, i: int, j: int)
    requires 0 <= i < j < |s| && s[i] == s[j]
    ensures multiset(s)[s[i]] >= 2
  {
    assert s == s[..j] + s[j..];
    assert s[i] in s[..j];
    assert s[j..][0] == s[j];
    assert s[j] in s[j..];
  }

  /** A sample of a pool without repetitions has no repetitions, and each of
      its elements comes from the pool. */
  lemma SampleOfDistinct<T>(r: seq<T>, pool: seq<T>, k: int)
    requires IsSample(r, pool, k) && Distinct(pool)
    ensures Distinct(r)
    ensures forall i :: 0 <= i < |r| ==> r[i] in pool
  {
    forall i, j | 0 <= i < j < |r| ensures r[i] != r[j] {
      if r[i] == r[j] {
        CountAtLeastTwo(r, i, j);
        CountAtMostOne(pool, r[i]);
        assert false;
      }
    }
    forall i | 0 <= i < |r| ensures r[i] in pool {
      assert r[i] in multiset(r);
    }
  }
}
