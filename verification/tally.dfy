/** Folding a sequence of inputs through a partial key function: the set of
    keys produced and the number of inputs that produced one. readDomains is
    this fold with "the normalised key of a line" as the key function. */
module Tally {
  import opened Wrappers

  /** Every key some element yields. */
  function Keys<T, K>(xs: seq<T>, f: T -> Option<K>): set<K> {
    set i | 0 <= i < |xs| && f(xs[i]).Some? :: f(xs[i]).value
  }

  /** The keys one element yields: one or none. */
  function KeysOf<T, K>(x: T, f: T -> Option<K>): set<K> {
    match f(x)
    case Some(k) => {k}
    case None => {}
  }

  /** 1 when the element yields a key, 0 otherwise. */
  function Hit<T, K>(x: T, f: T -> Option<K>): nat {
    if f(x).Some? then 1 else 0
  }

  /** The number of elements that yield a key, repetitions included. */
  function Count<T, K>(xs: seq<T>, f: T -> Option<K>): nat {
    if xs == [] then 0 else Count(xs[..|xs| - 1], f) + Hit(xs[|xs| - 1], f)
  }

  lemma KeysSnoc<T, K>(xs: seq<T>, x: T, f: T -> Option<K>)
    ensures Keys(xs + [x], f) == Keys(xs, f) + KeysOf(x, f)
  {
    var all := xs + [x];
    forall k | k in Keys(all, f)
      ensures k in Keys(xs, f) + KeysOf(x, f)
    {
      var i :| 0 <= i < |all| && f(all[i]).Some? && f(all[i]).value == k;
      if i < |xs| {
        assert all[i] == xs[i];
      }
    }
    forall k | k in Keys(xs, f)
      ensures k in Keys(all, f)
    {
      var i :| 0 <= i < |xs| && f(xs[i]).Some? && f(xs[i]).value == k;
      assert all[i] == xs[i];
    }
    if f(x).Some? {
      assert all[|xs|] == x;
    }
  }

  lemma CountSnoc<T, K>(xs: seq<T>, x: T, f: T -> Option<K>)
    ensures Count(xs + [x], f) == Count(xs, f) + Hit(x, f)
  {
    assert (xs + [x])[..|xs|] == xs;
  }

  lemma PrefixSnoc<T>(s: seq<T>, i: nat)
    requires i < |s|
    ensures s[..i + 1] == s[..i] + [s[i]]
  {
  }

  /** What one more element does to the key set and the count. */
  lemma Step<T, K>(xs: seq<T>, i: nat, f: T -> Option<K>)
    requires i < |xs|
    ensures Keys(xs[..i + 1], f) == Keys(xs[..i], f) + KeysOf(xs[i], f)
    ensures Count(xs[..i + 1], f) == Count(xs[..i], f) + Hit(xs[i], f)
  {
    PrefixSnoc(xs, i);
    KeysSnoc(xs[..i], xs[i], f);
    CountSnoc(xs[..i], xs[i], f);
  }

  /** Collecting into a set never yields more keys than hits, nor more hits
      than elements. */
  lemma {:induction false} KeysBound<T, K>(xs: seq<T>, f: T -> Option<K>)
    ensures |Keys(xs, f)| <= Count(xs, f) <= |xs|
  {
    if xs != [] {
      var init := xs[..|xs| - 1];
      var last := xs[|xs| - 1];
      assert xs == init + [last];
      KeysSnoc(init, last, f);
      KeysBound(init, f);
    }
  }

  /** An element already present adds no key, but counts again. */
  lemma Repeat<T, K>(xs: seq<T>, x: T, f: T -> Option<K>)
    requires x in xs
    ensures Keys(xs + [x], f) == Keys(xs, f)
    ensures Count(xs + [x], f) == Count(xs, f) + Hit(x, f)
  {
    KeysSnoc(xs, x, f);
    CountSnoc(xs, x, f);
    var i :| 0 <= i < |xs| && xs[i] == x;
  }

  /** The key set depends only on which elements occur. */
  lemma KeysOfSameElements<T, K>(xs: seq<T>, ys: seq<T>, f: T -> Option<K>)
    requires forall x :: x in xs <==> x in ys
    ensures Keys(xs, f) == Keys(ys, f)
  {
    forall k | k in Keys(xs, f)
      ensures k in Keys(ys, f)
    {
      var i :| 0 <= i < |xs| && f(xs[i]).Some? && f(xs[i]).value == k;
      assert xs[i] in ys;
      var j :| 0 <= j < |ys| && ys[j] == xs[i];
    }
    forall k | k in Keys(ys, f)
      ensures k in Keys(xs, f)
    {
      var j :| 0 <= j < |ys| && f(ys[j]).Some? && f(ys[j]).value == k;
      assert ys[j] in xs;
      var i :| 0 <= i < |xs| && xs[i] == ys[j];
    }
  }

  lemma {:induction false} CountAppend<T, K>(xs: seq<T>, ys: seq<T>, f: T -> Option<K>)
    ensures Count(xs + ys, f) == Count(xs, f) + Count(ys, f)
    decreases |ys|
  {
    if ys == [] {
      assert xs + ys == xs;
    } else {
      var init := ys[..|ys| - 1];
      assert (xs + ys)[..|xs + ys| - 1] == xs + init;
      CountAppend(xs, init, f);
    }
  }

  lemma MultisetRemoveAt<T>(s: seq<T>, j: nat)
    requires j < |s|
    ensures multiset(s[..j] + s[j + 1..]) == multiset(s) - multiset{s[j]}
  {
    assert s == s[..j] + [s[j]] + s[j + 1..];
    assert multiset(s) == multiset(s[..j]) + multiset{s[j]} + multiset(s[j + 1..]);
  }

  /** Taking out the element at j removes exactly its hit. */
  lemma CountRemoveAt<T, K>(s: seq<T>, j: nat, f: T -> Option<K>)
    requires j < |s|
    ensures Count(s, f) == Count(s[..j] + s[j + 1..], f) + Hit(s[j], f)
  {
    var before, after := s[..j], s[j + 1..];
    assert Count(s, f) == Count(before + [s[j]], f) + Count(after, f) by {
      assert s == before + [s[j]] + after;
      CountAppend(before + [s[j]], after, f);
    }
    CountSnoc(before, s[j], f);
    CountAppend(before, after, f);
  }

  /** The count does not depend on the order of the elements. */
  lemma {:induction false} CountPermutation<T, K>(xs: seq<T>, ys: seq<T>, f: T -> Option<K>)
    requires multiset(xs) == multiset(ys)
    ensures Count(xs, f) == Count(ys, f)
    decreases |xs|
  {
    if xs == [] {
      assert |multiset(ys)| == 0;
    } else {
      var init := xs[..|xs| - 1];
      var last := xs[|xs| - 1];
      assert xs == init + [last];
      assert multiset(xs) == multiset(init) + multiset{last};
      assert last in multiset(ys);
      var j :| 0 <= j < |ys| && ys[j] == last;
      MultisetRemoveAt(ys, j);
      CountRemoveAt(ys, j, f);
      CountPermutation(init, ys[..j] + ys[j + 1..], f);
    }
  }
}
