/** Sums over sequences, their independence of order, and their split over the keys of a grouping. */
module Sums {

  function Sum<T>(s: seq<T>, f: T -> real): real {
    if s == [] then 0.0 else Sum(s[..|s| - 1], f) + f(s[|s| - 1])
  }

  lemma SumAppend<T>(s: seq<T>, e: T, f: T -> real)
    ensures Sum(s + [e], f) == Sum(s, f) + f(e)
  {
    assert (s + [e])[..|s|] == s;
  }

  lemma {:induction false} SumConcat<T>(s: seq<T>, t: seq<T>, f: T -> real)
    ensures Sum(s + t, f) == Sum(s, f) + Sum(t, f)
  {
    if t == [] {
      assert s + t == s;
    } else {
      var front := t[..|t| - 1];
      assert s + t == (s + front) + [t[|t| - 1]];
      SumAppend(s + front, t[|t| - 1], f);
      SumConcat(s, front, f);
    }
  }

  /** The sequence without its entry at `j`. */
  function Without<T>(t: seq<T>, j: nat): seq<T>
    requires j < |t|
  {
    t[..j] + t[j + 1..]
  }

  lemma SumWithout<T>(t: seq<T>, j: nat, f: T -> real)
    requires j < |t|
    ensures Sum(t, f) == Sum(Without(t, j), f) + f(t[j])
  {
    hide Sum;
    var before, after := t[..j], t[j + 1..];
    assert t == (before + [t[j]]) + after;
    SumConcat(before + [t[j]], after, f);
    SumAppend(before, t[j], f);
    SumConcat(before, after, f);
  }

  lemma EntriesWithout<T>(t: seq<T>, j: nat)
    requires j < |t|
    ensures multiset(Without(t, j)) == multiset(t) - multiset{t[j]}
  {
    var before, after := t[..j], t[j + 1..];
    assert t == before + [t[j]] + after;
    assert multiset(t) == multiset(before) + multiset{t[j]} + multiset(after);
  }

  lemma Find<T>(t: seq<T>, x: T) returns (j: nat)
    requires x in multiset(t)
    ensures j < |t| && t[j] == x
  {
    j :| 0 <= j < |t| && t[j] == x;
  }

  /** The sum sees a sequence only as a multiset. */
  lemma {:induction false} SumIgnoresOrder<T>(s: seq<T>, t: seq<T>, f: T -> real)
    requires multiset(s) == multiset(t)
    ensures Sum(s, f) == Sum(t, f)
  {
    if s == [] {
      assert |t| == |multiset(t)| == 0;
    } else {
      assert s[0] in multiset(s);
      var j := Find(t, s[0]);
      EntriesWithout(t, j);
      EntriesWithout(s, 0);
      SumWithout(t, j, f);
      SumWithout(s, 0, f);
      hide Without, Sum;
      SumIgnoresOrder(Without(s, 0), Without(t, j), f);
    }
  }

  predicate Distinct<T(==)>(s: seq<T>) {
    forall i, j :: 0 <= i < j < |s| ==> s[i] != s[j]
  }

  /** The weight of an entry, counted only under its own key. */
  function At<T, K(==)>(key: T -> K, weight: T -> real, k: K): T -> real {
    (e: T) => if key(e) == k then weight(e) else 0.0
  }

  /** The sum of the entries under each key. */
  function Groups<T, K(==)>(s: seq<T>, key: T -> K, weight: T -> real): K -> real {
    (k: K) => Sum(s, At(key, weight, k))
  }

  lemma {:induction false} OneGroupGains<T, K>(keys: seq<K>, s: seq<T>, e: T, key: T -> K, weight: T -> real)
    requires Distinct(keys)
    ensures Sum(keys, Groups(s + [e], key, weight)) ==
      Sum(keys, Groups(s, key, weight)) + (if key(e) in keys then weight(e) else 0.0)
  {
    if keys != [] {
      var front, k := keys[..|keys| - 1], keys[|keys| - 1];
      OneGroupGains(front, s, e, key, weight);
      SumAppend(s, e, At(key, weight, k));
      assert keys == front + [k];
      assert k !in front;
    }
  }

  /** Every entry falls into exactly one group, so the groups add up to the whole. */
  lemma {:induction false} GroupsAddUp<T, K>(keys: seq<K>, s: seq<T>, key: T -> K, weight: T -> real)
    requires Distinct(keys) && forall e | e in s :: key(e) in keys
    ensures Sum(keys, Groups(s, key, weight)) == Sum(s, weight)
  {
    if s == [] {
      NoEntriesNoSum(keys, key, weight);
    } else {
      var front, e := s[..|s| - 1], s[|s| - 1];
      assert s == front + [e];
      OneGroupGains(keys, front, e, key, weight);
      GroupsAddUp(keys, front, key, weight);
    }
  }

  lemma {:induction false} NoEntriesNoSum<T, K>(keys: seq<K>, key: T -> K, weight: T -> real)
    ensures Sum(keys, Groups([], key, weight)) == 0.0
  {
    if keys != [] {
      NoEntriesNoSum(keys[..|keys| - 1], key, weight);
    }
  }
}
