/** Small vocabulary shared by the models: options, and counting in event logs. */
module Foundations {

  datatype Option<+T> = None | Some(value: T)

  /** How many entries of `s` satisfy `p`. */
  function Count<T>(s: seq<T>, p: T -> bool): (n: nat)
  {
    if s == [] then 0 else Count(s[..|s| - 1], p) + (if p(s[|s| - 1]) then 1 else 0)
  }

  lemma CountAppend<T>(s: seq<T>, e: T, p: T -> bool)
    ensures Count(s + [e], p) == Count(s, p) + (if p(e) then 1 else 0)
  {
    assert (s + [e])[..|s|] == s;
  }

  lemma {:induction false} CountConcat<T>(s: seq<T>, t: seq<T>, p: T -> bool)
    ensures Count(s + t, p) == Count(s, p) + Count(t, p)
  {
    if t == [] {
      assert s + t == s;
    } else {
      var front := t[..|t| - 1];
      assert s + t == (s + front) + [t[|t| - 1]];
      CountAppend(s + front, t[|t| - 1], p);
      CountConcat(s, front, p);
    }
  }

  /** A positive count has a witness. */
  lemma {:induction false} CountWitness<T>(s: seq<T>, p: T -> bool) returns (e: T)
    requires Count(s, p) > 0
    ensures e in s && p(e)
  {
    if p(s[|s| - 1]) {
      e := s[|s| - 1];
    } else {
      e := CountWitness(s[..|s| - 1], p);
    }
  }

  /** An entry that satisfies the predicate is counted. */
  lemma {:induction false} CountMember<T>(s: seq<T>, p: T -> bool, e: T)
    requires e in s && p(e)
    ensures Count(s, p) >= 1
  {
    if s[|s| - 1] != e {
      assert e in s[..|s| - 1];
      CountMember(s[..|s| - 1], p, e);
    }
  }

  /** Two different entries that satisfy the predicate are counted twice. */
  lemma {:induction false} CountTwo<T>(s: seq<T>, p: T -> bool, d: T, e: T)
    requires d in s && e in s && d != e && p(d) && p(e)
    ensures Count(s, p) >= 2
  {
    var front, last := s[..|s| - 1], s[|s| - 1];
    if last == d {
      assert e in front;
      CountMember(front, p, e);
    } else if last == e {
      assert d in front;
      CountMember(front, p, d);
    } else {
      assert d in front && e in front;
      CountTwo(front, p, d, e);
    }
  }

  /** Entries the predicate ignores do not move the count. */
  lemma {:induction false} CountIgnores<T>(s: seq<T>, t: seq<T>, p: T -> bool)
    requires forall e | e in t :: !p(e)
    ensures Count(s + t, p) == Count(s, p)
  {
    CountConcat(s, t, p);
    if Count(t, p) > 0 {
      var e := CountWitness(t, p);
    }
  }
}
