/** row_number() and first_value() over one partition, ordered by (created_at, id). */
module Ranking {

  type Id = nat
  type Time = int

  /** Strict order by creation time, ties broken by id. */
  predicate Before(at: map<Id, Time>, x: Id, y: Id)
    requires x in at && y in at
  {
    at[x] < at[y] || (at[x] == at[y] && x < y)
  }

  predicate IsFirst(s: set<Id>, at: map<Id, Time>, x: Id)
    requires s <= at.Keys
  {
    x in s && forall y | y in s :: y == x || Before(at, x, y)
  }

  predicate IsLast(s: set<Id>, at: map<Id, Time>, x: Id)
    requires s <= at.Keys
  {
    x in s && forall y | y in s :: y == x || Before(at, y, x)
  }

  lemma {:induction false} FirstExists(s: set<Id>, at: map<Id, Time>)
    requires s != {} && s <= at.Keys
    ensures exists x :: IsFirst(s, at, x)
  {
    var e :| e in s;
    if s == {e} {
      assert IsFirst(s, at, e);
    } else {
      FirstExists(s - {e}, at);
      var x :| IsFirst(s - {e}, at, x);
      assert forall y | y in s :: y == e || y in s - {e};
      if Before(at, e, x) {
        assert IsFirst(s, at, e);
      } else {
        assert IsFirst(s, at, x);
      }
    }
  }

  lemma {:induction false} LastExists(s: set<Id>, at: map<Id, Time>)
    requires s != {} && s <= at.Keys
    ensures exists x :: IsLast(s, at, x)
  {
    var e :| e in s;
    if s == {e} {
      assert IsLast(s, at, e);
    } else {
      LastExists(s - {e}, at);
      var x :| IsLast(s - {e}, at, x);
      assert forall y | y in s :: y == e || y in s - {e};
      if Before(at, x, e) {
        assert IsLast(s, at, e);
      } else {
        assert IsLast(s, at, x);
      }
    }
  }

  /** first_value(id) of the partition in ascending order. */
  function First(s: set<Id>, at: map<Id, Time>): (x: Id)
    requires s != {} && s <= at.Keys
    ensures IsFirst(s, at, x)
  {
    FirstExists(s, at);
    var x :| IsFirst(s, at, x);
    x
  }

  /** row_number() of `x` in ascending order. */
  function RowNumber(s: set<Id>, at: map<Id, Time>, x: Id): nat
    requires s <= at.Keys && x in s
  {
    |set y | y in s && Before(at, y, x)| + 1
  }

  /** row_number() of `x` in descending order. */
  function RowNumberDescending(s: set<Id>, at: map<Id, Time>, x: Id): nat
    requires s <= at.Keys && x in s
  {
    |set y | y in s && Before(at, x, y)| + 1
  }

  /** Everything but the first row of its partition has a row number above one. */
  lemma NumberedAboveOneUnlessFirst(s: set<Id>, at: map<Id, Time>, x: Id)
    requires s <= at.Keys && x in s
    ensures RowNumber(s, at, x) > 1 <==> x != First(s, at)
    ensures RowNumber(s, at, x) > 1 <==> !IsFirst(s, at, x)
  {
    var earlier := set y | y in s && Before(at, y, x);
    if x == First(s, at) {
      assert earlier == {};
    } else {
      assert First(s, at) in earlier;
    }
  }

  lemma NumberedAboveOneUnlessLast(s: set<Id>, at: map<Id, Time>, x: Id)
    requires s <= at.Keys && x in s
    ensures RowNumberDescending(s, at, x) > 1 <==> !IsLast(s, at, x)
  {
    var later := set y | y in s && Before(at, x, y);
    if IsLast(s, at, x) {
      assert later == {};
    } else {
      LastExists(s, at);
      var last :| IsLast(s, at, last);
      assert last in later;
    }
  }
}
