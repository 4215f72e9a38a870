/**
 * The upgrade to schema revision 0033: keep the newest open spend reservation per (run, stage),
 * release the rest, then build the partial unique index over what is still open.
 */
module ReservationCleanup {
  import opened Foundations
  import opened Ranking

  datatype Status = Reserved | Committed | Released

  datatype Reservation = Reservation(
    run: Option<Id>,
    stage: Option<string>,
    status: Status,
    createdAt: Time,
    updatedAt: Time,
    version: int,
    estimate: real)

  /** The rows the ranking and the index look at. */
  predicate Open(r: Reservation) {
    r.status == Reserved && r.run.Some? && r.stage.Some?
  }

  /** PARTITION BY pipeline_run_id, stage, among the open rows. */
  function OpenGroup(rows: map<Id, Reservation>, x: Id): set<Id>
    requires x in rows
  {
    set y | y in rows && Open(rows[y]) && rows[y].run == rows[x].run && rows[y].stage == rows[x].stage
  }

  function CreatedAt(rows: map<Id, Reservation>): map<Id, Time> {
    map x | x in rows :: rows[x].createdAt
  }

  /** The newest open reservation of its run and stage. */
  predicate Newest(rows: map<Id, Reservation>, x: Id)
    requires x in rows
  {
    IsLast(OpenGroup(rows, x), CreatedAt(rows), x)
  }

  /** The rows with rn > 1. */
  function Duplicates(rows: map<Id, Reservation>): set<Id> {
    set x | x in rows && Open(rows[x]) && RowNumberDescending(OpenGroup(rows, x), CreatedAt(rows), x) > 1
  }

  lemma DuplicatesAreTheOthers(rows: map<Id, Reservation>)
    ensures Duplicates(rows) <= rows.Keys
    ensures forall x | x in rows :: x in Duplicates(rows) <==> Open(rows[x]) && !Newest(rows, x)
  {
    forall x | x in rows
      ensures x in Duplicates(rows) <==> Open(rows[x]) && !Newest(rows, x)
    {
      if Open(rows[x]) {
        NumberedAboveOneUnlessLast(OpenGroup(rows, x), CreatedAt(rows), x);
      }
    }
  }

  /** set_version_and_updated_at(), which runs BEFORE UPDATE on every row. */
  function VersionTrigger(was: Reservation, row: Reservation, now: Time): Reservation {
    row.(version := was.version + 1, updatedAt := now)
  }

  /** Whatever the statement sets them to, the trigger has the last word on version and time of change,
      and on nothing else. */
  lemma TheTriggerDecides(was: Reservation, row: Reservation, version: int, at: Time, now: Time)
    ensures var stored := VersionTrigger(was, row.(version := version, updatedAt := at), now);
      && stored == VersionTrigger(was, row, now)
      && stored.version == was.version + 1 && stored.updatedAt == now
      && stored.(version := row.version, updatedAt := row.updatedAt) == row
  {
  }

  /** The SET list of the statement, and then the trigger. */
  function Updated(r: Reservation, now: Time): Reservation {
    VersionTrigger(r, r.(status := Released, updatedAt := now, version := r.version + 1), now)
  }

  /** What the upgrade makes of one row. */
  function Settled(rows: map<Id, Reservation>, x: Id, now: Time): Reservation
    requires x in rows
  {
    if Open(rows[x]) && !Newest(rows, x)
    then rows[x].(status := Released, updatedAt := now, version := rows[x].version + 1)
    else rows[x]
  }

  /** What the partial unique index demands. */
  predicate OneOpenPerStage(rows: map<Id, Reservation>) {
    forall x, y | x in rows && y in OpenGroup(rows, x) && Open(rows[x]) :: x == y
  }

  predicate SettledFrom(was: map<Id, Reservation>, rows: map<Id, Reservation>, now: Time) {
    rows.Keys == was.Keys && forall x | x in rows :: rows[x] == Settled(was, x, now)
  }

  /** One pass of statement and trigger over a duplicate settles it; the other rows are settled already. */
  lemma OneUpdateSettles(rows: map<Id, Reservation>, now: Time)
    ensures Duplicates(rows) <= rows.Keys
    ensures forall x | x in rows ::
      Settled(rows, x, now) == (if x in Duplicates(rows) then Updated(rows[x], now) else rows[x])
  {
    hide Duplicates, Newest;
    DuplicatesAreTheOthers(rows);
  }

  class SpendReservations {
    var rows: map<Id, Reservation>
    var indexed: bool

    constructor ()
      ensures rows == map[] && !indexed
    {
      rows, indexed := map[], false;
    }

    /** Both the statement and the trigger write the version; the row order does not matter. */
    method ReleaseDuplicates(now: Time)
      modifies this`rows
      ensures SettledFrom(old(rows), rows, now)
    {
      hide Settled, Duplicates;
      ghost var was := rows;
      var ranked: set<Id> := Duplicates(rows);
      OneUpdateSettles(was, now);
      while ranked != {}
        invariant ranked <= Duplicates(was)
        invariant rows.Keys == was.Keys
        invariant forall x | x in was :: rows[x] == if x in ranked then was[x] else Settled(was, x, now)
        decreases |ranked|
      {
        var x :| x in ranked;
        rows := rows[x := Updated(rows[x], now)];
        ranked := ranked - {x};
      }
    }

    /** CREATE UNIQUE INDEX fails on a duplicate among the rows it covers. */
    method CreateIndex() returns (ok: bool)
      modifies this`indexed
      ensures ok <==> OneOpenPerStage(rows)
      ensures indexed == (old(indexed) || ok)
    {
      ok := OneOpenPerStage(rows);
      indexed := indexed || ok;
    }

    /** The migration always gets its index, whatever the rows were. */
    method Upgrade(now: Time) returns (ok: bool)
      modifies this
      ensures ok && indexed && OneOpenPerStage(rows)
      ensures SettledFrom(old(rows), rows, now)
    {
      ghost var was := rows;
      ReleaseDuplicates(now);
      OnlyTheNewestStayOpen(was, rows, now);
      ok := CreateIndex();
    }
  }

  /** What is open afterwards is exactly what was the newest of its group. */
  lemma OnlyTheNewestStayOpen(was: map<Id, Reservation>, rows: map<Id, Reservation>, now: Time)
    requires SettledFrom(was, rows, now)
    ensures forall x | x in rows :: Open(rows[x]) <==> Open(was[x]) && Newest(was, x)
    ensures OneOpenPerStage(rows)
  {
    forall x, y | x in rows && y in OpenGroup(rows, x) && Open(rows[x])
      ensures x == y
    {
      assert OpenGroup(was, x) == OpenGroup(was, y);
      assert x in OpenGroup(was, x) && y in OpenGroup(was, x);
    }
  }

  /** Every group that had an open reservation keeps exactly one, its newest. */
  lemma EveryOpenGroupKeepsItsNewest(was: map<Id, Reservation>, rows: map<Id, Reservation>, now: Time, x: Id)
    requires SettledFrom(was, rows, now) && x in was && Open(was[x])
    ensures exists y | y in OpenGroup(was, x) ::
      Newest(was, y) && OpenGroup(rows, y) == {y} && rows[y] == was[y]
  {
    LastExists(OpenGroup(was, x), CreatedAt(was));
    var y :| IsLast(OpenGroup(was, x), CreatedAt(was), y);
    assert OpenGroup(was, y) == OpenGroup(was, x);
    OnlyTheNewestStayOpen(was, rows, now);
    assert y in OpenGroup(rows, y);
  }

  /** Where the index already holds, running the release again changes nothing. */
  lemma ReleaseIsIdempotent(rows: map<Id, Reservation>, x: Id, now: Time)
    requires OneOpenPerStage(rows) && x in rows
    ensures Settled(rows, x, now) == rows[x]
  {
  }

  /** An open reservation of the same run and stage that is newer, by (created_at, id). */
  predicate HasNewer(rows: map<Id, Reservation>, x: Id)
    requires x in rows
  {
    exists y | y in rows ::
      && rows[y].status == Reserved && rows[y].run == rows[x].run && rows[y].stage == rows[x].stage
      && (rows[x].createdAt < rows[y].createdAt || (rows[x].createdAt == rows[y].createdAt && x < y))
  }

  /** What happens to a row: a reservation with a run and a stage that has a newer one is released, its version
      one higher and its time of change now; every other row, and every other field, stays as it was. */
  lemma ReleasedExactly(was: map<Id, Reservation>, rows: map<Id, Reservation>, now: Time, x: Id)
    requires SettledFrom(was, rows, now) && x in was
    ensures was[x].status == Reserved && was[x].run != None && was[x].stage != None && HasNewer(was, x) ==>
      && rows[x].status == Released && rows[x].version == was[x].version + 1 && rows[x].updatedAt == now
      && rows[x].run == was[x].run && rows[x].stage == was[x].stage
      && rows[x].createdAt == was[x].createdAt && rows[x].estimate == was[x].estimate
    ensures !(was[x].status == Reserved && was[x].run != None && was[x].stage != None && HasNewer(was, x)) ==>
      rows[x] == was[x]
  {
    if Open(was[x]) {
      if Newest(was, x) {
        assert forall y | y in was && Open(was[y]) && was[y].run == was[x].run && was[y].stage == was[x].stage ::
          y == x || Before(CreatedAt(was), y, x);
      } else {
        var y :| y in OpenGroup(was, x) && y != x && !Before(CreatedAt(was), y, x);
        assert Before(CreatedAt(was), x, y);
      }
    }
  }
}
