/** Queue-depth back-pressure: one state row per workspace, an event on each real
    transition, and a sweep over the workspaces that have pending work. */
module Backpressure {
  import opened Foundations

  type WorkspaceId = nat
  type Time = int

  datatype State = Normal | Pressured | Throttled

  datatype Kind = Entered | Cleared

  datatype Row = Row(state: State, pendingDepth: nat, enteredAt: Option<Time>, updatedAt: Time)

  datatype Event = Event(
    workspace: WorkspaceId, kind: Kind, state: State, previous: State,
    pendingDepth: nat, soft: int, hard: int, at: Time)

  datatype Snapshot = Snapshot(
    workspace: WorkspaceId, state: State, pendingDepth: nat, soft: int, hard: int, changed: bool)

  /** What an evaluation observes: the pending depth and the workspace's limits. */
  datatype Observation = Observation(workspace: WorkspaceId, depth: nat, soft: int, hard: int, now: Time)

  datatype Store = Store(rows: map<WorkspaceId, Row>, events: seq<Event>)

  function ClassifyDepth(depth: int, soft: int, hard: int): State {
    if depth >= hard then Throttled else if depth >= soft then Pressured else Normal
  }

  function StateOf(rows: map<WorkspaceId, Row>, ws: WorkspaceId): State {
    if ws in rows then rows[ws].state else Normal
  }

  function EnteredAtOf(rows: map<WorkspaceId, Row>, ws: WorkspaceId): Option<Time> {
    if ws in rows then rows[ws].enteredAt else None
  }

  function Evaluated(store: Store, o: Observation): Store {
    var state, previous := ClassifyDepth(o.depth, o.soft, o.hard), StateOf(store.rows, o.workspace);
    var enteredAt :=
      if o.workspace in store.rows && state == previous then store.rows[o.workspace].enteredAt
      else if state != Normal then Some(o.now) else None;
    Store(
      store.rows[o.workspace := Row(state, o.depth, enteredAt, o.now)],
      if state == previous then store.events
      else store.events + [Event(o.workspace, if state == Normal then Cleared else Entered, state, previous,
                                 o.depth, o.soft, o.hard, o.now)])
  }

  /** What an evaluation reports: `changed` exactly when it leaves the stored state. */
  function SnapshotOf(store: Store, o: Observation): Snapshot {
    var state := ClassifyDepth(o.depth, o.soft, o.hard);
    Snapshot(o.workspace, state, o.depth, o.soft, o.hard, state != StateOf(store.rows, o.workspace))
  }

  function EvaluatedAll(store: Store, os: seq<Observation>): Store {
    if os == [] then store else Evaluated(EvaluatedAll(store, os[..|os| - 1]), os[|os| - 1])
  }

  /** Halve the tick allowance when THROTTLED, but never below one. */
  function EffectiveTickLimit(rows: map<WorkspaceId, Row>, ws: WorkspaceId, configured: int): int {
    if ws in rows && rows[ws].state == Throttled then
      if configured / 2 < 1 then 1 else configured / 2
    else configured
  }

  class BackpressureTables {
    var rows: map<WorkspaceId, Row>
    var events: seq<Event>

    constructor ()
      ensures Value() == Store(map[], [])
    {
      rows := map[];
      events := [];
    }

    function Value(): Store
      reads this
    {
      Store(rows, events)
    }

    method EvaluateWorkspace(o: Observation) returns (snapshot: Snapshot)
      modifies this
      ensures Value() == Evaluated(old(Value()), o)
      ensures snapshot == SnapshotOf(old(Value()), o)
      ensures snapshot.state == rows[o.workspace].state && (snapshot.changed <==> events != old(events))
    {
      var newState := ClassifyDepth(o.depth, o.soft, o.hard);
      var previous := if o.workspace in rows then rows[o.workspace].state else Normal;
      var changed := previous != newState;
      if o.workspace !in rows {
        rows := rows[o.workspace := Row(newState, o.depth, if newState != Normal then Some(o.now) else None, o.now)];
      } else {
        var row := rows[o.workspace].(state := newState, pendingDepth := o.depth, updatedAt := o.now);
        if changed {
          row := row.(enteredAt := if newState != Normal then Some(o.now) else None);
        }
        rows := rows[o.workspace := row];
      }
      if changed {
        var kind := if newState == Normal then Cleared else Entered;
        events := events + [Event(o.workspace, kind, newState, previous, o.depth, o.soft, o.hard, o.now)];
      }
      snapshot := Snapshot(o.workspace, newState, o.depth, o.soft, o.hard, changed);
    }

    /** One sweep evaluates each selected workspace in turn. */
    method EvaluateAllActive(os: seq<Observation>) returns (snapshots: seq<Snapshot>)
      modifies this
      ensures Value() == EvaluatedAll(old(Value()), os)
      ensures |snapshots| == |os|
      ensures forall i | 0 <= i < |os| :: snapshots[i] == SnapshotOf(EvaluatedAll(old(Value()), os[..i]), os[i])
    {
      hide Evaluated, EvaluatedAll, SnapshotOf;
      snapshots := [];
      ghost var start := Value();
      NothingEvaluated(start);
      for i := 0 to |os|
        invariant Value() == EvaluatedAll(start, os[..i])
        invariant |snapshots| == i
        invariant forall j | 0 <= j < i :: snapshots[j] == SnapshotOf(EvaluatedAll(start, os[..j]), os[j])
      {
        OneMoreEvaluated(start, os[..i], os[i]);
        assert os[..i + 1] == os[..i] + [os[i]];
        var snapshot := EvaluateWorkspace(os[i]);
        snapshots := snapshots + [snapshot];
      }
      assert os[..|os|] == os;
    }
  }

  lemma NothingEvaluated(store: Store)
    ensures EvaluatedAll(store, []) == store
  {
  }

  lemma OneMoreEvaluated(store: Store, os: seq<Observation>, o: Observation)
    ensures EvaluatedAll(store, os + [o]) == Evaluated(EvaluatedAll(store, os), o)
  {
    assert (os + [o])[..|os|] == os;
  }

  // ---------------------------------------------------------------------------
  // The event log of one workspace

  function EventsOf(events: seq<Event>, ws: WorkspaceId): seq<Event> {
    if events == [] then []
    else EventsOf(events[..|events| - 1], ws) + (if events[|events| - 1].workspace == ws then [events[|events| - 1]] else [])
  }

  /** A real transition out of `from`, classified by its own depth, that clears exactly when
      it returns to NORMAL. */
  predicate Continues(from: State, e: Event) {
    && e.previous == from
    && e.state != e.previous
    && (e.kind == Cleared <==> e.state == Normal)
    && e.state == ClassifyDepth(e.pendingDepth, e.soft, e.hard)
  }

  /** Every event continues where the one before it left, the first from NORMAL. */
  predicate Chain(events: seq<Event>) {
    events == [] || (Chain(events[..|events| - 1]) && Continues(Replayed(events[..|events| - 1]), events[|events| - 1]))
  }

  /** Where replaying a workspace's events ends. */
  function Replayed(events: seq<Event>): State {
    if events == [] then Normal else events[|events| - 1].state
  }

  function ReplayedEnteredAt(events: seq<Event>): Option<Time> {
    if Replayed(events) == Normal then None else Some(events[|events| - 1].at)
  }

  /** Row, entry time and events of a workspace tell the same story. */
  predicate Agrees(store: Store, ws: WorkspaceId) {
    var own := EventsOf(store.events, ws);
    && Chain(own)
    && StateOf(store.rows, ws) == Replayed(own)
    && EnteredAtOf(store.rows, ws) == ReplayedEnteredAt(own)
  }

  lemma EventsOfAppend(events: seq<Event>, e: Event, ws: WorkspaceId)
    ensures EventsOf(events + [e], ws) == EventsOf(events, ws) + (if e.workspace == ws then [e] else [])
  {
  }

  lemma ChainAppend(events: seq<Event>, e: Event)
    requires Chain(events) && Continues(Replayed(events), e)
    ensures Chain(events + [e])
  {
  }

  lemma AgreesStep(store: Store, o: Observation, ws: WorkspaceId)
    requires Agrees(store, ws)
    ensures Agrees(Evaluated(store, o), ws)
  {
    var state, previous := ClassifyDepth(o.depth, o.soft, o.hard), StateOf(store.rows, o.workspace);
    if state != previous {
      var e := Event(o.workspace, if state == Normal then Cleared else Entered, state, previous, o.depth, o.soft, o.hard, o.now);
      EventsOfAppend(store.events, e, ws);
      if o.workspace == ws {
        ChainAppend(EventsOf(store.events, ws), e);
      } else {
        assert EventsOf(store.events + [e], ws) == EventsOf(store.events, ws);
      }
    }
  }

  /** Over every run of evaluations a workspace's events form a chain from NORMAL, replaying
      them gives its stored state, and its entry time is the time of its last event, absent
      while NORMAL. */
  lemma {:induction false} EventsAgreeWithRows(os: seq<Observation>, ws: WorkspaceId)
    ensures Agrees(EvaluatedAll(Store(map[], []), os), ws)
  {
    if os != [] {
      EventsAgreeWithRows(os[..|os| - 1], ws);
      AgreesStep(EvaluatedAll(Store(map[], []), os[..|os| - 1]), os[|os| - 1], ws);
    }
  }

  // ---------------------------------------------------------------------------
  // Sweeps

  /** The sweep's query: each workspace at most once, only workspaces with pending work, and
      as many of them as the batch allows. */
  predicate Selected(os: seq<Observation>, pending: map<WorkspaceId, nat>, batchSize: nat) {
    && (forall i, j | 0 <= i < j < |os| :: os[i].workspace != os[j].workspace)
    && (forall i | 0 <= i < |os| :: os[i].workspace in Active(pending) && os[i].depth == pending[os[i].workspace])
    && |os| == (if batchSize < |Active(pending)| then batchSize else |Active(pending)|)
  }

  function Active(pending: map<WorkspaceId, nat>): set<WorkspaceId> {
    set ws | ws in pending && pending[ws] > 0
  }

  function Swept(os: seq<Observation>): set<WorkspaceId> {
    set i | 0 <= i < |os| :: os[i].workspace
  }

  /** The row of `ws`, or its absence, is the same. */
  predicate SameRow(before: map<WorkspaceId, Row>, after: map<WorkspaceId, Row>, ws: WorkspaceId) {
    (ws in after <==> ws in before) && (ws in before ==> after[ws] == before[ws])
  }

  lemma {:induction false} SweepEffect(store: Store, os: seq<Observation>, ws: WorkspaceId)
    requires forall i, j | 0 <= i < j < |os| :: os[i].workspace != os[j].workspace
    ensures var rows := EvaluatedAll(store, os).rows;
      && (forall i | 0 <= i < |os| && os[i].workspace == ws ::
            ws in rows && rows[ws].state == ClassifyDepth(os[i].depth, os[i].soft, os[i].hard)
            && rows[ws].pendingDepth == os[i].depth)
      && ((forall i | 0 <= i < |os| :: os[i].workspace != ws) ==>
            SameRow(store.rows, rows, ws))
  {
    if os != [] {
      SweepEffect(store, os[..|os| - 1], ws);
    }
  }

  /** Distinct workspaces, as many as there are active ones, are the active ones. */
  lemma {:induction false} SweptSize(os: seq<Observation>)
    requires forall i, j | 0 <= i < j < |os| :: os[i].workspace != os[j].workspace
    ensures |Swept(os)| == |os|
  {
    if os == [] {
      assert Swept(os) == {};
    } else {
      var front, last := os[..|os| - 1], os[|os| - 1];
      SweptSize(front);
      forall ws
        ensures ws in Swept(os) <==> ws in Swept(front) + {last.workspace}
      {
        if ws in Swept(front) {
          var i :| 0 <= i < |front| && front[i].workspace == ws;
          assert os[i].workspace == ws;
        }
        if ws in Swept(os) && ws != last.workspace {
          var i :| 0 <= i < |os| && os[i].workspace == ws;
          assert front[i].workspace == ws;
        }
      }
      assert Swept(os) == Swept(front) + {last.workspace};
      assert last.workspace !in Swept(front);
    }
  }

  lemma {:induction false} FullSubset<T>(x: set<T>, y: set<T>)
    requires x <= y && |x| == |y|
    ensures x == y
  {
    assert y == x + (y - x);
    assert |y| == |x| + |y - x|;
  }

  lemma CoveringSweepReachesAll(os: seq<Observation>, pending: map<WorkspaceId, nat>, batchSize: nat)
    requires Selected(os, pending, batchSize) && batchSize >= |Active(pending)|
    ensures Swept(os) == Active(pending)
  {
    SweptSize(os);
    FullSubset(Swept(os), Active(pending));
  }

  /** After a sweep whose batch covers them, every workspace with pending work stores the
      class of its own depth and has its tick allowance halved exactly when that depth is at
      the hard limit; no other workspace's row is touched. */
  lemma CoveringSweep(store: Store, os: seq<Observation>, pending: map<WorkspaceId, nat>, batchSize: nat, configured: int)
    requires Selected(os, pending, batchSize) && batchSize >= |Active(pending)|
    ensures var rows := EvaluatedAll(store, os).rows;
      && (forall ws | ws in Active(pending) :: exists i ::
            && 0 <= i < |os| && os[i].workspace == ws && os[i].depth == pending[ws]
            && StateOf(rows, ws) == ClassifyDepth(pending[ws], os[i].soft, os[i].hard)
            && EffectiveTickLimit(rows, ws, configured) ==
                 (if pending[ws] >= os[i].hard then AtLeastOne(configured / 2) else configured))
      && (forall ws | ws !in Active(pending) ::
            SameRow(store.rows, rows, ws) && StateOf(rows, ws) == StateOf(store.rows, ws))
  {
    CoveringSweepReachesAll(os, pending, batchSize);
    var rows := EvaluatedAll(store, os).rows;
    forall ws
      ensures ws in Active(pending) ==> exists i ::
        && 0 <= i < |os| && os[i].workspace == ws && os[i].depth == pending[ws]
        && StateOf(rows, ws) == ClassifyDepth(pending[ws], os[i].soft, os[i].hard)
        && EffectiveTickLimit(rows, ws, configured) ==
             (if pending[ws] >= os[i].hard then AtLeastOne(configured / 2) else configured)
      ensures ws !in Active(pending) ==>
        SameRow(store.rows, rows, ws) && StateOf(rows, ws) == StateOf(store.rows, ws)
    {
      SweepEffect(store, os, ws);
      if ws in Active(pending) {
        assert ws in Swept(os);
        var i :| 0 <= i < |os| && os[i].workspace == ws;
      } else {
        assert ws !in Swept(os);
      }
    }
  }

  function AtLeastOne(n: int): (m: int)
    ensures m >= 1 && m >= n
  {
    if n < 1 then 1 else n
  }

  lemma TickLimitInRange(rows: map<WorkspaceId, Row>, ws: WorkspaceId, configured: int)
    requires configured >= 1
    ensures 1 <= EffectiveTickLimit(rows, ws, configured) <= configured
    ensures EffectiveTickLimit(rows, ws, configured) < configured ==> StateOf(rows, ws) == Throttled
  {
  }

  // ---------------------------------------------------------------------------
  // Workspaces the sweep does not see

  /** A run of sweeps, each with its own pending counts, none of which lists `ws`. */
  predicate NeverPending(sweeps: seq<seq<Observation>>, ws: WorkspaceId) {
    forall k, i | 0 <= k < |sweeps| && 0 <= i < |sweeps[k]| :: sweeps[k][i].workspace != ws
  }

  function AfterSweeps(store: Store, sweeps: seq<seq<Observation>>): Store {
    if sweeps == [] then store
    else EvaluatedAll(AfterSweeps(store, sweeps[..|sweeps| - 1]), sweeps[|sweeps| - 1])
  }

  /** All the observations of a run of sweeps, in order. */
  function Observed(sweeps: seq<seq<Observation>>): seq<Observation> {
    if sweeps == [] then [] else Observed(sweeps[..|sweeps| - 1]) + sweeps[|sweeps| - 1]
  }

  /** A run of sweeps is the run of its evaluations. */
  lemma {:induction false} SweepsAreTheirEvaluations(store: Store, sweeps: seq<seq<Observation>>)
    ensures AfterSweeps(store, sweeps) == EvaluatedAll(store, Observed(sweeps))
  {
    if sweeps != [] {
      SweepsAreTheirEvaluations(store, sweeps[..|sweeps| - 1]);
      EvaluatedConcat(store, Observed(sweeps[..|sweeps| - 1]), sweeps[|sweeps| - 1]);
    }
  }

  lemma {:induction false} EvaluatedConcat(store: Store, os: seq<Observation>, more: seq<Observation>)
    ensures EvaluatedAll(store, os + more) == EvaluatedAll(EvaluatedAll(store, os), more)
  {
    if more == [] {
      assert os + more == os;
    } else {
      assert (os + more)[..|os + more| - 1] == os + more[..|more| - 1];
      EvaluatedConcat(store, os, more[..|more| - 1]);
    }
  }

  lemma {:induction false} UntouchedBySweep(store: Store, os: seq<Observation>, ws: WorkspaceId)
    requires forall i | 0 <= i < |os| :: os[i].workspace != ws
    ensures StateOf(EvaluatedAll(store, os).rows, ws) == StateOf(store.rows, ws)
    ensures EventsOf(EvaluatedAll(store, os).events, ws) == EventsOf(store.events, ws)
  {
    if os != [] {
      UntouchedBySweep(store, os[..|os| - 1], ws);
      var before := EvaluatedAll(store, os[..|os| - 1]);
      var after := Evaluated(before, os[|os| - 1]);
      if after.events != before.events {
        assert after.events[..|before.events|] == before.events;
      }
    }
  }

  /** A workspace whose queue has drained keeps its last state, and no CLEARED event is
      emitted for it, through any number of sweeps. */
  lemma {:induction false} DrainedWorkspaceKeepsItsState(store: Store, sweeps: seq<seq<Observation>>, ws: WorkspaceId)
    requires NeverPending(sweeps, ws)
    ensures StateOf(AfterSweeps(store, sweeps).rows, ws) == StateOf(store.rows, ws)
    ensures EventsOf(AfterSweeps(store, sweeps).events, ws) == EventsOf(store.events, ws)
  {
    if sweeps != [] {
      DrainedWorkspaceKeepsItsState(store, sweeps[..|sweeps| - 1], ws);
      UntouchedBySweep(AfterSweeps(store, sweeps[..|sweeps| - 1]), sweeps[|sweeps| - 1], ws);
    }
  }

  /** Workspace 1 is THROTTLED at depth 9, drains, and a sweep that covers all pending work passes it by:
      it stays THROTTLED at depth 0, and no CLEARED event is emitted. */
  lemma ThrottledWorkspaceDrains()
    ensures
      var before := EvaluatedAll(Store(map[], []), [Observation(1, 9, 2, 5, 0)]);
      var pending: map<WorkspaceId, nat> := map[1 := 0, 2 := 3];
      var os := [Observation(2, 3, 2, 5, 10)];
      var after := EvaluatedAll(before, os);
      && StateOf(before.rows, 1) == Throttled
      && Selected(os, pending, 10) && |Active(pending)| <= 10
      && DepthOf(pending, 1) == 0 && ClassifyDepth(0, 2, 5) == Normal
      && StateOf(after.rows, 1) == Throttled && EventsOf(after.events, 1) == EventsOf(before.events, 1)
  {
    var pending: map<WorkspaceId, nat> := map[1 := 0, 2 := 3];
    assert [Observation(1, 9, 2, 5, 0)][..0] == [];
    assert EvaluatedAll(Store(map[], []), []) == Store(map[], []);
    var before := EvaluatedAll(Store(map[], []), [Observation(1, 9, 2, 5, 0)]);
    assert before == Evaluated(Store(map[], []), Observation(1, 9, 2, 5, 0));
    assert Active(pending) == {2};
    UntouchedBySweep(before, [Observation(2, 3, 2, 5, 10)], 1);
  }

  /** The limits an observation was made under, for limits of at least one. */
  predicate LimitsHeld(os: seq<Observation>, limits: map<WorkspaceId, (int, int)>) {
    && (forall ws | ws in limits :: limits[ws].0 >= 1 && limits[ws].1 >= 1)
    && (forall i | 0 <= i < |os| :: os[i].workspace in limits && (os[i].soft, os[i].hard) == limits[os[i].workspace])
  }

  function DepthOf(pending: map<WorkspaceId, nat>, ws: WorkspaceId): nat {
    if ws in pending then pending[ws] else 0
  }

  /** After a covering sweep every stored state is the class of the present depth exactly
      when the workspaces with nothing pending were NORMAL already. */
  lemma SweepIsAccurateExactlyWhenDrainedAreNormal(
      store: Store, os: seq<Observation>, pending: map<WorkspaceId, nat>, batchSize: nat,
      limits: map<WorkspaceId, (int, int)>)
    requires Selected(os, pending, batchSize) && batchSize >= |Active(pending)| && LimitsHeld(os, limits)
    ensures
      (forall ws | ws in limits ::
         StateOf(EvaluatedAll(store, os).rows, ws) == ClassifyDepth(DepthOf(pending, ws), limits[ws].0, limits[ws].1))
      <==> (forall ws | ws in limits && ws !in Active(pending) :: StateOf(store.rows, ws) == Normal)
  {
    CoveringSweep(store, os, pending, batchSize, 1);
    forall ws | ws in limits && ws in Active(pending)
      ensures StateOf(EvaluatedAll(store, os).rows, ws) == ClassifyDepth(DepthOf(pending, ws), limits[ws].0, limits[ws].1)
    {
      var i :| 0 <= i < |os| && os[i].workspace == ws && os[i].depth == pending[ws]
        && StateOf(EvaluatedAll(store, os).rows, ws) == ClassifyDepth(pending[ws], os[i].soft, os[i].hard);
    }
    forall ws | ws in limits && ws !in Active(pending)
      ensures ClassifyDepth(DepthOf(pending, ws), limits[ws].0, limits[ws].1) == Normal
      ensures StateOf(EvaluatedAll(store, os).rows, ws) == StateOf(store.rows, ws)
    {
      assert DepthOf(pending, ws) == 0;
    }
  }

  // ---------------------------------------------------------------------------
  // What a row says

  /** The last observation of a workspace in a run of evaluations. */
  function LastOf(os: seq<Observation>, ws: WorkspaceId): Option<Observation> {
    if os == [] then None
    else if os[|os| - 1].workspace == ws then Some(os[|os| - 1])
    else LastOf(os[..|os| - 1], ws)
  }

  /** NORMAL below both limits, THROTTLED from the hard limit on, PRESSURED from the soft limit up to the hard. */
  predicate InBand(state: State, o: Observation) {
    match state
    case Normal => o.depth < o.soft && o.depth < o.hard
    case Pressured => o.soft <= o.depth < o.hard
    case Throttled => o.hard <= o.depth
  }

  lemma ClassifiedByBand(o: Observation, state: State)
    ensures ClassifyDepth(o.depth, o.soft, o.hard) == state <==> InBand(state, o)
  {
  }

  /** Over every run of evaluations a workspace has a row exactly when it was observed, and the row says what
      its last observation found and when. */
  lemma {:induction false} RowsSayTheLastObservation(os: seq<Observation>, ws: WorkspaceId)
    ensures var rows, last := EvaluatedAll(Store(map[], []), os).rows, LastOf(os, ws);
      && (ws in rows <==> last.Some?)
      && (last.Some? ==>
            && last.value in os && last.value.workspace == ws
            && InBand(rows[ws].state, last.value)
            && rows[ws].pendingDepth == last.value.depth && rows[ws].updatedAt == last.value.now)
  {
    if os != [] {
      RowsSayTheLastObservation(os[..|os| - 1], ws);
      var o := os[|os| - 1];
      ClassifiedByBand(o, ClassifyDepth(o.depth, o.soft, o.hard));
    }
  }
}
