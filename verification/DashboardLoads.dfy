/**
 * How the dashboard keeps late answers off the screen: every load takes a generation number, only the
 * newest may write, and what was written is shown only under the key it was loaded for.
 */
module DashboardLoads {
  import opened Foundations

  /** Page and tab names; none of them contains the separator of the view key. */
  type Name = s: string | ':' !in s witness ""

  datatype View = View(workspace: string, nav: Name, tab: Name)

  /** What a load fetched: for which view, and under which generation. */
  datatype Payload = Payload(view: View, ticket: nat)

  /** A load between its first line and its completion.  `view` is what its closure captured. */
  datatype Request = Request(ticket: nat, view: View, background: bool, hasCurrentData: bool)

  /** One completion that touched the view data. */
  datatype Write = Write(ticket: nat, view: View, succeeded: bool)

  datatype State = State(
    view: View,
    requestId: nat,
    data: Option<Payload>,
    loadedKey: Option<string>,
    dataRef: Option<Payload>,
    loadedKeyRef: Option<string>,
    loading: bool,
    refreshing: bool,
    failed: bool,
    refreshFailed: bool,
    loadInFlight: bool,
    health: Option<string>,
    healthWorkspace: Option<string>,
    inFlight: map<nat, Request>,
    writes: seq<Write>)

  /** Handlers carry the view their closure was created with, which may be out of date. */
  datatype Action =
    | BeginLoad(captured: View, background: bool)
    | Succeed(ticket: nat)
    | Fail(ticket: nat)
    | Navigate(captured: View, nav: Name)
    | ChangeMissionTab(captured: View, tab: Name)
    | NavigateToMissionTab(tab: Name)
    | SwitchWorkspace(workspace: string)
    | SyncRefs
    | RefreshHealth(workspace: string, succeeded: bool)

  function KeyText(v: View): string {
    v.workspace + ":" + v.nav + ":" + v.tab
  }

  /** Views whose load resolves to null. */
  predicate FetchesNothing(v: View) {
    v.nav == "ask" || (v.nav == "mission" && v.tab == "assistant")
  }

  function Fetched(r: Request): Option<Payload> {
    if FetchesNothing(r.view) then None else Some(Payload(r.view, r.ticket))
  }

  function Initial(workspace: string): State {
    State(View(workspace, "dashboard", "overview"), 0, None, None, None, None,
          true, false, false, false, false, None, None, map[], [])
  }

  /** What navigation clears before the new view loads. */
  function Cleared(st: State, loading: bool): State {
    st.(requestId := st.requestId + 1, data := None, loadedKey := None, failed := false,
        refreshFailed := false, loading := loading)
  }

  function Begun(st: State, v: View, background: bool): State {
    var has := st.loadedKeyRef == Some(KeyText(v)) && st.dataRef.Some?;
    var ticket := st.requestId + 1;
    var next := st.(requestId := ticket, loadInFlight := true,
                    inFlight := st.inFlight[ticket := Request(ticket, v, background, has)]);
    if background && has then next.(refreshing := true) else next.(loading := true, failed := false)
  }

  function Settled(st: State): State {
    st.(loading := false, refreshing := false, loadInFlight := false)
  }

  function Succeeded(st: State, r: Request): State {
    var done := st.(inFlight := st.inFlight - {r.ticket});
    if r.ticket != st.requestId then done else
    var shown := Settled(done).(
      data := Fetched(r), loadedKey := Some(KeyText(r.view)), refreshFailed := false,
      writes := st.writes + [Write(r.ticket, r.view, true)]);
    if r.view.nav == "dashboard" || r.view.nav == "settings"
    then shown.(health := Some(r.view.workspace), healthWorkspace := Some(r.view.workspace))
    else shown
  }

  function Failed(st: State, r: Request): State {
    var done := st.(inFlight := st.inFlight - {r.ticket});
    if r.ticket != st.requestId then done
    else if r.background && r.hasCurrentData then Settled(done).(refreshFailed := true)
    else Settled(done).(data := None, loadedKey := Some(KeyText(r.view)), failed := true,
                        writes := st.writes + [Write(r.ticket, r.view, false)])
  }

  function Apply(st: State, act: Action): State {
    match act
    case BeginLoad(v, background) => Begun(st, v, background)
    case Succeed(t) => if t in st.inFlight then Succeeded(st, st.inFlight[t]) else st
    case Fail(t) => if t in st.inFlight then Failed(st, st.inFlight[t]) else st
    case Navigate(captured, nav) =>
      if nav != captured.nav then Cleared(st, true).(view := View(st.view.workspace, nav, "overview"))
      else st.(view := st.view.(nav := nav))
    case ChangeMissionTab(captured, tab) =>
      if tab != captured.tab then Cleared(st, true).(view := st.view.(tab := tab)) else st
    case NavigateToMissionTab(tab) =>
      Cleared(st, tab != "assistant").(view := View(st.view.workspace, "mission", tab))
    case SwitchWorkspace(w) => st.(view := st.view.(workspace := w))
    case SyncRefs => st.(dataRef := st.data, loadedKeyRef := st.loadedKey)
    case RefreshHealth(w, ok) => st.(health := if ok then Some(w) else None, healthWorkspace := Some(w))
  }

  function Run(workspace: string, acts: seq<Action>): State {
    if acts == [] then Initial(workspace)
    else Apply(Run(workspace, acts[..|acts| - 1]), acts[|acts| - 1])
  }

  /** The data that the render guard lets through. */
  function Shown(st: State): Option<Payload> {
    if st.failed || FetchesNothing(st.view) || st.loading || st.loadedKey != Some(KeyText(st.view))
    then None
    else st.data
  }

  function ShownHealth(st: State): Option<string> {
    if st.healthWorkspace == Some(st.view.workspace) then st.health else None
  }

  // ---- The key ----------------------------------------------------------------------------------

  /** A text has one last separator. */
  lemma {:induction false} LastSeparatorIsUnique(a: string, b: Name, c: string, d: Name)
    requires a + ":" + b == c + ":" + d
    ensures a == c && b == d
    decreases |b|
  {
    var left, right := a + ":" + b, c + ":" + d;
    var n := |left| - 1;
    assert left[n] == right[n] && left[..n] == right[..n];
    if b == "" || d == "" {
      assert b == d;
      assert a == left[..n] && c == right[..n];
    } else {
      assert b == b[..|b| - 1] + [left[n]] && d == d[..|d| - 1] + [right[n]];
      assert left[..n] == a + ":" + b[..|b| - 1] && right[..n] == c + ":" + d[..|d| - 1];
      LastSeparatorIsUnique(a, b[..|b| - 1], c, d[..|d| - 1]);
    }
  }

  /** Two views with one key are one view, whatever the workspace id looks like. */
  lemma KeyNamesTheView(v: View, w: View)
    requires KeyText(v) == KeyText(w)
    ensures v == w
  {
    LastSeparatorIsUnique(v.workspace + ":" + v.nav, v.tab, w.workspace + ":" + w.nav, w.tab);
    LastSeparatorIsUnique(v.workspace, v.nav, w.workspace, w.nav);
  }

  // ---- The invariant ----------------------------------------------------------------------------

  ghost predicate TicketsBounded(requestId: nat, inFlight: map<nat, Request>, writes: seq<Write>) {
    && (forall t | t in inFlight :: inFlight[t].ticket == t && t <= requestId)
    && (forall w | w in writes :: w.ticket <= requestId && w.ticket !in inFlight)
  }

  ghost predicate WritersIncrease(writes: seq<Write>) {
    forall i, j :: 0 <= i < j < |writes| ==> writes[i].ticket < writes[j].ticket
  }

  /** What is held was fetched for the key it is held under, by the last writer. */
  ghost predicate DataHasItsKey(data: Option<Payload>, loadedKey: Option<string>, writes: seq<Write>) {
    data.Some? ==>
      && loadedKey == Some(KeyText(data.value.view))
      && writes != []
      && writes[|writes| - 1] == Write(data.value.ticket, data.value.view, true)
  }

  ghost predicate HealthHasItsWorkspace(health: Option<string>, workspace: Option<string>) {
    health.Some? ==> workspace == health
  }

  ghost predicate Inv(st: State) {
    && TicketsBounded(st.requestId, st.inFlight, st.writes)
    && WritersIncrease(st.writes)
    && DataHasItsKey(st.data, st.loadedKey, st.writes)
    && HealthHasItsWorkspace(st.health, st.healthWorkspace)
  }

  /** How much the write history may grow in one step. */
  ghost predicate Grows(st: State, next: State) {
    && st.requestId <= next.requestId
    && (next.writes == st.writes
        || exists w: Write :: next.writes == st.writes + [w] && w.ticket == st.requestId)
  }

  /** The newest request, on completing, is later than every writer before it. */
  lemma AppendedWriteIncreases(st: State, w: Write)
    requires Inv(st) && w.ticket in st.inFlight
    ensures st.inFlight[w.ticket].ticket == w.ticket
    ensures TicketsBounded(st.requestId, st.inFlight - {w.ticket}, st.writes)
    ensures w.ticket == st.requestId ==>
      && WritersIncrease(st.writes + [w])
      && TicketsBounded(st.requestId, st.inFlight - {w.ticket}, st.writes + [w])
  {
  }

  lemma InvBeginLoad(st: State, v: View, background: bool)
    requires Inv(st)
    ensures var next := Apply(st, BeginLoad(v, background)); Inv(next) && Grows(st, next)
  {
    hide KeyText, WritersIncrease, DataHasItsKey, HealthHasItsWorkspace;
  }

  lemma InvSucceed(st: State, t: nat)
    requires Inv(st)
    ensures var next := Apply(st, Succeed(t)); Inv(next) && Grows(st, next)
  {
    hide KeyText, TicketsBounded, WritersIncrease, DataHasItsKey, Fetched;
    if t in st.inFlight {
      var w := Write(t, st.inFlight[t].view, true);
      AppendedWriteIncreases(st, w);
      FetchedIsHeld(st.inFlight[t], st.writes, w);
    }
  }

  lemma FetchedIsHeld(r: Request, writes: seq<Write>, w: Write)
    requires w == Write(r.ticket, r.view, true)
    ensures DataHasItsKey(Fetched(r), Some(KeyText(r.view)), writes + [w])
  {
    hide KeyText, FetchesNothing;
  }

  lemma InvFail(st: State, t: nat)
    requires Inv(st)
    ensures var next := Apply(st, Fail(t)); Inv(next) && Grows(st, next)
  {
    hide KeyText, TicketsBounded, WritersIncrease, DataHasItsKey;
    if t in st.inFlight {
      var w := Write(t, st.inFlight[t].view, false);
      AppendedWriteIncreases(st, w);
      NothingHeld(st.writes + [w]);
    }
  }

  lemma NothingHeld(writes: seq<Write>)
    ensures forall key :: DataHasItsKey(None, key, writes)
  {
  }

  lemma InvClear(st: State, loading: bool, v: View)
    requires Inv(st)
    ensures var next := Cleared(st, loading).(view := v); Inv(next) && Grows(st, next)
  {
    hide WritersIncrease, DataHasItsKey, HealthHasItsWorkspace;
    NothingHeld(st.writes);
  }

  lemma InvElsewhere(st: State, act: Action)
    requires Inv(st) && (act.SwitchWorkspace? || act.SyncRefs? || act.RefreshHealth?)
    ensures var next := Apply(st, act); Inv(next) && Grows(st, next)
  {
    hide TicketsBounded, WritersIncrease, DataHasItsKey;
  }

  lemma InvNavigate(st: State, captured: View, nav: Name)
    requires Inv(st)
    ensures var next := Apply(st, Navigate(captured, nav)); Inv(next) && Grows(st, next)
  {
    hide Cleared, TicketsBounded, WritersIncrease, DataHasItsKey, HealthHasItsWorkspace;
    InvClear(st, true, View(st.view.workspace, nav, "overview"));
  }

  lemma InvTabs(st: State, captured: View, tab: Name)
    requires Inv(st)
    ensures var next := Apply(st, ChangeMissionTab(captured, tab)); Inv(next) && Grows(st, next)
    ensures var next := Apply(st, NavigateToMissionTab(tab)); Inv(next) && Grows(st, next)
  {
    hide Cleared, TicketsBounded, WritersIncrease, DataHasItsKey, HealthHasItsWorkspace;
    InvClear(st, true, st.view.(tab := tab));
    InvClear(st, tab != "assistant", View(st.view.workspace, "mission", tab));
  }

  lemma InvStep(st: State, act: Action)
    requires Inv(st)
    ensures Inv(Apply(st, act)) && Grows(st, Apply(st, act))
  {
    hide *;
    match act
    case BeginLoad(v, background) => InvBeginLoad(st, v, background);
    case Succeed(t) => InvSucceed(st, t);
    case Fail(t) => InvFail(st, t);
    case Navigate(captured, nav) => InvNavigate(st, captured, nav);
    case ChangeMissionTab(captured, tab) => InvTabs(st, captured, tab);
    case NavigateToMissionTab(tab) => InvTabs(st, st.view, tab);
    case SwitchWorkspace(_) => InvElsewhere(st, act);
    case SyncRefs => InvElsewhere(st, act);
    case RefreshHealth(_, _) => InvElsewhere(st, act);
  }

  lemma {:induction false} InvRun(workspace: string, acts: seq<Action>)
    ensures Inv(Run(workspace, acts))
  {
    if acts != [] {
      InvRun(workspace, acts[..|acts| - 1]);
      InvStep(Run(workspace, acts[..|acts| - 1]), acts[|acts| - 1]);
    }
  }

  lemma {:induction false} RunExtends(workspace: string, acts: seq<Action>, more: seq<Action>)
    ensures var st, later := Run(workspace, acts), Run(workspace, acts + more);
      && st.writes <= later.writes && st.requestId <= later.requestId
      && forall w | w in later.writes :: w in st.writes || w.ticket >= st.requestId
  {
    hide Apply, Inv;
    if more == [] {
      assert acts + more == acts;
    } else {
      var front, act := more[..|more| - 1], more[|more| - 1];
      assert acts + more == (acts + front) + [act];
      assert (acts + more)[..|acts + more| - 1] == acts + front;
      RunExtends(workspace, acts, front);
      InvRun(workspace, acts + front);
      InvStep(Run(workspace, acts + front), act);
    }
  }

  // ---- Main results -----------------------------------------------------------------------------

  /** Whatever the guard lets through was fetched for the current workspace, page and tab. */
  lemma ShownDataIsForTheCurrentView(workspace: string, acts: seq<Action>)
    ensures var st := Run(workspace, acts);
      Shown(st).Some? ==> Shown(st).value.view == st.view
  {
    var st := Run(workspace, acts);
    InvRun(workspace, acts);
    if Shown(st).Some? {
      KeyNamesTheView(st.data.value.view, st.view);
    }
  }

  /** Health is shown exactly when what is held was fetched for the current workspace. */
  lemma ShownHealthIsForTheCurrentWorkspace(workspace: string, acts: seq<Action>)
    ensures var st := Run(workspace, acts);
      && (ShownHealth(st).Some? ==> ShownHealth(st).value == st.view.workspace)
      && (ShownHealth(st).Some? <==> st.health == Some(st.view.workspace))
  {
    InvRun(workspace, acts);
  }

  /** A completion changes nothing on the screen unless it is the newest request's. */
  lemma OnlyTheNewestWrites(st: State, t: nat)
    requires Inv(st) && t != st.requestId
    ensures Apply(st, Succeed(t)) == st.(inFlight := Apply(st, Succeed(t)).inFlight)
    ensures Apply(st, Fail(t)) == st.(inFlight := Apply(st, Fail(t)).inFlight)
  {
  }

  /** Once a newer generation exists, an older request never writes again, whatever happens. */
  lemma OvertakenRequestsNeverWrite(workspace: string, acts: seq<Action>, more: seq<Action>, w: Write)
    requires w.ticket < Run(workspace, acts).requestId
    requires w in Run(workspace, acts + more).writes
    ensures w in Run(workspace, acts).writes
  {
    RunExtends(workspace, acts, more);
  }

  /** What is shown later is never of an older generation, and of the same generation only if the same. */
  lemma ShownGenerationsNeverGoBack(workspace: string, acts: seq<Action>, more: seq<Action>)
    ensures var sooner, later := Shown(Run(workspace, acts)), Shown(Run(workspace, acts + more));
      sooner.Some? && later.Some? ==>
        && sooner.value.ticket <= later.value.ticket
        && (sooner.value.ticket == later.value.ticket ==> sooner == later)
  {
    InvRun(workspace, acts);
    InvRun(workspace, acts + more);
    RunExtends(workspace, acts, more);
    var st, later := Run(workspace, acts), Run(workspace, acts + more);
    if Shown(st).Some? && Shown(later).Some? {
      assert st.writes[|st.writes| - 1] == later.writes[|st.writes| - 1];
    }
  }

  /** Each generation writes at most once. */
  lemma OneWritePerGeneration(workspace: string, acts: seq<Action>, i: nat, j: nat)
    requires var writes := Run(workspace, acts).writes;
      i < |writes| && j < |writes| && writes[i].ticket == writes[j].ticket
    ensures i == j
  {
    InvRun(workspace, acts);
  }

  /**
   * A load that nothing overtakes puts its data on the screen, unless an earlier failure is showing and
   * the load was a background refresh that leaves it there.
   */
  lemma UndisturbedLoadShowsItsData(st: State, background: bool)
    requires Inv(st) && !FetchesNothing(st.view)
    ensures
      var started := Apply(st, BeginLoad(st.view, background));
      var ended := Apply(started, Succeed(started.requestId));
      var keepsError := st.failed && background && st.loadedKeyRef == Some(KeyText(st.view)) && st.dataRef.Some?;
      Shown(ended) == if keepsError then None else Some(Payload(st.view, st.requestId + 1))
  {
    hide KeyText, Inv;
  }

  lemma RunOn(workspace: string, acts: seq<Action>, act: Action)
    ensures Run(workspace, acts + [act]) == Apply(Run(workspace, acts), act)
  {
    assert (acts + [act])[..|acts|] == acts;
  }

  /** A load succeeds and the refs follow; then a load fails ... */
  lemma FailsBeforeTheRefsFollow(v: View) returns (acts: seq<Action>)
    requires v == View("w", "dashboard", "overview")
    ensures var st := Run("w", acts);
      && st.view == v && st.requestId == 2 && st.failed && !st.loading
      && st.loadedKeyRef == Some(KeyText(v)) && st.dataRef == Some(Payload(v, 1))
  {
    hide Run, KeyText;
    StartOfRun("w");
    var loading := [] + [BeginLoad(v, false)];
    RunOn("w", [], BeginLoad(v, false));
    var loaded := loading + [Succeed(1)];
    RunOn("w", loading, Succeed(1));
    var followed := loaded + [SyncRefs];
    RunOn("w", loaded, SyncRefs);
    var again := followed + [BeginLoad(v, false)];
    RunOn("w", followed, BeginLoad(v, false));
    acts := again + [Fail(2)];
    RunOn("w", again, Fail(2));
  }

  lemma StartOfRun(workspace: string)
    ensures Run(workspace, []) == Initial(workspace)
  {
  }

  /** ... and the background refresh that then succeeds leaves the failure on the screen, over its data. */
  lemma FailureOutlivesARefresh() returns (acts: seq<Action>)
    ensures var st := Run("w", acts);
      st.data == Some(Payload(st.view, 3)) && st.loadedKey == Some(KeyText(st.view))
      && st.failed && !st.loading && Shown(st) == None
  {
    hide Run, KeyText;
    var v := View("w", "dashboard", "overview");
    var failed := FailsBeforeTheRefsFollow(v);
    RunOn("w", failed, BeginLoad(v, true));
    RunOn("w", failed + [BeginLoad(v, true)], Succeed(3));
    acts := failed + [BeginLoad(v, true)] + [Succeed(3)];
  }

  // ---- The component ----------------------------------------------------------------------------

  /** The component instance: its hooks and refs in one record that the handlers rewrite. */
  class Dashboard {
    var state: State

    ghost predicate Valid()
      reads this
    {
      Inv(state)
    }

    constructor (workspace: string)
      ensures Valid() && state == Initial(workspace)
    {
      state := Initial(workspace);
    }

    /** load() up to its first await. */
    method BeginLoad(captured: View, background: bool) returns (r: Request)
      requires Valid()
      modifies this
      ensures Valid() && state == Apply(old(state), Action.BeginLoad(captured, background))
      ensures r.ticket == state.requestId && r.ticket in state.inFlight && state.inFlight[r.ticket] == r
      ensures r.ticket !in old(state).inFlight
    {
      hide Inv, KeyText;
      InvStep(state, Action.BeginLoad(captured, background));
      NewTicketIsUnused(state);
      var has := state.loadedKeyRef == Some(KeyText(captured)) && state.dataRef.Some?;
      r := Request(state.requestId + 1, captured, background, has);
      state := state.(requestId := r.ticket, inFlight := state.inFlight[r.ticket := r]);
      state := state.(loadInFlight := true);
      if background && has {
        state := state.(refreshing := true);
      } else {
        state := state.(loading := true, failed := false);
      }
    }

    /** load() from its first await to its end. */
    method FinishLoad(r: Request, succeeded: bool)
      requires Valid() && r.ticket in state.inFlight && state.inFlight[r.ticket] == r
      modifies this
      ensures Valid()
      ensures state == Apply(old(state), if succeeded then Succeed(r.ticket) else Fail(r.ticket))
    {
      hide Inv, KeyText, Fetched;
      InvStep(state, if succeeded then Succeed(r.ticket) else Fail(r.ticket));
      TicketsNameThemselves(state, r);
      state := state.(inFlight := state.inFlight - {r.ticket});
      if state.requestId == r.ticket {
        if succeeded {
          state := state.(data := Fetched(r), loadedKey := Some(KeyText(r.view)), refreshFailed := false,
                          writes := state.writes + [Write(r.ticket, r.view, true)]);
          if r.view.nav == "dashboard" || r.view.nav == "settings" {
            state := state.(health := Some(r.view.workspace), healthWorkspace := Some(r.view.workspace));
          }
        } else if r.background && r.hasCurrentData {
          state := state.(refreshFailed := true);
        } else {
          state := state.(data := None, loadedKey := Some(KeyText(r.view)), failed := true,
                          writes := state.writes + [Write(r.ticket, r.view, false)]);
        }
        state := state.(loading := false, refreshing := false, loadInFlight := false);
      }
    }

    method Navigate(captured: View, nav: Name)
      requires Valid()
      modifies this
      ensures Valid() && state == Apply(old(state), Action.Navigate(captured, nav))
    {
      hide Inv;
      InvStep(state, Action.Navigate(captured, nav));
      if nav != captured.nav {
        state := state.(requestId := state.requestId + 1, data := None, loadedKey := None, failed := false,
                        refreshFailed := false, loading := true);
        state := state.(view := state.view.(tab := "overview"));
      }
      state := state.(view := state.view.(nav := nav));
    }

    method ChangeMissionTab(captured: View, tab: Name)
      requires Valid()
      modifies this
      ensures Valid() && state == Apply(old(state), Action.ChangeMissionTab(captured, tab))
    {
      hide Inv;
      InvStep(state, Action.ChangeMissionTab(captured, tab));
      if tab != captured.tab {
        state := state.(requestId := state.requestId + 1, data := None, loadedKey := None, failed := false,
                        refreshFailed := false, loading := true);
        state := state.(view := state.view.(tab := tab));
      }
    }

    method NavigateToMissionTab(tab: Name)
      requires Valid()
      modifies this
      ensures Valid() && state == Apply(old(state), Action.NavigateToMissionTab(tab))
    {
      hide Inv;
      InvStep(state, Action.NavigateToMissionTab(tab));
      state := state.(requestId := state.requestId + 1, data := None, loadedKey := None, failed := false,
                      refreshFailed := false, loading := tab != "assistant");
      state := state.(view := View(state.view.workspace, "mission", tab));
    }

    /** renderView(): data reaches the screen only for the view it was fetched for. */
    method RenderView() returns (shown: Option<Payload>)
      requires Valid()
      ensures shown == Shown(state)
      ensures shown.Some? ==> shown.value.view == state.view
    {
      if state.failed || FetchesNothing(state.view) || state.loading {
        return None;
      }
      if state.loadedKey != Some(KeyText(state.view)) {
        return None;
      }
      if state.data.Some? {
        KeyNamesTheView(state.data.value.view, state.view);
      }
      shown := state.data;
    }
  }

  lemma NewTicketIsUnused(st: State)
    requires Inv(st)
    ensures st.requestId + 1 !in st.inFlight
  {
  }

  lemma TicketsNameThemselves(st: State, r: Request)
    requires Inv(st) && r.ticket in st.inFlight
    ensures st.inFlight[r.ticket].ticket == r.ticket
  {
  }
}
