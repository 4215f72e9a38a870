/** Part by part, what one action of the dashboard changes, and what a navigation leaves behind. */
module DashboardSteps {
  import opened Foundations
  import opened DashboardLoads

  /** The action sends the dashboard to another view: a page other than the handler's own, a mission tab
      other than the handler's own, or a jump. */
  predicate Moves(act: Action) {
    match act
    case Navigate(captured, nav) => nav != captured.nav
    case ChangeMissionTab(captured, tab) => tab != captured.tab
    case NavigateToMissionTab(_) => true
    case _ => false
  }

  /** `act` completes the newest request; `succeeded` says how. */
  predicate Completes(st: State, act: Action, succeeded: bool) {
    act == (if succeeded then Succeed(st.requestId) else Fail(st.requestId)) && st.requestId in st.inFlight
  }

  /** A background refresh of data that is held: it neither covers nor clears the screen. */
  predicate Quiet(r: Request) {
    r.background && r.hasCurrentData
  }

  /** The two pages whose load fetches the health as well. */
  predicate FetchesHealth(v: View) {
    v.nav == "dashboard" || v.nav == "settings"
  }

  /** The dashboard opens on the overview of its first page, waiting, with nothing shown, failed or in flight; its
      first load shows what it fetched and ends the waiting. */
  lemma OpensWaiting(workspace: string)
    ensures var st, v := Initial(workspace), View(workspace, "dashboard", "overview");
      var ended := Apply(Apply(st, BeginLoad(v, false)), Succeed(1));
      && st.view == v && st.requestId == 0 && st.loading && Shown(st) == None && ShownHealth(st) == None
      && !st.refreshing && !st.failed && !st.refreshFailed && !st.loadInFlight && st.inFlight == map[]
      && Shown(ended) == Some(Payload(v, 1)) && ShownHealth(ended) == Some(workspace)
      && !ended.loading && !ended.refreshing && !ended.failed && !ended.refreshFailed && !ended.loadInFlight
  {
    hide KeyText;
  }

  /** Beginning a load: its request is in flight, under the next generation and with what it captured; unless
      it is quiet, the screen waits and forgets the last failure. */
  lemma LoadTakesExactly(st: State, captured: View, background: bool)
    ensures var next, r := Apply(st, BeginLoad(captured, background)),
                           Request(st.requestId + 1, captured, background,
                                   st.loadedKeyRef == Some(KeyText(captured)) && st.dataRef != None);
      next == st.(requestId := r.ticket, inFlight := st.inFlight[r.ticket := r], loadInFlight := true,
                  refreshing := st.refreshing || Quiet(r),
                  loading := st.loading || !Quiet(r),
                  failed := st.failed && Quiet(r))
  {
    hide KeyText;
  }

  lemma SuccessTakesItsRequest(st: State, r: Request)
    ensures var next := Succeeded(st, r);
      && next.inFlight == st.inFlight - {r.ticket}
      && next.view == st.view && next.requestId == st.requestId
      && next.dataRef == st.dataRef && next.loadedKeyRef == st.loadedKeyRef
  {
    hide KeyText, Fetched, Settled;
    var done := st.(inFlight := st.inFlight - {r.ticket});
    assert Settled(done) == done.(loading := false, refreshing := false, loadInFlight := false) by {
      SettledEndsWaiting(done);
    }
  }

  lemma SettledEndsWaiting(st: State)
    ensures Settled(st) == st.(loading := false, refreshing := false, loadInFlight := false)
  {
  }

  lemma FailureTakesItsRequest(st: State, r: Request)
    ensures var next := Failed(st, r);
      && next.inFlight == st.inFlight - {r.ticket}
      && next.view == st.view && next.requestId == st.requestId
      && next.dataRef == st.dataRef && next.loadedKeyRef == st.loadedKeyRef
  {
    hide KeyText;
  }

  /** A completion takes its own request out of flight, and no other. */
  lemma CompletionTakesItsRequest(st: State, t: nat, succeeded: bool)
    requires Inv(st)
    ensures var next := Apply(st, if succeeded then Succeed(t) else Fail(t));
      && next.inFlight == st.inFlight - {t}
      && next.view == st.view && next.requestId == st.requestId
      && next.dataRef == st.dataRef && next.loadedKeyRef == st.loadedKeyRef
  {
    hide Succeeded, Failed, WritersIncrease, DataHasItsKey, HealthHasItsWorkspace;
    if t in st.inFlight {
      SuccessTakesItsRequest(st, st.inFlight[t]);
      FailureTakesItsRequest(st, st.inFlight[t]);
    } else {
      assert st.inFlight - {t} == st.inFlight;
    }
  }

  /** The newest completion ends all waiting; a quiet failure is noted beside the data, a loud one on the
      screen, and a success withdraws the note but not what is on the screen. */
  lemma NewestCompletionSettles(st: State, succeeded: bool)
    requires Inv(st) && st.requestId in st.inFlight
    ensures var next, r := Apply(st, if succeeded then Succeed(st.requestId) else Fail(st.requestId)),
                           st.inFlight[st.requestId];
      && !next.loading && !next.refreshing && !next.loadInFlight
      && next.failed == (st.failed || (!succeeded && !Quiet(r)))
      && next.refreshFailed == (!succeeded && (st.refreshFailed || Quiet(r)))
  {
    hide KeyText, WritersIncrease, DataHasItsKey, HealthHasItsWorkspace;
  }

  lemma ClearedKeeps(st: State, loading: bool)
    ensures var next := Cleared(st, loading);
      && next.requestId == st.requestId + 1 && next.loading == loading
      && next.data == None && next.loadedKey == None && !next.failed && !next.refreshFailed
      && next == st.(requestId := next.requestId, loading := loading, data := None, loadedKey := None,
                     failed := false, refreshFailed := false)
  {
  }

  /** A move takes a generation, drops what is held and any failure, and waits for the load to come, except
      for the assistant, which loads nothing. */
  lemma MoveTakesExactly(st: State, act: Action)
    requires Moves(act)
    ensures var next := Apply(st, act);
      && next.requestId == st.requestId + 1
      && next.data == None && next.loadedKey == None && !next.failed && !next.refreshFailed
      && next.loading == !(act.NavigateToMissionTab? && act.tab == "assistant")
      && next.inFlight == st.inFlight && next.writes == st.writes
      && next.dataRef == st.dataRef && next.loadedKeyRef == st.loadedKeyRef
  {
    hide Cleared;
    ClearedKeeps(st, true);
    ClearedKeeps(st, false);
  }

  /** A generation is taken by every load and every move, and by nothing else. */
  lemma GenerationsChangeExactly(st: State, act: Action)
    requires Inv(st)
    ensures Apply(st, act).requestId == st.requestId + (if act.BeginLoad? || Moves(act) then 1 else 0)
  {
    hide Begun, Cleared, Succeeded, Failed, Inv;
    match act
    case BeginLoad(v, background) => LoadTakesExactly(st, v, background);
    case Succeed(t) => CompletionTakesItsRequest(st, t, true);
    case Fail(t) => CompletionTakesItsRequest(st, t, false);
    case _ => if Moves(act) { MoveTakesExactly(st, act); }
  }

  /** Where each action lands. */
  lemma ViewChangesExactly(st: State, act: Action)
    requires Inv(st)
    ensures Apply(st, act).view.workspace == if act.SwitchWorkspace? then act.workspace else st.view.workspace
    ensures Apply(st, act).view.nav ==
      if act.Navigate? then act.nav else if act.NavigateToMissionTab? then "mission" else st.view.nav
    ensures Apply(st, act).view.tab ==
      if act.Navigate? && Moves(act) then "overview"
      else if act.ChangeMissionTab? && Moves(act) then act.tab
      else if act.NavigateToMissionTab? then act.tab
      else st.view.tab
  {
    hide Begun, Cleared, Succeeded, Failed, Inv;
    match act
    case BeginLoad(v, background) => LoadTakesExactly(st, v, background);
    case Succeed(t) => CompletionTakesItsRequest(st, t, true);
    case Fail(t) => CompletionTakesItsRequest(st, t, false);
    case _ =>
  }

  /** What the newest success writes. */
  lemma NewestSuccessWrites(st: State, r: Request)
    requires r.ticket == st.requestId
    ensures var next := Succeeded(st, r);
      && (next.data, next.loadedKey) == (Fetched(r), Some(KeyText(r.view)))
      && (next.health, next.healthWorkspace) ==
           (if FetchesHealth(r.view) then (Some(r.view.workspace), Some(r.view.workspace))
            else (st.health, st.healthWorkspace))
  {
    hide KeyText, Fetched, Settled;
    SettledEndsWaiting(st.(inFlight := st.inFlight - {r.ticket}));
  }

  /** What the newest failure writes. */
  lemma NewestFailureWrites(st: State, r: Request)
    requires r.ticket == st.requestId
    ensures var next := Failed(st, r);
      && (next.data, next.loadedKey) ==
           (if Quiet(r) then (st.data, st.loadedKey) else (None, Some(KeyText(r.view))))
      && (next.health, next.healthWorkspace) == (st.health, st.healthWorkspace)
  {
    hide KeyText, Settled;
    SettledEndsWaiting(st.(inFlight := st.inFlight - {r.ticket}));
  }

  /** The completion of `t`, seen from what is held. */
  lemma CompletionWrites(st: State, t: nat)
    requires Inv(st) && t in st.inFlight
    ensures st.inFlight[t].ticket == t
    ensures t != st.requestId ==> forall act | act == Succeed(t) || act == Fail(t) ::
      var next := Apply(st, act);
      (next.data, next.loadedKey, next.health, next.healthWorkspace)
        == (st.data, st.loadedKey, st.health, st.healthWorkspace)
  {
    hide Apply;
    if t != st.requestId {
      OnlyTheNewestWrites(st, t);
    }
  }

  /** What is held, and under which key: the newest success holds what it fetched, the newest failure clears it
      unless it was quiet, a move clears it, and nothing else touches it. */
  lemma DataChangesExactly(st: State, act: Action)
    requires Inv(st)
    ensures var next := Apply(st, act);
      (next.data, next.loadedKey) ==
        if Completes(st, act, true) then
          var r := st.inFlight[st.requestId];
          (if r.view.nav == "ask" || (r.view.nav == "mission" && r.view.tab == "assistant") then None
           else Some(Payload(r.view, st.requestId)),
           Some(KeyText(r.view)))
        else if Completes(st, act, false) && !Quiet(st.inFlight[st.requestId])
        then (None, Some(KeyText(st.inFlight[st.requestId].view)))
        else if Moves(act) then (None, None)
        else (st.data, st.loadedKey)
  {
    hide KeyText, Begun, Cleared, Succeeded, Failed, Inv, Quiet;
    match act
    case BeginLoad(v, background) => LoadTakesExactly(st, v, background);
    case Succeed(t) =>
      if t in st.inFlight {
        CompletionWrites(st, t);
        if t == st.requestId { NewestSuccessWrites(st, st.inFlight[t]); }
      }
    case Fail(t) =>
      if t in st.inFlight {
        CompletionWrites(st, t);
        if t == st.requestId { NewestFailureWrites(st, st.inFlight[t]); }
      }
    case _ => if Moves(act) { MoveTakesExactly(st, act); }
  }

  /** The refs follow the state only when React runs the effects. */
  lemma RefsChangeExactly(st: State, act: Action)
    requires Inv(st)
    ensures var next := Apply(st, act);
      (next.dataRef, next.loadedKeyRef) ==
        if act.SyncRefs? then (st.data, st.loadedKey) else (st.dataRef, st.loadedKeyRef)
  {
    hide Begun, Cleared, Succeeded, Failed, Inv;
    match act
    case BeginLoad(v, background) => LoadTakesExactly(st, v, background);
    case Succeed(t) => CompletionTakesItsRequest(st, t, true);
    case Fail(t) => CompletionTakesItsRequest(st, t, false);
    case _ => if Moves(act) { MoveTakesExactly(st, act); }
  }

  lemma MoveKeepsHealth(st: State, act: Action)
    requires Moves(act)
    ensures Apply(st, act).health == st.health && Apply(st, act).healthWorkspace == st.healthWorkspace
  {
    hide Cleared;
    ClearedKeeps(st, true);
    ClearedKeeps(st, false);
  }

  /** Health comes from its own refresh, or with the newest success of a page that fetches it. */
  lemma HealthChangesExactly(st: State, act: Action)
    requires Inv(st)
    ensures var next := Apply(st, act);
      (next.health, next.healthWorkspace) ==
        if act.RefreshHealth? then (if act.succeeded then Some(act.workspace) else None, Some(act.workspace))
        else if Completes(st, act, true) && FetchesHealth(st.inFlight[st.requestId].view)
        then (Some(st.inFlight[st.requestId].view.workspace), Some(st.inFlight[st.requestId].view.workspace))
        else (st.health, st.healthWorkspace)
  {
    hide KeyText, Begun, Cleared, Succeeded, Failed, Inv, Quiet, FetchesHealth;
    match act
    case BeginLoad(v, background) => LoadTakesExactly(st, v, background);
    case Succeed(t) =>
      if t in st.inFlight {
        CompletionWrites(st, t);
        if t == st.requestId { NewestSuccessWrites(st, st.inFlight[t]); }
      }
    case Fail(t) =>
      if t in st.inFlight {
        CompletionWrites(st, t);
        if t == st.requestId { NewestFailureWrites(st, st.inFlight[t]); }
      }
    case _ => if Moves(act) { MoveKeepsHealth(st, act); }
  }

  /** Once the dashboard has moved, nothing it held is shown, no failure either, and every request that was in
      flight is overtaken: whichever of them completes now, the screen stays as the move left it. */
  lemma AMoveLeavesNothingBehind(st: State, act: Action, t: nat, succeeded: bool)
    requires Inv(st) && Moves(act) && t in st.inFlight
    ensures var next := Apply(st, act);
      var late := Apply(next, if succeeded then Succeed(t) else Fail(t));
      && Shown(next) == None && !next.failed && t in next.inFlight && t < next.requestId
      && late == next.(inFlight := next.inFlight - {t})
  {
    hide KeyText, WritersIncrease, DataHasItsKey, HealthHasItsWorkspace;
    hide Apply;
    MoveTakesExactly(st, act);
    InvStep(st, act);
    OnlyTheNewestWrites(Apply(st, act), t);
    CompletionTakesItsRequest(Apply(st, act), t, succeeded);
  }
}
