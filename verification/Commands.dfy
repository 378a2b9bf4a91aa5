// What single commands amount to, in the words of the protocol: adoption of a reported summary,
// the end of the loop, and the notices passed on to clients.
module Commands {
  import opened Common
  import opened Request
  import opened Turns
  import opened SessionLog
  import opened Replay
  import opened LoopSpec
  import opened Accounting
  import opened World
  import opened Theorems
  import opened Runs

  /**
   * A settle of the active turn adopts what its worker reported exactly when it reported
   * something and the turn completes without having been cancelled.
   */
  lemma {:induction false} AdoptedExactly(actions: seq<Action>, turn: Turn, result: TurnResult)
    requires LegalRun(START, actions)
    requires turn in Run(START, actions).Turns() && turn.state == Active
    ensures
      var w := Run(START, actions);
      var reported := w.loop.pendingCompaction;
      SettleTurnOf(w.loop, turn.id, result).compaction
      == if reported.Some? && turn.id !in w.doomed && result.kind == Completed then reported.value.1
         else w.loop.compaction
  {
    hide Inv, LegalRun, Run, SettleTurnOf;
    var w := Run(START, actions);
    Reached(actions);
    ActiveIdOf(w, turn);
    SettleCompaction(w, turn.id, result);
    CancellingIsDoomed(w, turn.id);
    ReportedForActive(w, turn.id);
  }

  lemma {:induction false} ReportedForActive(w: World, id: TurnId)
    requires Inv(w) && ActiveId(w.Turns()) == Some(id)
    ensures w.loop.pendingCompaction.Some? ==> w.loop.pendingCompaction.value.0 == id
  {
    hide Core, Working;
  }

  /** A worker's report reaches the coordinator as its own command. */
  lemma {:induction false} ReportIsHandled(w: World, tailBudget: nat, summary: string, env: Env)
    requires Legal(w, WorkerCompacts(tailBudget, summary))
    ensures
      var plan := WorkerPlan(w, tailBudget).value;
      var report := CompactedBy(w.loop.worker.value.turnId, CompactionState(Some(summary), plan.newCoveredThroughSeq));
      Step(w, WorkerCompacts(tailBudget, summary)).loop == Handle(w.loop, report, env)
  {
  }

  // ---- Winding down ----

  /** Takes in or starts a turn. */
  predicate Begins(event: ConversationEvent) {
    event.EnqueuedEvent? || event.ActivatedEvent?
  }

  /** The loop is still ending, and nothing was taken in or started. */
  ghost predicate WindsDown(s: Loop, later: Loop) {
    && later.IsShuttingDown() && s.events <= later.events
    && forall i | |s.events| <= i < |later.events| :: !Begins(later.events[i])
  }

  lemma {:induction false} WindsDownTrans(a: Loop, b: Loop, c: Loop)
    requires WindsDown(a, b) && WindsDown(b, c)
    ensures WindsDown(a, c)
  {
  }

  lemma {:induction false} RemovalsWindDown(s: Loop, ids: seq<TurnId>)
    requires s.IsShuttingDown()
    ensures WindsDown(s, RemoveEach(s, ids))
  {
    hide Disk.OnSettle, Retain;
    if ids != [] {
      RemovalsWindDown(s, ids[..|ids| - 1]);
    }
  }

  lemma {:induction false} SettleWindsDown(s: Loop, id: TurnId, result: TurnResult)
    requires s.IsShuttingDown()
    ensures WindsDown(s, SettleTurnOf(s, id, result))
  {
    hide SettleOne;
    if ActiveId(s.queue.turns) == Some(id) {
      SettledWhileEnding(s, id, result);
      assert SettleTurnOf(s, id, result) == Advance(SettleOne(s, id, result));
    }
  }

  lemma {:induction false} SettledWhileEnding(s: Loop, id: TurnId, result: TurnResult)
    requires s.IsShuttingDown()
    ensures SettleOne(s, id, result).IsShuttingDown()
    ensures SettleOne(s, id, result).events == s.events + [SettledTurn(id, ForcedResult(s, id, result))]
  {
    hide CompletedHistory, SettledActive, Disk.OnSettle, Disk.AppendToCurrent;
  }

  lemma {:induction false} HandleWindsDown(s: Loop, command: Command, env: Env)
    requires s.IsShuttingDown()
    ensures WindsDown(s, Handle(s, command, env))
  {
    hide SettleTurnOf, RemoveEach, Disk.OnClear, Retain, Disk.AppendToCurrent;
    match command
    case Settle(id, result) => SettleWindsDown(s, id, result);
    case Stop => RemovalsWindDown(s, PendingIds(s.queue.turns));
    case _ =>
  }

  lemma {:induction false} RunWindsDown(w: World, actions: seq<Action>)
    requires LegalRun(w, actions) && w.loop.IsShuttingDown() && forall a | a in actions :: !a.Restart?
    ensures WindsDown(w.loop, Run(w, actions).loop) && Run(w, actions).submitted == w.submitted
    decreases |actions|
  {
    hide Legal, Step, WindsDown;
    if actions == [] {
      StillWinding(w.loop);
    } else {
      assert actions[0] in actions && forall a | a in actions[1..] :: a in actions;
      StepWindsDown(w, actions[0]);
      RunWindsDown(Step(w, actions[0]), actions[1..]);
      WindsDownTrans(w.loop, Step(w, actions[0]).loop, Run(w, actions).loop);
    }
  }

  lemma {:induction false} StillWinding(s: Loop)
    requires s.IsShuttingDown()
    ensures WindsDown(s, s)
  {
  }

  lemma {:induction false} StepWindsDown(w: World, action: Action)
    requires Legal(w, action) && w.loop.IsShuttingDown() && !action.Restart?
    ensures WindsDown(w.loop, Step(w, action).loop) && Step(w, action).loop.IsShuttingDown()
    ensures Step(w, action).submitted == w.submitted
  {
    hide Handle, WorkerPlan, Restored, World.Doom, StoppedBy, SettledHeads;
    DoomOnlyAdds(w);
    if action.Do? {
      HandleWindsDown(w.loop, action.command, action.env);
    }
  }

  /**
   * After the shutdown command, or once the flag was raised, the loop stays on its way out until
   * the process ends: no submission is taken in and no turn starts any more.
   */
  lemma {:induction false} ShutdownIsFinal(before: seq<Action>, action: Action, more: seq<Action>)
    requires LegalRun(START, before) && LegalRun(START, before + ([action] + more))
    requires action.SignalShutdown? || (action.Do? && action.command.Shutdown?)
    requires forall a | a in more :: !a.Restart?
    ensures
      var w, later := Run(START, before), Run(START, before + ([action] + more));
      WindsDown(w.loop, later.loop) && later.submitted == w.submitted
  {
    hide Inv, Legal, LegalRun, Run, WindsDown, Retain, PendingSet;
    RunAround(before, action, more);
    var w := Run(START, before);
    RunWindsDown(Step(w, action), more);
    EndsNow(w, action, Run(Step(w, action), more).loop);
  }

  lemma {:induction false} EndsNow(w: World, action: Action, later: Loop)
    requires Legal(w, action) && (action.SignalShutdown? || (action.Do? && action.command.Shutdown?))
    requires WindsDown(Step(w, action).loop, later)
    ensures WindsDown(w.loop, later)
  {
    hide Retain;
  }

  // ---- Notices ----

  /** A generated title is announced and logged exactly when its session is still attached. */
  lemma {:induction false} TitleIsAdopted(s: Loop, session: SessionId, summary: string, env: Env)
    requires s.disk.current.Some? ==> s.disk.current.value in s.disk.logs
    ensures
      var later := Handle(s, SetSessionSummary(session, summary), env);
      if s.disk.current == Some(session) then
        && later.events == s.events + [SummaryUpdated(session, summary)]
        && later.disk.logs == s.disk.logs[session := s.disk.logs[session] + [SummaryGenerated(summary)]]
      else later == s
  {
  }

  /** A worker's notice that it starts or ends a summary is passed on, and changes nothing else. */
  lemma {:induction false} StatusIsPassedOn(s: Loop, id: TurnId, active: bool, env: Env)
    ensures Handle(s, CompactionStatus(id, active), env) == s.(events := s.events + [CompactionStatusEvent(id, active)])
  {
  }

  /** What a log line says of each kind of result. */
  lemma {:induction false} SettledLines(
    id: TurnId, text: string, reason: Option<string>, kind: string, message: string)
    ensures SettledEvent(id, CompletedResult(text, reason))
            == TurnSettled(id, "completed", Some(text), reason, None, None)
    ensures SettledEvent(id, ErrorResult(kind, message))
            == TurnSettled(id, "error", None, None, Some(kind), Some(message))
    ensures SettledEvent(id, NeedsConfigurationResult(message))
            == TurnSettled(id, "needsConfiguration", None, None, Some("needsConfiguration"), Some(message))
    ensures SettledEvent(id, CANCELLED)
            == TurnSettled(id, "cancelled", None, None, Some("cancelled"), Some("turn cancelled"))
  {
  }

  /** A refused submission says which of its four writes failed. */
  lemma {:induction false} RefusalsTellWhy()
    ensures FaultMessage(StartAppendFault) == "could not append session-start event"
    ensures FaultMessage(StartRowFault) == "could not upsert session row"
    ensures FaultMessage(EnqueueAppendFault) == "could not append turn-enqueued event"
    ensures FaultMessage(EnqueueRowFault) == "could not update session row"
  {
  }
}
