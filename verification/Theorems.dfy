// What the invariant means, stated for every run of the coordinator from an empty disk.
module Theorems {
  import opened Common
  import opened Request
  import opened CompactionPlan
  import opened Turns
  import opened SessionLog
  import opened Replay
  import opened LoopSpec
  import opened QueueShape
  import opened LogInvariant
  import opened Accounting
  import opened Attachment
  import opened World
  import opened WorldSteps
  import opened Growth

  lemma {:induction false} Reached(actions: seq<Action>)
    requires LegalRun(START, actions)
    ensures Inv(Run(START, actions))
  {
    StartInv();
    RunKeeps(START, actions);
  }

  // ---- Replay refines live memory ----

  /** What a resume would make of a live turn. */
  ghost predicate ReplaysAs(turn: Turn, cancelling: Option<TurnId>, restored: seq<Turn>) {
    if turn.state == Settled then
      turn in restored || (Absent(restored, turn.id) && turn.result == Some(CANCELLED))
    else
      || turn.(state := Settled, result := Some(INTERRUPTED)) in restored
      || (Absent(restored, turn.id) && turn.state == Active && cancelling == Some(turn.id))
  }

  lemma {:induction false} LinkedReplays(
    folded: seq<Turn>, sessions: map<TurnId, SessionId>, session: SessionId, cancelling: Option<TurnId>, turn: Turn)
    requires Linked(folded, sessions, session, cancelling, turn) && WellStated(turn)
    ensures ReplaysAs(turn, cancelling, InterruptAll(folded))
  {
    if Absent(folded, turn.id) {
      AbsentInterrupted(folded, turn.id);
    } else if turn.state != Settled {
      InterruptMembers(folded, turn.(state := Pending));
    }
  }

  lemma {:induction false} AbsentInterrupted(folded: seq<Turn>, id: TurnId)
    requires Absent(folded, id)
    ensures Absent(InterruptAll(folded), id)
  {
    forall t | t in InterruptAll(folded)
      ensures t.id != id
    {
      var i := InterruptedFrom(folded, t);
      assert folded[i] in folded;
    }
  }

  /**
   * Replay refines live memory: at every moment, reading the attached log back gives the
   * live compaction and the live completed rounds. A settled turn comes back as it is and
   * an open one as interrupted; only an abandoned, cancelled turn of a cleared session has
   * no entry. Without an attached log there is nothing to come back.
   */
  lemma {:induction false} ReplayRefinesLive(actions: seq<Action>)
    requires LegalRun(START, actions)
    ensures
      var w := Run(START, actions);
      match w.loop.disk.current
      case None => CompletedRounds(w.Turns()) == [] && w.loop.compaction == NO_COMPACTION
      case Some(session) =>
        && session in w.Logs()
        && Restored(w.Logs()[session]).compaction == w.loop.compaction
        && CompletedRounds(Restored(w.Logs()[session]).turns) == CompletedRounds(w.Turns())
        && forall t | t in w.Turns() :: ReplaysAs(t, w.loop.cancelling, Restored(w.Logs()[session]).turns)
  {
    var w := Run(START, actions);
    Reached(actions);
    AttachedReplays(LiveOf(w.loop), w.loop.disk);
  }

  lemma {:induction false} AttachedReplays(live: Live, disk: Disk)
    requires Attached(live, disk) && Shaped(live.queue)
    ensures
      match disk.current
      case None => CompletedRounds(live.queue.turns) == [] && live.compaction == NO_COMPACTION
      case Some(session) =>
        && session in disk.logs
        && Restored(disk.logs[session]).compaction == live.compaction
        && CompletedRounds(Restored(disk.logs[session]).turns) == CompletedRounds(live.queue.turns)
        && forall t | t in live.queue.turns :: ReplaysAs(t, live.cancelling, Restored(disk.logs[session]).turns)
  {
    hide Fold, CompletedRounds, Linked, ReplaysAs;
    if disk.current.Some? {
      var session := disk.current.value;
      var folded := Fold(disk.logs[session]).turns;
      RoundsInterrupted(folded);
      forall t | t in live.queue.turns
        ensures ReplaysAs(t, live.cancelling, InterruptAll(folded))
      {
        LinkedReplays(folded, disk.turnSessions, session, live.cancelling, t);
      }
    }
  }

  /** A turn removed by Stop replays as cancelled, from then on and in the session it was queued in. */
  lemma {:induction false} StoppedReplayCancelledFrom(w: World, env: Env, more: seq<Action>, turn: Turn)
    requires Inv(w) && Legal(w, Do(Stop, env)) && LegalRun(Step(w, Do(Stop, env)), more)
    requires turn in w.Turns() && turn.state == Pending
    ensures
      var later := Run(Step(w, Do(Stop, env)), more);
      && w.loop.disk.current.Some? && w.loop.disk.current.value in later.Logs()
      && exists t :: && t in Restored(later.Logs()[w.loop.disk.current.value]).turns
                     && t.id == turn.id && t.result == Some(CANCELLED)
  {
    hide Inv, Step, Run, ReplaysCancelled, Restored, LogsExtend, Legal;
    var after := Step(w, Do(Stop, env));
    StopRecords(w, turn);
    StepRecords(w, Stop, env);
    StepKeeps(w, Do(Stop, env));
    RunKeeps(after, more);
    StoppedReplays(after, turn.id);
    CancelledStays(after.Logs(), Run(after, more).Logs(), w.loop.disk.current.value, turn.id);
  }

  lemma {:induction false} StepRecords(w: World, command: Command, env: Env)
    requires Legal(w, Do(command, env))
    ensures Step(w, Do(command, env)).stopped == Record(w, command).stopped
  {
    hide Handle, Record, PlanFor;
  }

  lemma {:induction false} StopRecords(w: World, turn: Turn)
    requires Inv(w) && turn in w.Turns() && turn.state == Pending
    ensures w.loop.disk.current.Some?
    ensures
      var stopped := Record(w, Stop).stopped;
      turn.id in stopped && stopped[turn.id] == w.loop.disk.current.value
  {
    hide Core, StopTurns;
    PendingOwned(w);
    assert turn.id in PendingSet(w.Turns());
  }

  lemma {:induction false} StoppedReplays(w: World, id: TurnId)
    requires Inv(w) && id in w.stopped
    ensures w.stopped[id] in w.Logs() && ReplaysCancelled(w.Logs()[w.stopped[id]], id)
  {
    hide Shaped, LogsKept, Attached, ConfigsKept, Accounted, DoomKept;
  }

  lemma {:induction false} CancelledStays(logs: Logs, later: Logs, session: SessionId, id: TurnId)
    requires LogsExtend(logs, later) && session in logs && ReplaysCancelled(logs[session], id)
    ensures session in later
    ensures exists t :: t in Restored(later[session]).turns && t.id == id && t.result == Some(CANCELLED)
  {
    var t :| t in Fold(logs[session]).turns && t.id == id && t.state == Settled && t.result == Some(CANCELLED);
    InterruptMembers(Fold(later[session]).turns, t);
  }

  // ---- Compaction conserves history ----

  /**
   * In every session log of every run: the completed rounds are the heads of the adopted
   * compactions, one after the other, followed by the rounds still sent verbatim. They are
   * strictly ascending, so none is lost, folded twice or sent both ways.
   */
  lemma {:induction false} CompactionConservesLogs(actions: seq<Action>, session: SessionId)
    requires LegalRun(START, actions) && session in Run(START, actions).Logs()
    ensures
      var w := Run(START, actions);
      && LogRounds(w.Logs()[session]) == Flatten(HeadsAt(w.heads, session)) + LogTail(w.Logs()[session])
      && Ascending(LogRounds(w.Logs()[session]))
  {
    var w := Run(START, actions);
    Reached(actions);
    LogKept(w, session);
    RoundsAscending(Fold(w.Logs()[session]).turns);
  }

  /** Every log of every run is such that reading completed rounds off it is exact. */
  lemma {:induction false} LogsAreOrderly(actions: seq<Action>, session: SessionId)
    requires LegalRun(START, actions) && session in Run(START, actions).Logs()
    ensures Orderly(Run(START, actions).Logs()[session])
  {
    hide Run, LegalRun, Orderly, Fold;
    Reached(actions);
    LogKept(Run(START, actions), session);
  }

  /** The same for live memory: heads, then exactly the history the next turn is handed. */
  lemma {:induction false} CompactionConservesLive(actions: seq<Action>)
    requires LegalRun(START, actions)
    ensures
      var w := Run(START, actions);
      var heads := if w.loop.disk.current.Some? then HeadsAt(w.heads, w.loop.disk.current.value) else [];
      CompletedRounds(w.Turns()) == Flatten(heads) + CompletedHistory(w.Turns(), w.loop.compaction)
  {
    var w := Run(START, actions);
    hide Run, LegalRun, Fold, CompletedRounds;
    Reached(actions);
    InvAttached(w);
    HistoryIsUncovered(w.Turns(), w.loop.compaction);
    if w.loop.disk.current.Some? {
      LogKept(w, w.loop.disk.current.value);
    }
  }

  lemma {:induction false} InvAttached(w: World)
    requires Inv(w)
    ensures Core(w) && Attached(LiveOf(w.loop), w.loop.disk) && Shaped(w.loop.queue)
  {
  }

  /**
   * An adopting settle moves the boundary strictly forward, past rounds that were sent
   * verbatim until now and that the summary was made of.
   */
  lemma {:induction false} AdoptionAdvancesAt(w: World, id: TurnId, result: TurnResult)
    requires Inv(w) && ActiveId(w.Turns()) == Some(id) && Adopts(w.loop, id, result)
    ensures w.loop.cancelling == None && result.kind == Completed
    ensures
      var prior, adopted := w.loop.compaction, w.loop.pendingCompaction.value.1;
      && SettleTurnOf(w.loop, id, result).compaction == adopted
      && adopted.summary.Some?
      && (prior.summary.Some? ==> prior.coveredThroughSeq < adopted.coveredThroughSeq)
      && w.offered != []
      && CompletedHistory(w.Turns(), prior) == w.offered + CompletedHistory(w.Turns(), adopted)
  {
    hide Attached, LogsKept, Accounted, DoomKept, Fold, SettleTurnOf, CompletedHistory;
    var job, state := w.loop.worker.value, w.loop.pendingCompaction.value.1;
    assert Reported(job, state, w.offered);
    var tailBudget: nat :| PlanFor(job.history, job.compaction, tailBudget)
                           == Some(Plan(state.coveredThroughSeq, w.offered));
    CoreOrdered(w);
    AdoptedPlan(w.Turns(), w.loop.compaction, Plan(state.coveredThroughSeq, w.offered), tailBudget,
                state.summary.value);
    SettleCompaction(w, id, result);
  }

  lemma {:induction false} AdoptedPlan(
      turns: seq<Turn>, prior: CompactionState, plan: Plan, tailBudget: nat, summary: string)
    requires Ordered(turns)
    requires PlanFor(CompletedHistory(turns, prior), prior, tailBudget) == Some(plan)
    ensures
      var adopted := CompactionState(Some(summary), plan.newCoveredThroughSeq);
      && (prior.summary.Some? ==> prior.coveredThroughSeq < adopted.coveredThroughSeq)
      && plan.head != []
      && CompletedHistory(turns, prior) == plan.head + CompletedHistory(turns, adopted)
  {
    hide Uncovered, CompletedRounds, HeadEnd;
    var rounds := CompletedRounds(turns);
    HistoryIsUncovered(turns, prior);
    HistoryIsUncovered(turns, CompactionState(Some(summary), plan.newCoveredThroughSeq));
    RoundsAscending(turns);
    UncoveredIdempotent(rounds, prior);
    SplitIsOptimal(rounds, prior, tailBudget);
    AdoptionSplitsHistory(rounds, prior, tailBudget, summary);
  }

  /** The summary in force after a settle: the reported one if adopted, else the one before. */
  lemma {:induction false} SettleCompaction(w: World, id: TurnId, result: TurnResult)
    requires Inv(w) && ActiveId(w.Turns()) == Some(id)
    ensures SettleTurnOf(w.loop, id, result).compaction
            == if Adopts(w.loop, id, result) then w.loop.pendingCompaction.value.1 else w.loop.compaction
  {
    hide Core, SettleOne;
    SettledState(w, id, result);
    var settled := SettleOne(w.loop, id, result);
    if !w.loop.IsShuttingDown() {
      DrainRuns(settled);
    }
  }

  /** Between the settle and the next start. */
  lemma {:induction false} SettledState(w: World, id: TurnId, result: TurnResult)
    requires Inv(w) && ActiveId(w.Turns()) == Some(id)
    ensures
      var settled := SettleOne(w.loop, id, result);
      && ActiveId(settled.queue.turns) == None && PendingIds(settled.queue.turns) == PendingIds(w.Turns())
      && NoRepeats(PendingIds(settled.queue.turns))
      && settled.events == w.loop.events + [SettledTurn(id, ForcedResult(w.loop, id, result))]
      && settled.cancelling == None && settled.pendingCompaction == None && settled.worker == None
      && settled.configs == w.loop.configs && settled.IsShuttingDown() == w.loop.IsShuttingDown()
      && settled.compaction
         == if Adopts(w.loop, id, result) then w.loop.pendingCompaction.value.1 else w.loop.compaction
  {
    hide Base, Accounted, DoomKept, CompletedHistory, Disk.OnSettle, Disk.AppendToCurrent, SettledActive, PendingIds,
         Ordered;
    CoreOrdered(w);
    var i := FirstIn(w.Turns(), Active);
    PendingArePending(w.Turns());
    SettleOneKeepsPending(w.loop, id, result);
    SettledPending(w.Turns(), i, id, ForcedResult(w.loop, id, result));
    SettleOneFields(w.loop, id, result);
  }

  lemma {:induction false} SettledPending(turns: seq<Turn>, i: nat, id: TurnId, result: TurnResult)
    requires Ordered(turns) && ActiveId(turns) == Some(id)
    ensures PendingIds(SettledActive(turns, id, result)) == PendingIds(turns)
    ensures ActiveId(SettledActive(turns, id, result)) == None
  {
    var i := FirstIn(turns, Active);
    ActiveIsUnique(turns, i);
    PendingIdsReplaced(turns, i, turns[i].(state := Settled, result := Some(result)));
  }

  lemma {:induction false} PendingIdsReplaced(turns: seq<Turn>, i: nat, turn: Turn)
    requires i < |turns| && turns[i].state != Pending && turn.state != Pending
    ensures PendingIds(turns[i := turn]) == PendingIds(turns)
  {
    var n := |turns| - 1;
    if i == n {
      assert turns[i := turn][..n] == turns[..n];
    } else {
      assert turns[i := turn][..n] == turns[..n][i := turn];
      PendingIdsReplaced(turns[..n], i, turn);
    }
  }

  // ---- Settling, starting and missing configs ----

  /** The active turn is being cancelled exactly when it was cancelled at some time. */
  lemma {:induction false} CancellingIsDoomed(w: World, id: TurnId)
    requires Inv(w) && ActiveId(w.Turns()) == Some(id)
    ensures w.loop.cancelling == Some(id) <==> id in w.doomed
  {
    var turn := ActiveTurnOf(w.Turns(), id);
  }

  /** Text is passed on exactly for the active turn and exactly until it is cancelled. */
  lemma {:induction false} TextIsEmittedExactlyAt(w: World, id: TurnId, text: string)
    requires Inv(w)
    ensures EmitDelta(w.loop, id, text).events
            == w.loop.events + if ActiveId(w.Turns()) == Some(id) && id !in w.doomed then [DeltaEvent(id, text)] else []
  {
    hide Core;
    assert w.loop.events + [] == w.loop.events;
    if ActiveId(w.Turns()) == Some(id) {
      CancellingIsDoomed(w, id);
    }
  }

  /** A settled turn stays in the queue with the result its event carries. */
  lemma {:induction false} SettledTurnIsKeptAt(w: World, turn: Turn, result: TurnResult)
    requires Inv(w) && turn in w.Turns() && turn.state == Active
    ensures
      var later := SettleTurnOf(w.loop, turn.id, result).queue.turns;
      turn.(state := Settled, result := Some(if turn.id in w.doomed then CANCELLED else result)) in later
  {
    hide Core, SettleTurnOf;
    CoreOrdered(w);
    var k :| 0 <= k < |w.Turns()| && w.Turns()[k] == turn;
    ActiveIsUnique(w.Turns(), k);
    CancellingIsDoomed(w, turn.id);
    SettledIsIn(w.loop, turn, result);
  }

  lemma {:induction false} DrainedSame(
      pending: seq<TurnId>, a: map<TurnId, Option<Config>>, b: map<TurnId, Option<Config>>)
    requires forall id | id in pending :: Configured(a, id) <==> Configured(b, id)
    ensures DrainedEvents(pending, a) == DrainedEvents(pending, b)
    ensures FirstConfigured(pending, a) == FirstConfigured(pending, b)
  {
    if pending != [] {
      assert pending[0] in pending;
      assert forall id | id in pending[1..] :: id in pending;
      DrainedSame(pending[1..], a, b);
    }
  }

  /**
   * What the settle of the active turn emits, in full: its own result, or Cancelled if it was
   * cancelled before, then one refusal for every queued turn submitted without a config, in
   * order, up to the first one submitted with a config, which gets the worker. Nothing starts
   * while the loop is ending.
   */
  lemma {:induction false} SettleDrainsAt(w: World, id: TurnId, result: TurnResult)
    requires Inv(w) && ActiveId(w.Turns()) == Some(id)
    ensures
      var later := SettleTurnOf(w.loop, id, result);
      var own := [SettledTurn(id, if id in w.doomed then CANCELLED else result)];
      var pending := if w.loop.IsShuttingDown() then [] else PendingIds(w.Turns());
      && later.events == w.loop.events + own + DrainedEvents(pending, w.submitted)
      && ActiveId(later.queue.turns) == FirstConfigured(pending, w.submitted)
      && (later.worker.Some? <==> FirstConfigured(pending, w.submitted).Some?)
      && (later.worker.Some? ==> FirstConfigured(pending, w.submitted) == Some(later.worker.value.turnId)
                                 && w.submitted[later.worker.value.turnId] == Some(later.worker.value.config))
  {
    hide Core, SettleOne, PendingIds, DrainedEvents, FirstConfigured;
    SettledState(w, id, result);
    CancellingIsDoomed(w, id);
    var settled := SettleOne(w.loop, id, result);
    NothingDrained(w.submitted);
    if !w.loop.IsShuttingDown() {
      DrainRuns(settled);
      PendingConfigs(w);
      DrainedSame(PendingIds(w.Turns()), w.loop.configs, w.submitted);
    }
  }

  /**
   * A turn taken in while nothing is active starts at once: it gets the worker exactly when
   * it was submitted with a config, and is refused in the same step when it was not.
   */
  lemma {:induction false} EnqueueStartsAt(w: World, id: TurnId, prompt: string, config: Option<Config>, env: Env)
    requires Inv(w) && Legal(w, Do(Enqueue(id, prompt, config), env)) && !w.loop.IsShuttingDown()
    requires w.loop.disk.EnqueueSucceeds(env) && !HasActive(w.Turns())
    ensures
      var later := EnqueueTurn(w.loop, id, prompt, config, env);
      && later.events == w.loop.events + [EnqueuedEvent(id, w.loop.queue.nextSeq, Active)]
                         + (if config.Some? then [] else [SettledTurn(id, NEEDS_CONFIGURATION)])
      && (if config.Some? then
              later.worker.Some? && later.worker.value.turnId == id && later.worker.value.config == config.value
          else later.worker.None? && ActiveId(later.queue.turns).None?)
  {
    hide Base, Accounted, DoomKept, LogsExtend, Submit, SettleOne, Spawn;
    SubmitStarting(w, id, prompt, config, env);
    KnownElsewhere(w, id);
    SubmitFields(w.loop, id, prompt, config, env);
    var started := Submit(w.loop, id, prompt, config, env);
    SpawnFields(started.(configs := started.configs - {id}), id);
    if config.None? {
      RefusedAlone(w, started, id, Turn(id, w.loop.queue.nextSeq, prompt, Active, None));
    }
  }

  lemma {:induction false} KnownElsewhere(w: World, id: TurnId)
    requires Core(w) && id !in w.submitted
    ensures forall t | t in w.Turns() :: t.id != id
  {
  }

  lemma {:induction false} SpawnFields(s: Loop, id: TurnId)
    ensures forall config :: Spawn(s, id, config).events == s.events
    ensures forall config :: Spawn(s, id, config).worker.Some?
              && Spawn(s, id, config).worker.value.turnId == id && Spawn(s, id, config).worker.value.config == config
  {
  }

  lemma {:induction false} RefusedAlone(w: World, started: Loop, id: TurnId, turn: Turn)
    requires Inv(w) && !w.loop.IsShuttingDown() && !HasActive(w.Turns())
    requires started.queue.turns == w.Turns() + [turn] && turn.state == Active && turn.id == id
    requires started.cancelling == None && ActiveId(started.queue.turns) == Some(id)
    requires id in started.configs && started.configs[id].None?
    ensures
      var later := StartActive(started, id);
      later.events == started.events + [SettledTurn(id, NEEDS_CONFIGURATION)]
      && later.worker.None? && ActiveId(later.queue.turns).None?
  {
    hide Core, SettleOne, SettledActive;
    var s := started.(configs := started.configs - {id});
    IdleIsSettled(w);
    SettleOneGrows(s, id, NEEDS_CONFIGURATION);
    SettleOneKeepsPending(s, id, NEEDS_CONFIGURATION);
    SettleOneFields(s, id, NEEDS_CONFIGURATION);
    AloneSettled(w.Turns(), turn, NEEDS_CONFIGURATION);
    assert StartActive(started, id) == SettleTurnOf(s, id, NEEDS_CONFIGURATION);
    assert SettleTurnOf(s, id, NEEDS_CONFIGURATION) == Advance(SettleOne(s, id, NEEDS_CONFIGURATION));
    assert Advance(SettleOne(s, id, NEEDS_CONFIGURATION)) == SettleOne(s, id, NEEDS_CONFIGURATION);
  }

  lemma {:induction false} AloneSettled(turns: seq<Turn>, turn: Turn, result: TurnResult)
    requires turn.state == Active && forall t | t in turns :: t.state == Settled
    ensures
      var after := SettledActive(turns + [turn], turn.id, result);
      FirstPending(after).None? && ActiveId(after).None?
  {
    var all := turns + [turn];
    assert forall i | 0 <= i < |turns| :: all[i] in turns;
    OnlyActive(all, |turns|);
  }

  lemma {:induction false} NothingDrained(configs: map<TurnId, Option<Config>>)
    ensures DrainedEvents([], configs) == [] && FirstConfigured([], configs) == None
  {
  }

  lemma {:induction false} PendingConfigs(w: World)
    requires Inv(w)
    ensures forall id | id in PendingIds(w.Turns()) ::
              id in w.loop.configs && id in w.submitted && w.loop.configs[id] == w.submitted[id]
  {
    hide Attached, LogsKept, Accounted, DoomKept, CompletedHistory;
    CoreOrdered(w);
    PendingIdsAre(w.Turns());
    forall id | id in PendingIds(w.Turns())
      ensures id in w.loop.configs && id in w.submitted && w.loop.configs[id] == w.submitted[id]
    {
      assert id in ToSet(PendingIds(w.Turns()));
    }
  }

  // ---- Queue shape ----

  /**
   * On every run the queue reads settled*, active?, pending* with strictly increasing
   * numbers below the next one, and while the loop is open a pending turn waits behind an
   * active one.
   */
  lemma {:induction false} QueueShapeOnRuns(actions: seq<Action>)
    requires LegalRun(START, actions)
    ensures
      var w := Run(START, actions);
      var turns := w.Turns();
      && (forall i, j | 0 <= i < j < |turns| ::
            && turns[i].seqNo < turns[j].seqNo < w.loop.queue.nextSeq
            && turns[i].id != turns[j].id
            && (turns[i].state == Settled || turns[j].state == Pending))
      && (!w.loop.IsShuttingDown() && (exists t :: t in turns && t.state == Pending) ==> HasActive(turns))
  {
    var w := Run(START, actions);
    hide Run, LegalRun, Inv, Quiet, Running;
    Reached(actions);
    OpenQueueActive(w);
    ShapeSpelledOut(w.loop.queue);
  }

  lemma {:induction false} ShapeSpelledOut(queue: Queue)
    requires Shaped(queue)
    ensures
      var turns := queue.turns;
      forall i, j | 0 <= i < j < |turns| ::
        && turns[i].seqNo < turns[j].seqNo < queue.nextSeq
        && turns[i].id != turns[j].id
        && (turns[i].state == Settled || turns[j].state == Pending)
  {
    var turns := queue.turns;
    assert forall i | 0 <= i < |turns| :: turns[i] in turns;
    assert forall i, j | 0 <= i < j < |turns| :: Before(turns[i], turns[j]);
  }

  lemma {:induction false} OpenQueueActive(w: World)
    requires Inv(w)
    ensures Shaped(w.loop.queue)
    ensures !w.loop.IsShuttingDown() && !HasActive(w.Turns()) ==> forall t | t in w.Turns() :: t.state == Settled
  {
    hide Base, Accounted, DoomKept, CompletedHistory;
    CoreOrdered(w);
    if !w.loop.IsShuttingDown() {
      IdleIsSettled(w);
    }
  }

  /** Every action but a resume or a new process. */
  predicate Ongoing(action: Action) {
    !action.Restart? && !(action.Do? && action.command.ResumeSession?)
  }

  lemma {:induction false} StepGrows(w: World, action: Action)
    requires Legal(w, action) && Ongoing(action)
    ensures Grows(w.loop, Step(w, action).loop)
  {
    hide Evolves, Handle, PlanFor;
    if action.Do? {
      HandleGrows(w.loop, action.command, action.env);
    } else {
      GrowsStill(w.loop, Step(w, action).loop);
    }
  }

  lemma {:induction false} FrontierRises(w: World, actions: seq<Action>)
    requires Inv(w) && LegalRun(w, actions) && forall a | a in actions :: Ongoing(a)
    ensures Frontier(w.loop.queue) <= Frontier(Run(w, actions).loop.queue)
    decreases |actions|
  {
    hide Core, Step, Frontier, Grows, LogsExtend;
    if actions != [] {
      var next := Step(w, actions[0]);
      assert actions[0] in actions;
      assert forall a | a in actions[1..] :: a in actions;
      StepKeeps(w, actions[0]);
      FrontierStep(w, actions[0]);
      FrontierRises(next, actions[1..]);
    }
  }

  lemma {:induction false} FrontierStep(w: World, action: Action)
    requires Inv(w) && Legal(w, action) && Ongoing(action)
    ensures Inv(Step(w, action))
    ensures Frontier(w.loop.queue) <= Frontier(Step(w, action).loop.queue)
    ensures forall t | StartedBetween(w.loop.queue, Step(w, action).loop.queue, t) ::
              Frontier(w.loop.queue) <= t.seqNo < Frontier(Step(w, action).loop.queue)
  {
    hide Core, Step, Frontier, Evolves, LogsExtend, Legal;
    StepKeeps(w, action);
    StepGrows(w, action);
    CoreOrdered(w);
    CoreOrdered(Step(w, action));
    StartsBetweenFrontiers(w.loop.queue, Step(w, action).loop.queue);
  }

  /** Between resumes, a turn that starts later has the larger number. */
  lemma {:induction false} StartsInOrderFrom(
      w: World, first: Action, between: seq<Action>, second: Action, a: Turn, b: Turn)
    requires Inv(w) && Legal(w, first) && LegalRun(Step(w, first), between)
    requires Legal(Run(Step(w, first), between), second)
    requires Ongoing(first) && Ongoing(second) && forall x | x in between :: Ongoing(x)
    requires StartedBetween(w.loop.queue, Step(w, first).loop.queue, a)
    requires
      var middle := Run(Step(w, first), between);
      StartedBetween(middle.loop.queue, Step(middle, second).loop.queue, b)
    ensures a.seqNo < b.seqNo
  {
    hide Inv, Step, Frontier, LogsExtend, Legal, StartedBetween;
    var next := Step(w, first);
    var middle := Run(next, between);
    FrontierStep(w, first);
    FrontierRises(next, between);
    RunKeeps(next, between);
    FrontierStep(middle, second);
  }

  // ---- Every turn is somewhere ----

  /**
   * Every submitted turn is in exactly one place: queued, ended by one event, dropped by
   * Clear or Shutdown, or lost with a process; and no turn ends twice.
   */
  lemma {:induction false} TurnsConserved(actions: seq<Action>)
    requires LegalRun(START, actions)
    ensures
      var w := Run(START, actions);
      && w.submitted.Keys == Open(w.Turns()) + ToSet(Ended(w.loop.events)) + w.dropped + w.lost
      && Open(w.Turns()) !! ToSet(Ended(w.loop.events)) !! w.dropped !! w.lost
      && forall i, j | 0 <= i < j < |w.loop.events| ::
           Ends(w.loop.events[i]) && Ends(w.loop.events[j]) ==> w.loop.events[i].turnId != w.loop.events[j].turnId
  {
    var w := Run(START, actions);
    hide Run, LegalRun, Base, DoomKept, Ended;
    Reached(actions);
    EndedOnce(w.loop.events);
  }

  predicate Ends(event: ConversationEvent) {
    event.SettledTurn? || event.TurnRemoved?
  }

  lemma {:induction false} EndedOnce(events: seq<ConversationEvent>)
    requires NoRepeats(Ended(events))
    ensures forall i, j | 0 <= i < j < |events| ::
              Ends(events[i]) && Ends(events[j]) ==> events[i].turnId != events[j].turnId
    ensures forall i | 0 <= i < |events| && Ends(events[i]) :: events[i].turnId in Ended(events)
  {
    hide Ended;
    if events != [] {
      var front, last := events[..|events| - 1], events[|events| - 1];
      assert events == front + [last];
      EndedSnoc(front, last);
      if Ends(last) {
        NoRepeatsFront(Ended(front), last.turnId, Ended(events));
      }
      EndedOnce(front);
    }
  }

  lemma {:induction false} NoRepeatsFront(front: seq<TurnId>, last: TurnId, all: seq<TurnId>)
    requires NoRepeats(all) && (all == front + [last] || all == front)
    ensures NoRepeats(front)
    ensures all == front + [last] ==> last !in front && last in all
    ensures forall id | id in front :: id in all
  {
    assert forall i | 0 <= i < |front| :: all[i] == front[i];
    assert all == front + [last] ==> all[|front|] == last;
  }

  /** Clear and Shutdown drop what is pending without any event, for good. */
  lemma {:induction false} DroppedSilentlyFrom(w: World, command: Command, env: Env, more: seq<Action>, turn: Turn)
    requires Inv(w) && (command == Clear || command == Shutdown)
    requires LegalRun(Step(w, Do(command, env)), more)
    requires turn in w.Turns() && turn.state == Pending
    ensures Step(w, Do(command, env)).loop.events == w.loop.events
    ensures forall event | event in Run(Step(w, Do(command, env)), more).loop.events && Ends(event) ::
              event.turnId != turn.id
  {
    hide Inv, Run, Disk.OnClear, Retain;
    var after := Step(w, Do(command, env));
    assert turn.id in after.dropped by {
      assert turn.id in PendingSet(w.Turns());
    }
    StepKeeps(w, Do(command, env));
    RunKeeps(after, more);
    DroppedStay(after, more);
    DroppedNotEnded(Run(after, more), turn.id);
  }

  lemma {:induction false} DroppedNotEnded(w: World, id: TurnId)
    requires Inv(w) && id in w.dropped
    ensures forall event | event in w.loop.events && Ends(event) :: event.turnId != id
  {
    hide Base, DoomKept, Ended;
    EndedOnce(w.loop.events);
    forall event | event in w.loop.events && Ends(event)
      ensures event.turnId != id
    {
      assert event.turnId in ToSet(Ended(w.loop.events));
    }
  }

  lemma {:induction false} DroppedStay(w: World, actions: seq<Action>)
    requires LegalRun(w, actions)
    ensures w.dropped <= Run(w, actions).dropped
    decreases |actions|
  {
    hide Legal, Step;
    if actions != [] {
      DroppedGrow(w, actions[0]);
      DroppedStay(Step(w, actions[0]), actions[1..]);
    }
  }

  lemma {:induction false} DroppedGrow(w: World, action: Action)
    requires Legal(w, action)
    ensures w.dropped <= Step(w, action).dropped
  {
    hide Legal, Handle, Record, PlanFor, Open;
    if action.Do? {
      RecordDropped(w, action.command);
    }
  }

  lemma {:induction false} RecordDropped(w: World, command: Command)
    ensures w.dropped <= Record(w, command).dropped
  {
    hide World.Doom, SettledHeads, StoppedBy, PendingSet;
    DoomOnlyAdds(w);
  }

  // ---- Cancellation wins ----

  /** The action cancels `id`, the active turn. */
  ghost predicate Cancels(w: World, action: Action, id: TurnId) {
    && ActiveId(w.Turns()) == Some(id) && action.Do?
    && (action.command == Cancel(id) || action.command == Stop || action.command == Clear)
  }

  /**
   * Once Cancel, Stop or Clear was handled while a turn was active, no later event carries
   * text of it or any result but Cancelled, whatever its worker sends and however the run goes on.
   */
  lemma {:induction false} CancelWinsFrom(w: World, action: Action, id: TurnId, more: seq<Action>, result: TurnResult)
    requires Inv(w) && Legal(w, action) && Cancels(w, action, id) && LegalRun(Step(w, action), more)
    ensures
      var later := Run(Step(w, action), more);
      && w.loop.events <= later.loop.events
      && (forall i | |w.loop.events| <= i < |later.loop.events| :: Respects(later.loop.events[i], id))
      && !(ActiveId(later.Turns()) == Some(id) && Adopts(later.loop, id, result))
  {
    hide Inv, Run, Step, Adopts, Legal, LogsExtend;
    var after := Step(w, action);
    StepKeeps(w, action);
    RunKeeps(after, more);
    CancelIsRecorded(w, action, id);
    HistoryStays(w, action);
    HistoryStaysOnRuns(after, more);
    InvDoom(Run(after, more));
    CancelledNeverAdoptsAt(Run(after, more), id, result);
  }

  lemma {:induction false} CancelIsRecorded(w: World, action: Action, id: TurnId)
    requires Inv(w) && Legal(w, action) && Cancels(w, action, id)
    ensures id in Step(w, action).doomed && Step(w, action).doomed[id] <= |w.loop.events|
  {
    hide Inv, Handle, StoppedBy, PendingSet;
    DoomedEarly(w);
  }

  lemma {:induction false} InvDoom(w: World)
    requires Inv(w)
    ensures DoomKept(w.Turns(), w.loop.cancelling, w.loop.events, w.doomed, w.submitted)
  {
  }

  lemma {:induction false} DoomedEarly(w: World)
    requires Inv(w)
    ensures forall id | id in w.doomed :: w.doomed[id] <= |w.loop.events|
  {
  }

  /** Events are only added and a cancellation is never taken back. */
  ghost predicate Remembers(w: World, later: World) {
    && w.loop.events <= later.loop.events
    && forall id | id in w.doomed :: id in later.doomed && later.doomed[id] == w.doomed[id]
  }

  lemma {:induction false} HistoryStays(w: World, action: Action)
    requires Legal(w, action)
    ensures Remembers(w, Step(w, action))
  {
    hide Handle, SettledHeads, StoppedBy, PlanFor, Evolves, Restored, HasUnsettled, Open, World.Doom;
    DoomOnlyAdds(w);
    if Ongoing(action) {
      StepGrows(w, action);
    } else if action.Do? {
      ResumeEvents(w.loop, action.command, action.env);
    }
  }

  lemma {:induction false} DoomOnlyAdds(w: World)
    ensures w.Doom() == w.(doomed := w.Doom().doomed)
    ensures forall id | id in w.doomed :: id in w.Doom().doomed && w.Doom().doomed[id] == w.doomed[id]
  {
  }

  lemma {:induction false} ResumeEvents(s: Loop, command: Command, env: Env)
    requires command.ResumeSession?
    ensures Handle(s, command, env).events == s.events
  {
  }

  lemma {:induction false} HistoryStaysOnRuns(w: World, actions: seq<Action>)
    requires LegalRun(w, actions)
    ensures Remembers(w, Run(w, actions))
    decreases |actions|
  {
    hide Legal, Step;
    if actions != [] {
      HistoryStays(w, actions[0]);
      HistoryStaysOnRuns(Step(w, actions[0]), actions[1..]);
    }
  }

  /** A compaction the cancelled turn reported is never adopted, whatever result its worker sends. */
  lemma {:induction false} CancelledNeverAdoptsAt(w: World, id: TurnId, result: TurnResult)
    requires Inv(w) && id in w.doomed
    ensures !(ActiveId(w.Turns()) == Some(id) && Adopts(w.loop, id, result))
    ensures ActiveId(w.Turns()) == Some(id) ==> SettleTurnOf(w.loop, id, result).compaction == w.loop.compaction
  {
    if ActiveId(w.Turns()) == Some(id) {
      var turn := ActiveTurnOf(w.Turns(), id);
      SettleCompaction(w, id, result);
    }
  }

  // ---- Worker and token ----

  /**
   * On every run: one thread that was spawned and not yet joined, one worker and one token
   * exactly while a turn is active, all its own, and none otherwise; so no worker is ever
   * spawned over another. The token is cancelled exactly when the turn is, and nothing else
   * is ever being cancelled.
   */
  lemma {:induction false} WorkerLockstep(actions: seq<Action>)
    requires LegalRun(START, actions)
    ensures
      var s := Run(START, actions).loop;
      && s.spawned == s.joined + (if HasActive(s.queue.turns) then 1 else 0)
      && (HasActive(s.queue.turns) <==> s.worker.Some?)
      && (HasActive(s.queue.turns) <==> s.token.Some?)
      && (s.worker.Some? ==> ActiveId(s.queue.turns) == Some(s.worker.value.turnId))
      && (s.cancelling.Some? ==> s.cancelling == ActiveId(s.queue.turns))
      && (s.token.Some? ==> (s.token.value <==> s.cancelling.Some?))
  {
    var w := Run(START, actions);
    hide Run, LegalRun, Core, CompletedHistory;
    Reached(actions);
    NoActive(w.Turns());
  }

  /** An uncancelled worker was handed exactly the history that is live now. */
  lemma {:induction false} WorkerSeesLiveHistory(actions: seq<Action>)
    requires LegalRun(START, actions)
    ensures
      var s := Run(START, actions).loop;
      s.worker.Some? && s.cancelling.None? ==>
        && s.worker.value.history == CompletedHistory(s.queue.turns, s.compaction)
        && s.worker.value.compaction == s.compaction
  {
    hide Run, LegalRun, Core, CompletedHistory;
    Reached(actions);
  }

  /** A worker has the prompt of the active turn and the config that turn was submitted with. */
  lemma {:induction false} WorkerHasItsTurn(actions: seq<Action>, turn: Turn)
    requires LegalRun(START, actions)
    requires turn in Run(START, actions).Turns() && turn.state == Active
    ensures
      var w := Run(START, actions);
      && w.loop.worker.Some? && w.loop.worker.value.turnId == turn.id
      && w.loop.worker.value.prompt == turn.prompt
      && turn.id in w.submitted && w.submitted[turn.id] == Some(w.loop.worker.value.config)
  {
    hide Run, LegalRun, LogsKept, Attached, StoppedKept, Accounted, DoomKept, Working;
    var w := Run(START, actions);
    Reached(actions);
    var k :| 0 <= k < |w.Turns()| && w.Turns()[k] == turn;
    ActiveIsUnique(w.Turns(), k);
  }

  // ---- Settles in a log ----

  /**
   * In every session log of every run, a turn enqueued there settles at most once, and
   * exactly when it reads as settled.
   */
  lemma {:induction false} SettledOncePerLog(actions: seq<Action>, session: SessionId)
    requires LegalRun(START, actions) && session in Run(START, actions).Logs()
    ensures
      var log := Run(START, actions).Logs()[session];
      forall t | t in Fold(log).turns :: SettleCount(log, t.id) == if t.state == Settled then 1 else 0
  {
    hide Run, LegalRun, Fold, SettleCount;
    Reached(actions);
    LogKept(Run(START, actions), session);
  }

  /** A settle for a turn the log never enqueued changes nothing that is read back. */
  lemma {:induction false} StraySettleIgnored(log: seq<LogEvent>, id: TurnId, result: TurnResult)
    requires Absent(Fold(log).turns, id)
    ensures Fold(log + [SettledEvent(id, result)]) == Fold(log)
    ensures Restored(log + [SettledEvent(id, result)]) == Restored(log)
  {
    var turns := Fold(log).turns;
    FoldSnoc(log, SettledEvent(id, result));
    var after := SettleTurn(turns, id, ResultOf(SettledEvent(id, result)));
    forall i | 0 <= i < |turns|
      ensures after[i] == turns[i]
    {
      assert turns[i] in turns;
    }
    assert after == turns;
  }
}
