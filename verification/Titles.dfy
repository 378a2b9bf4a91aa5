// When a title is requested, and for what: maybe_request_summary in src/conversation/state.rs,
// over whole runs.
module Titles {
  import opened Common
  import opened Request
  import opened CompactionPlan
  import opened Turns
  import opened SessionLog
  import opened Replay
  import opened LoopSpec
  import opened QueueShape
  import opened LogInvariant
  import opened Accounting
  import opened World
  import opened WorldSteps
  import opened Theorems
  import opened Runs

  // ---- The config in use is the worker's ----

  predicate ConfigInUse(s: Loop) {
    s.worker.Some? && s.cancelling.None? ==> s.activeConfig == Some(s.worker.value.config)
  }

  lemma {:induction false} SettledConfig(s: Loop, id: TurnId, result: TurnResult)
    ensures SettleOne(s, id, result).worker == None
  {
    hide CompletedHistory, Disk.OnSettle, Disk.AppendToCurrent, SettledActive;
  }

  lemma {:induction false} StartConfig(s: Loop, id: TurnId)
    requires ConfigInUse(s)
    ensures ConfigInUse(StartActive(s, id))
    decreases PendingCount(s.queue.turns), 3
  {
    hide CompletedHistory, SettleOne;
    if !(id in s.configs && s.configs[id].Some?) {
      SettleConfig(s.(configs := s.configs - {id}), id, NEEDS_CONFIGURATION);
    }
  }

  lemma {:induction false} SettleConfig(s: Loop, id: TurnId, result: TurnResult)
    requires ConfigInUse(s)
    ensures ConfigInUse(SettleTurnOf(s, id, result))
    decreases PendingCount(s.queue.turns), 2
  {
    hide CompletedHistory, SettleOne;
    if ActiveId(s.queue.turns) == Some(id) {
      SettledConfig(s, id, result);
      SettleOneKeepsPending(s, id, result);
      AdvanceConfig(SettleOne(s, id, result));
    }
  }

  lemma {:induction false} AdvanceConfig(s: Loop)
    requires ConfigInUse(s)
    ensures ConfigInUse(Advance(s))
    decreases PendingCount(s.queue.turns), 1
  {
    hide CompletedHistory, SettleOne;
    if !s.IsShuttingDown() && FirstPending(s.queue.turns).Some? {
      ActivationLowersPending(s);
      StartConfig(Activate(s), FirstPending(s.queue.turns).value);
    }
  }

  lemma {:induction false} EnqueueConfig(s: Loop, id: TurnId, prompt: string, config: Option<Config>, env: Env)
    requires ConfigInUse(s)
    ensures ConfigInUse(EnqueueTurn(s, id, prompt, config, env))
  {
    hide StartActive, Disk.OnEnqueue, Disk.EnqueueSucceeds;
    var submitted := Submit(s, id, prompt, config, env);
    assert ConfigInUse(submitted);
    StartConfig(submitted, id);
  }

  lemma {:induction false} RemovalsConfig(s: Loop, ids: seq<TurnId>)
    requires ConfigInUse(s)
    ensures ConfigInUse(RemoveEach(s, ids))
    ensures RemoveEach(s, ids).cancelling == s.cancelling
  {
    hide Disk.OnSettle;
    if ids != [] {
      RemovalsConfig(s, ids[..|ids| - 1]);
    }
  }

  lemma {:induction false} HandleConfig(s: Loop, command: Command, env: Env)
    requires ConfigInUse(s) && (s.worker.Some? ==> HasActive(s.queue.turns))
    ensures ConfigInUse(Handle(s, command, env))
  {
    hide EnqueueTurn, SettleTurnOf, RemoveEach, Retain, Disk.OnClear;
    match command
    case Enqueue(id, prompt, config) => EnqueueConfig(s, id, prompt, config, env);
    case Settle(id, result) => SettleConfig(s, id, result);
    case Stop => RemovalsConfig(s, PendingIds(s.queue.turns));
    case Clear => NoActive(s.queue.turns);
    case _ =>
  }

  lemma {:induction false} WorkerHasActive(w: World)
    requires Inv(w)
    ensures w.loop.worker.Some? ==> HasActive(w.Turns())
  {
    hide Core;
    NoActive(w.Turns());
  }

  lemma {:induction false} StepConfig(w: World, action: Action)
    requires Inv(w) && Legal(w, action) && ConfigInUse(w.loop)
    ensures ConfigInUse(Step(w, action).loop)
  {
    hide Inv, Handle, WorkerPlan, Restored;
    WorkerHasActive(w);
    if action.Do? {
      HandleConfig(w.loop, action.command, action.env);
    }
  }

  lemma {:induction false} ConfigOnRuns(w: World, actions: seq<Action>)
    requires Inv(w) && LegalRun(w, actions) && ConfigInUse(w.loop)
    ensures ConfigInUse(Run(w, actions).loop)
    decreases |actions|
  {
    hide Inv, Legal, Step, ConfigInUse;
    if actions != [] {
      StepConfig(w, actions[0]);
      StepKeeps(w, actions[0]);
      ConfigOnRuns(Step(w, actions[0]), actions[1..]);
    }
  }

  // ---- One settle ----

  /** Whether a title was requested, and for which jobs, stays as it is. */
  predicate SameRequests(s: Loop, later: Loop) {
    later.summaryRequested == s.summaryRequested && later.summaryJobs == s.summaryJobs
  }

  lemma {:induction false} NotCompleted(s: Loop, id: TurnId, result: TurnResult)
    requires ForcedResult(s, id, result).kind != Completed
    ensures SameRequests(s, SettleOne(s, id, result))
  {
    hide CompletedHistory, Disk.OnSettle, Disk.AppendToCurrent, SettledActive;
  }

  /** A turn that is refused for its missing config requests no title. */
  lemma {:induction false} StartAsksNothing(s: Loop, id: TurnId)
    ensures SameRequests(s, StartActive(s, id))
    decreases PendingCount(s.queue.turns), 2
  {
    hide CompletedHistory, SettleOne;
    if !(id in s.configs && s.configs[id].Some?) {
      var started := s.(configs := s.configs - {id});
      if ActiveId(s.queue.turns) == Some(id) {
        NotCompleted(started, id, NEEDS_CONFIGURATION);
        SettleOneKeepsPending(started, id, NEEDS_CONFIGURATION);
        AdvanceAsksNothing(SettleOne(started, id, NEEDS_CONFIGURATION));
      }
    }
  }

  lemma {:induction false} AdvanceAsksNothing(s: Loop)
    ensures SameRequests(s, Advance(s))
    decreases PendingCount(s.queue.turns), 1
  {
    hide CompletedHistory, SettleOne;
    if !s.IsShuttingDown() && FirstPending(s.queue.turns).Some? {
      ActivationLowersPending(s);
      StartAsksNothing(Activate(s), FirstPending(s.queue.turns).value);
    }
  }

  /** The first completed round that is sent word for word once the active turn has settled. */
  function VerbatimThen(turns: seq<Turn>, turn: Turn, text: string, compaction: CompactionState): seq<HistoryRound> {
    Uncovered(CompletedRounds(turns) + [HistoryRound(turn.seqNo, turn.prompt, text)], compaction)
  }

  /** The turn's rounds once it has settled. */
  lemma {:induction false} RoundsThen(turns: seq<Turn>, turn: Turn, result: TurnResult, compaction: CompactionState)
    requires Ordered(turns) && turn in turns && turn.state == Active
    requires result.kind == Completed && result.text.Some?
    ensures CompletedHistory(SettledActive(turns, turn.id, result), compaction)
            == VerbatimThen(turns, turn, result.text.value, compaction)
  {
    hide CompletedHistory, SettledActive, Uncovered, CompletedRounds;
    var k :| 0 <= k < |turns| && turns[k] == turn;
    ActiveIsUnique(turns, k);
    SettledActiveIsSettleTurn(turns, turn.id, result);
    OrderedIncreasing(turns);
    RoundsGain(turns, k, result);
    HistoryIsUncovered(SettledActive(turns, turn.id, result), compaction);
  }

  /** The turn settled, its worker gone, and nothing asked yet. */
  function Unasked(s: Loop, id: TurnId, result: TurnResult): Loop {
    var forced := ForcedResult(s, id, result);
    Unwind(TakeCompaction(s.WithTurns(SettledActive(s.queue.turns, id, forced)), id, result), id, forced)
  }

  lemma {:induction false} UnaskedFields(s: Loop, id: TurnId, result: TurnResult)
    requires s.cancelling == None
    ensures
      var unasked := Unasked(s, id, result);
      && unasked.queue.turns == SettledActive(s.queue.turns, id, result)
      && unasked.disk.current == s.disk.current && unasked.activeConfig == s.activeConfig
      && SameRequests(s, unasked)
  {
    hide SettledActive, Appended, SettledEvent;
  }

  lemma {:induction false} SettleAsks(s: Loop, id: TurnId, result: TurnResult)
    requires s.cancelling == None
    ensures
      var unasked, later := Unasked(s, id, result), SettleOne(s, id, result);
      && later.compaction == unasked.compaction
      && var history := CompletedHistory(unasked.queue.turns, unasked.compaction);
      result.kind == Completed && unasked.disk.current.Some? && unasked.activeConfig.Some?
      && !unasked.summaryRequested && history != [] ==>
        && later.summaryRequested
        && later.summaryJobs
           == unasked.summaryJobs + [SummaryJob(unasked.disk.current.value, history[0].user, history[0].assistant,
                                                unasked.activeConfig.value)]
  {
    hide Unwind, TakeCompaction, CompletedHistory, SettledActive;
  }

  lemma {:induction false} CompletedAsks(s: Loop, turn: Turn, result: TurnResult)
    requires Ordered(s.queue.turns) && turn in s.queue.turns && turn.state == Active
    requires s.cancelling == None && result.kind == Completed && result.text.Some?
    requires s.disk.current.Some? && s.activeConfig.Some? && !s.summaryRequested
    ensures
      var later := SettleOne(s, turn.id, result);
      var rounds := VerbatimThen(s.queue.turns, turn, result.text.value, later.compaction);
      rounds != [] ==>
        && later.summaryRequested
        && later.summaryJobs
           == s.summaryJobs + [SummaryJob(s.disk.current.value, rounds[0].user, rounds[0].assistant,
                                          s.activeConfig.value)]
  {
    hide Unasked, SettleOne, CompletedHistory, VerbatimThen, SettledActive, Ordered;
    UnaskedFields(s, turn.id, result);
    SettleAsks(s, turn.id, result);
    RoundsThen(s.queue.turns, turn, result, SettleOne(s, turn.id, result).compaction);
  }

  /** A summary in force, new or old, never reaches the active turn. */
  lemma {:induction false} ActiveStaysVerbatim(w: World, turn: Turn, text: string, compaction: CompactionState)
    requires Inv(w) && turn in w.Turns() && turn.state == Active && w.loop.cancelling == None
    requires compaction == w.loop.compaction
             || (w.loop.pendingCompaction.Some? && compaction == w.loop.pendingCompaction.value.1)
    ensures VerbatimThen(w.Turns(), turn, text, compaction) != []
  {
    hide CompletedRounds, Uncovered, Fold, ConfigsKept, StoppedKept, Accounted, DoomKept, LogsKept, PlanFor;
    CoreOrdered(w);
    var k :| 0 <= k < |w.Turns()| && w.Turns()[k] == turn;
    RoundsBeforeActive(w.Turns(), k);
    var round := HistoryRound(turn.seqNo, turn.prompt, text);
    var rounds := CompletedRounds(w.Turns()) + [round];
    if compaction == w.loop.compaction {
      CoveredIsRound(w);
    } else {
      ReportedIsRound(w, turn, compaction);
    }
    UncoveredMembers(rounds, compaction);
    assert round in rounds && !compaction.Covers(round.seqNo);
  }

  /** The summary in force ends at a completed round. */
  lemma {:induction false} CoveredIsRound(w: World)
    requires Inv(w)
    ensures w.loop.compaction.summary.Some? ==>
              exists r :: r in CompletedRounds(w.Turns()) && r.seqNo == w.loop.compaction.coveredThroughSeq
  {
    hide CompletedRounds, Fold, ConfigsKept, StoppedKept, Accounted, DoomKept, LogsKept, Running;
    if w.loop.compaction.summary.Some? {
      LogKept(w, w.loop.disk.current.value);
      ConservedEnd(w.Logs()[w.loop.disk.current.value], w.submitted.Keys, HeadsAt(w.heads, w.loop.disk.current.value));
    }
  }

  lemma {:induction false} ConservedEnd(log: seq<LogEvent>, ids: set<TurnId>, heads: seq<seq<HistoryRound>>)
    requires LogInv(log, ids, heads) && Fold(log).compaction.summary.Some?
    ensures exists r :: r in CompletedRounds(Fold(log).turns) && r.seqNo == Fold(log).compaction.coveredThroughSeq
  {
    hide Orderly, Consistent, Mentions, Fold, CompletedRounds;
  }

  /** So does the one reported for the active turn. */
  lemma {:induction false} ReportedIsRound(w: World, turn: Turn, compaction: CompactionState)
    requires Inv(w) && turn in w.Turns() && turn.state == Active && w.loop.cancelling == None
    requires w.loop.pendingCompaction.Some? && compaction == w.loop.pendingCompaction.value.1
    ensures exists r :: r in CompletedRounds(w.Turns()) && r.seqNo == compaction.coveredThroughSeq
  {
    hide Core, PlanFor, CompletedHistory, CompletedRounds, Uncovered;
    NoActive(w.Turns());
    var job := w.loop.worker.value;
    var tailBudget: nat :| PlanFor(job.history, job.compaction, tailBudget)
                           == Some(Plan(compaction.coveredThroughSeq, w.offered));
    SplitIsOptimal(job.history, job.compaction, tailBudget);
    HistoryIsUncovered(w.Turns(), w.loop.compaction);
    UncoveredMembers(CompletedRounds(w.Turns()), w.loop.compaction);
    var last := w.offered[|w.offered| - 1];
    assert last in w.offered && last in job.history;
  }

  /** An uncancelled turn belongs to an attached session. */
  lemma {:induction false} Uncancelled(w: World, turn: Turn)
    requires Inv(w) && turn in w.Turns() && turn.state == Active && turn.id !in w.doomed
    ensures w.loop.disk.current.Some? && w.loop.cancelling == None
    ensures ActiveId(w.Turns()) == Some(turn.id)
    ensures w.loop.worker.Some? && w.loop.worker.value.turnId == turn.id
    ensures turn.id in w.submitted && w.submitted[turn.id] == Some(w.loop.worker.value.config)
  {
    hide LogsKept, StoppedKept, Accounted, Fold, CompletedRounds, Working;
    ActiveIdOf(w, turn);
    CancellingIsDoomed(w, turn.id);
  }

  /**
   * When a settle of the active turn requests a title: exactly when the turn completes without
   * having been cancelled and none was requested yet. A session is then attached and the turn
   * had a config. The one new job holds that session and config, and prompt and reply of the
   * first completed round no summary stands for.
   */
  lemma {:induction false} TitleRequestedExactly(actions: seq<Action>, turn: Turn, result: TurnResult)
    requires LegalRun(START, actions) && result.Canonical()
    requires turn in Run(START, actions).Turns() && turn.state == Active
    ensures
      var w := Run(START, actions);
      var later := SettleTurnOf(w.loop, turn.id, result);
      if turn.id !in w.doomed && result.kind == Completed && !w.loop.summaryRequested then
        var rounds := VerbatimThen(w.Turns(), turn, result.text.value, later.compaction);
        && rounds != [] && w.loop.disk.current.Some?
        && turn.id in w.submitted && w.submitted[turn.id].Some?
        && later.summaryRequested
        && later.summaryJobs
           == w.loop.summaryJobs + [SummaryJob(w.loop.disk.current.value, rounds[0].user, rounds[0].assistant,
                                               w.submitted[turn.id].value)]
      else
        later.summaryRequested == w.loop.summaryRequested && later.summaryJobs == w.loop.summaryJobs
  {
    hide Inv, LegalRun, Run, Advance, SettleOne, VerbatimThen, RequestSummary;
    var w := Run(START, actions);
    Reached(actions);
    StartInv();
    ConfigOnRuns(START, actions);
    ActiveIdOf(w, turn);
    AdvanceAsksNothing(SettleOne(w.loop, turn.id, result));
    CancellingIsDoomed(w, turn.id);
    SettleCompaction(w, turn.id, result);
    if turn.id !in w.doomed && result.kind == Completed && !w.loop.summaryRequested {
      Uncancelled(w, turn);
      InvOrdered(w);
      CompletedAsks(w.loop, turn, result);
      SettleOneCompaction(w, turn.id, result);
      ActiveStaysVerbatim(w, turn, result.text.value, SettleTurnOf(w.loop, turn.id, result).compaction);
    } else if turn.id in w.doomed || result.kind != Completed {
      NotCompleted(w.loop, turn.id, result);
    } else {
      AskedBefore(w.loop, turn.id, result);
    }
  }

  lemma {:induction false} SettleOneCompaction(w: World, id: TurnId, result: TurnResult)
    requires Inv(w) && ActiveId(w.Turns()) == Some(id)
    ensures SettleOne(w.loop, id, result).compaction == SettleTurnOf(w.loop, id, result).compaction
  {
    hide Inv, SettleOne, SettleTurnOf, Adopts;
    SettledState(w, id, result);
    SettleCompaction(w, id, result);
  }

  lemma {:induction false} AskedBefore(s: Loop, id: TurnId, result: TurnResult)
    requires s.summaryRequested
    ensures SameRequests(s, SettleOne(s, id, result))
  {
    hide CompletedHistory, Disk.OnSettle, Disk.AppendToCurrent, SettledActive;
  }

  // ---- Everything else ----

  /** Settles the active turn. */
  predicate SettlesActive(w: World, action: Action) {
    action.Do? && action.command.Settle? && ActiveId(w.Turns()) == Some(action.command.turnId)
  }

  /**
   * Nothing else requests a title. A clear makes the next request possible again, a resumed
   * session never asks for one, and a new process starts afresh.
   */
  lemma {:induction false} OnlySettlesRequest(w: World, action: Action)
    requires Legal(w, action) && !SettlesActive(w, action)
    ensures
      var s, later := w.loop, Step(w, action).loop;
      && later.summaryJobs == (if action.Restart? then [] else s.summaryJobs)
      && (later.summaryRequested
          <==> (action.Do? && action.command.ResumeSession?)
               || (s.summaryRequested && !action.Restart? && !(action.Do? && action.command.Clear?)))
  {
    hide WorkerPlan, Restored, EnqueueTurn, SettleTurnOf, RemoveEach, Disk.OnClear, Retain;
    if action.Do? {
      match action.command
      case Enqueue(id, prompt, config) => EnqueueAsksNothing(w.loop, id, prompt, config, action.env);
      case Settle(id, result) => StaleSettle(w.loop, id, result);
      case Stop => Growth.RemovalsRequest(w.loop, PendingIds(w.Turns()));
      case _ =>
    }
  }

  lemma {:induction false} StaleSettle(s: Loop, id: TurnId, result: TurnResult)
    requires ActiveId(s.queue.turns) != Some(id)
    ensures SettleTurnOf(s, id, result) == s
  {
  }

  lemma {:induction false} EnqueueAsksNothing(
    s: Loop, id: TurnId, prompt: string, config: Option<Config>, env: Env)
    ensures SameRequests(s, EnqueueTurn(s, id, prompt, config, env))
  {
    hide StartActive, Disk.OnEnqueue, Disk.EnqueueSucceeds;
    StartAsksNothing(Submit(s, id, prompt, config, env), id);
  }
}
