// Every legal action keeps the invariant, and the logs only grow.
module WorldSteps {
  import opened Common
  import opened Request
  import opened CompactionPlan
  import opened Turns
  import opened SessionLog
  import opened Replay
  import opened LoopSpec
  import opened QueueShape
  import opened LogInvariant
  import opened Accounting
  import opened Attachment
  import opened World

  /** What an action must do: keep the invariant and only extend the logs. */
  ghost predicate Keeps(w: World, later: World) {
    Inv(later) && LogsExtend(w.Logs(), later.Logs())
  }

  // ---- Enqueue ----

  lemma {:induction false} PromptOfNew(turns: seq<Turn>, turn: Turn)
    requires forall t | t in turns :: t.id != turn.id
    ensures PromptOf(turns + [turn], turn.id) == turn.prompt
  {
    var all := turns + [turn];
    if turns != [] {
      assert all[0] == turns[0] && turns[0] in turns;
      assert all[1..] == turns[1..] + [turn];
      PromptOfNew(turns[1..], turn);
    }
  }

  lemma {:induction false} EnsureLogs(
    disk: Disk, env: Env, ids: set<TurnId>, heads: map<SessionId, seq<seq<HistoryRound>>>)
    requires LogsKept(disk.logs, ids, heads)
    ensures LogsKept(disk.EnsureSession(env).logs, ids, heads)
    ensures LogsExtend(disk.logs, disk.EnsureSession(env).logs)
  {
    if disk.current.Some? || env.fault.StartAppendFault? {
      ExtendRefl(disk.logs);
    } else {
      LogNeutral(disk.logs, env.freshSession, SessionStarted, ids, heads);
    }
  }

  lemma {:induction false} LogEnqueue(
    logs: Logs, session: SessionId, turn: Turn, ids: set<TurnId>, heads: map<SessionId, seq<seq<HistoryRound>>>)
    requires LogsKept(logs, ids, heads) && session in logs && turn.id !in ids
    requires turn.state == Pending && turn.result.None?
    requires forall t | t in Fold(logs[session]).turns :: t.seqNo < turn.seqNo
    ensures
      var later := Appended(logs, session, TurnEnqueued(turn.id, turn.seqNo, turn.prompt));
      && LogsKept(later, ids + {turn.id}, heads) && LogsExtend(logs, later)
      && turn in Fold(later[session]).turns
  {
    var log, event := logs[session], TurnEnqueued(turn.id, turn.seqNo, turn.prompt);
    AppendEnqueued(log, turn, ids, HeadsAt(heads, session));
    ReplaceLog(logs, session, log + [event], ids, ids + {turn.id}, heads, heads);
    assert turn in Fold(log).turns + [turn];
  }

  /** The storage side of an enqueue, whether or not it succeeds. */
  lemma {:induction false} EnqueueDisk(
    disk: Disk, live: Live, turn: Turn, env: Env, ids: set<TurnId>, heads: map<SessionId, seq<seq<HistoryRound>>>)
    requires LogsKept(disk.logs, ids, heads) && Attached(live, disk)
    requires forall t | t in live.queue.turns :: t.id in ids
    requires turn.id !in ids && env.freshSession !in disk.logs
    requires turn.seqNo == live.queue.nextSeq && turn.state == Pending && turn.result.None?
    ensures
      var later := disk.OnEnqueue(turn.id, turn.seqNo, turn.prompt, env);
      && LogsKept(later.logs, ids + {turn.id}, heads) && LogsExtend(disk.logs, later.logs)
      && Attached(live.(queue := live.queue.(nextSeq := live.queue.nextSeq + 1)), later)
      && (disk.EnqueueSucceeds(env) ==>
            && later.current.Some? && turn.id in later.turnSessions
            && later.turnSessions[turn.id] == later.current.value
            && turn in Fold(later.logs[later.current.value]).turns)
  {
    var started := disk.EnsureSession(env);
    EnsureLogs(disk, env, ids, heads);
    EnsureAttached(live, disk, env);
    if started.current.None? || env.fault.EnqueueAppendFault? {
      KeepMore(started.logs, ids, ids + {turn.id}, heads);
      SkipAttached(live, started);
    } else {
      LogEnqueue(started.logs, started.current.value, turn, ids, heads);
      LogEnqueueAttached(live, started, turn);
      ExtendTrans(disk.logs, started.logs, disk.OnEnqueue(turn.id, turn.seqNo, turn.prompt, env).logs);
    }
  }

  lemma {:induction false} RetainPushed(turns: seq<Turn>, turn: Turn)
    requires forall t | t in turns :: t.id != turn.id
    ensures Retain(turns + [turn], OtherThan(turn.id)) == turns
  {
    RetainSnoc(turns, turn, OtherThan(turn.id));
    RetainAll(turns, OtherThan(turn.id));
  }

  lemma {:induction false} RetainAll(turns: seq<Turn>, filter: Filter)
    requires forall t | t in turns :: filter.Keeps(t)
    ensures Retain(turns, filter) == turns
  {
    hide Filter.Keeps;
    if turns != [] {
      var front, last := turns[..|turns| - 1], turns[|turns| - 1];
      assert turns == front + [last] && last in turns;
      RetainAll(front, filter);
    }
  }

  lemma {:induction false} DoomSubmit(
    turns: seq<Turn>, cancelling: Option<TurnId>, events: seq<ConversationEvent>, doomed: map<TurnId, nat>,
    submitted: map<TurnId, Option<Config>>, later: seq<Turn>, event: ConversationEvent,
    id: TurnId, config: Option<Config>)
    requires DoomKept(turns, cancelling, events, doomed, submitted) && id !in submitted
    requires forall t | t in later :: t in turns || t.id == id
    requires forall other | other != id :: Respects(event, other)
    ensures DoomKept(later, cancelling, events + [event], doomed, submitted[id := config])
  {
  }

  lemma {:induction false} ConfigsMore(
    turns: seq<Turn>, configs: map<TurnId, Option<Config>>, worker: Option<TurnJob>,
    submitted: map<TurnId, Option<Config>>, id: TurnId, config: Option<Config>)
    requires Known(turns, submitted) && ConfigsKept(turns, configs, worker, submitted) && id !in submitted
    ensures ConfigsKept(turns, configs[id := config], worker, submitted[id := config])
    ensures Known(turns, submitted[id := config])
  {
  }

  lemma {:induction false} SeqSkipped(queue: Queue)
    requires Shaped(queue)
    ensures Shaped(queue.(nextSeq := queue.nextSeq + 1))
  {
  }

  /** A refused enqueue leaves the queue as it was and ends the turn with one event. */
  lemma {:induction false} RejectCore(
      w: World, id: TurnId, prompt: string, config: Option<Config>, env: Env, later: Loop)
    requires Core(w) && id !in w.submitted && env.freshSession !in w.Logs()
    requires later.queue == w.loop.queue.(nextSeq := w.loop.queue.nextSeq + 1)
    requires later.configs == w.loop.configs[id := config]
    requires later.disk == w.loop.disk.OnEnqueue(id, w.loop.queue.nextSeq, prompt, env)
    requires later.worker == w.loop.worker && later.cancelling == w.loop.cancelling
    requires later.compaction == w.loop.compaction
    requires exists result :: later.events == w.loop.events + [SettledTurn(id, result)]
    ensures Core(w.(loop := later, submitted := w.submitted[id := config]))
    ensures LogsExtend(w.Logs(), later.disk.logs)
  {
    hide LogsKept, Attached, ConfigsKept, StoppedKept, Shaped, Disk.OnEnqueue, Fold, LogsExtend, DoomKept;
    var result :| later.events == w.loop.events + [SettledTurn(id, result)];
    EnqueueDisk(w.loop.disk, LiveOf(w.loop), Turn(id, w.loop.queue.nextSeq, prompt, Pending, None), env,
                w.submitted.Keys, w.heads);
    ConfigsMore(w.Turns(), w.loop.configs, w.loop.worker, w.submitted, id, config);
    SeqSkipped(w.loop.queue);
    EndedSnoc(w.loop.events, SettledTurn(id, result));
    AccountedSubmit(Open(w.Turns()), Ended(w.loop.events), w.dropped, w.lost, w.submitted.Keys, id);
    AccountedEnd(Open(w.Turns()) + {id}, Ended(w.loop.events), w.dropped, w.lost, w.submitted.Keys + {id}, id);
    assert id !in Open(w.Turns());
    assert Open(w.Turns()) + {id} - {id} == Open(w.Turns());
    assert w.submitted[id := config].Keys == w.submitted.Keys + {id};
    StoppedStay(w.stopped, w.Logs(), later.disk.logs);
    DoomSubmit(w.Turns(), w.loop.cancelling, w.loop.events, w.doomed, w.submitted, w.Turns(), SettledTurn(id, result),
               id, config);
  }

  /** An accepted enqueue puts the turn at the end of the queue. */
  lemma {:induction false} AcceptCore(w: World, turn: Turn, config: Option<Config>, env: Env, later: Loop)
    requires Core(w) && turn.id !in w.submitted && env.freshSession !in w.Logs()
    requires w.loop.disk.EnqueueSucceeds(env)
    requires turn.seqNo == w.loop.queue.nextSeq && turn.result.None? && turn.state != Settled
    requires turn.state == Active ==> w.loop.worker.None? && forall t | t in w.Turns() :: t.state == Settled
    requires later.queue == Queue(w.Turns() + [turn], w.loop.queue.nextSeq + 1)
    requires later.configs == w.loop.configs[turn.id := config]
    requires later.disk == w.loop.disk.OnEnqueue(turn.id, turn.seqNo, turn.prompt, env)
    requires later.worker == w.loop.worker && later.cancelling == w.loop.cancelling
    requires later.compaction == w.loop.compaction && w.loop.cancelling != Some(turn.id)
    requires later.events == w.loop.events + [EnqueuedEvent(turn.id, turn.seqNo, turn.state)]
    ensures Core(w.(loop := later, submitted := w.submitted[turn.id := config]))
    ensures LogsExtend(w.Logs(), later.disk.logs)
  {
    hide Base, Accounted, DoomKept, Disk.OnEnqueue, Fold, LogsExtend;
    var event := EnqueuedEvent(turn.id, turn.seqNo, turn.state);
    AcceptBase(w, turn, config, env);
    AccountedPush(w, turn, event, config);
    DoomSubmit(w.Turns(), w.loop.cancelling, w.loop.events, w.doomed, w.submitted, w.Turns() + [turn], event,
               turn.id, config);
  }

  lemma {:induction false} AcceptBase(w: World, turn: Turn, config: Option<Config>, env: Env)
    requires Core(w) && turn.id !in w.submitted && env.freshSession !in w.Logs()
    requires w.loop.disk.EnqueueSucceeds(env)
    requires turn.seqNo == w.loop.queue.nextSeq && turn.result.None? && turn.state != Settled
    requires turn.state == Active ==> w.loop.worker.None? && forall t | t in w.Turns() :: t.state == Settled
    ensures
      var live := LiveOf(w.loop).(queue := Queue(w.Turns() + [turn], w.loop.queue.nextSeq + 1));
      var disk := w.loop.disk.OnEnqueue(turn.id, turn.seqNo, turn.prompt, env);
      && Base(live, disk, w.loop.configs[turn.id := config], w.loop.worker, w.submitted[turn.id := config],
              w.heads, w.stopped)
      && LogsExtend(w.Logs(), disk.logs)
  {
    hide LogsKept, Attached, ConfigsKept, StoppedKept, Shaped, Disk.OnEnqueue, Fold, LogsExtend;
    var live := LiveOf(w.loop).(queue := w.loop.queue.(nextSeq := w.loop.queue.nextSeq + 1));
    var disk := w.loop.disk.OnEnqueue(turn.id, turn.seqNo, turn.prompt, env);
    EnqueueDisk(w.loop.disk, LiveOf(w.loop), turn.(state := Pending), env, w.submitted.Keys, w.heads);
    PushAttached(live, disk, turn);
    PushShaped(w.loop.queue, turn);
    assert w.submitted[turn.id := config].Keys == w.submitted.Keys + {turn.id};
    StoppedStay(w.stopped, w.Logs(), disk.logs);
    ConfigsPush(w.Turns(), w.loop.configs, w.loop.worker, w.submitted, turn, config);
  }

  lemma {:induction false} AccountedPush(w: World, turn: Turn, event: ConversationEvent, config: Option<Config>)
    requires Accounted(Open(w.Turns()), Ended(w.loop.events), w.dropped, w.lost, w.submitted.Keys)
    requires turn.id !in w.submitted && turn.state != Settled && event.EnqueuedEvent?
    ensures Accounted(Open(w.Turns() + [turn]), Ended(w.loop.events + [event]), w.dropped, w.lost,
                      w.submitted[turn.id := config].Keys)
  {
    OpenPush(w.Turns(), turn);
    EndedSnoc(w.loop.events, event);
    AccountedSubmit(Open(w.Turns()), Ended(w.loop.events), w.dropped, w.lost, w.submitted.Keys, turn.id);
    assert w.submitted[turn.id := config].Keys == w.submitted.Keys + {turn.id};
  }

  lemma {:induction false} ConfigsPush(
    turns: seq<Turn>, configs: map<TurnId, Option<Config>>, worker: Option<TurnJob>,
    submitted: map<TurnId, Option<Config>>, turn: Turn, config: Option<Config>)
    requires Known(turns, submitted) && ConfigsKept(turns, configs, worker, submitted) && turn.id !in submitted
    requires turn.state == Active ==> worker.None?
    ensures ConfigsKept(turns + [turn], configs[turn.id := config], worker, submitted[turn.id := config])
    ensures Known(turns + [turn], submitted[turn.id := config])
  {
  }

  lemma {:induction false} SubmitFields(s: Loop, id: TurnId, prompt: string, config: Option<Config>, env: Env)
    requires forall t | t in s.queue.turns :: t.id != id
    ensures
      var later := Submit(s, id, prompt, config, env);
      && later.configs == s.configs[id := config]
      && later.disk == s.disk.OnEnqueue(id, s.queue.nextSeq, prompt, env)
      && later.worker == s.worker && later.token == s.token && later.cancelling == s.cancelling
      && later.Unjoined() == s.Unjoined()
      && later.compaction == s.compaction && later.pendingCompaction == s.pendingCompaction
      && later.IsShuttingDown() == s.IsShuttingDown()
    ensures
      var later := Submit(s, id, prompt, config, env);
      if s.disk.EnqueueSucceeds(env) then
        var turn := Turn(id, s.queue.nextSeq, prompt, InitialState(s), None);
        && later.queue == Queue(s.queue.turns + [turn], s.queue.nextSeq + 1)
        && later.events == s.events + [EnqueuedEvent(id, s.queue.nextSeq, InitialState(s))]
      else
        && later.queue == s.queue.(nextSeq := s.queue.nextSeq + 1)
        && later.events == s.events + [SettledTurn(id, ErrorResult("sessionPersistence", FaultMessage(env.fault)))]
  {
    var turn := Turn(id, s.queue.nextSeq, prompt, InitialState(s), None);
    PromptOfNew(s.queue.turns, turn);
    RetainPushed(s.queue.turns, turn);
  }

  lemma {:induction false} RejectKeeps(w: World, id: TurnId, prompt: string, config: Option<Config>, env: Env)
    requires Inv(w) && id !in w.submitted && env.freshSession !in w.Logs()
    requires !w.loop.disk.EnqueueSucceeds(env)
    ensures Keeps(w, w.(loop := Submit(w.loop, id, prompt, config, env), submitted := w.submitted[id := config]))
  {
    hide Accounted, DoomKept, LogsKept, Attached, StoppedKept, Submit, LogsExtend, CompletedHistory;
    SubmitFields(w.loop, id, prompt, config, env);
    RejectCore(w, id, prompt, config, env, Submit(w.loop, id, prompt, config, env));
  }

  /** Queued behind an active turn; its worker's history is not affected. */
  lemma {:induction false} JoinKeeps(w: World, id: TurnId, prompt: string, config: Option<Config>, env: Env)
    requires Inv(w) && id !in w.submitted && env.freshSession !in w.Logs()
    requires w.loop.disk.EnqueueSucceeds(env) && HasActive(w.Turns())
    ensures Keeps(w, w.(loop := Submit(w.loop, id, prompt, config, env), submitted := w.submitted[id := config]))
  {
    hide Accounted, DoomKept, LogsKept, Attached, StoppedKept, Submit, LogsExtend, CompletedHistory, Working;
    var s, later := w.loop, Submit(w.loop, id, prompt, config, env);
    var turn := Turn(id, s.queue.nextSeq, prompt, Pending, None);
    NoActive(w.Turns());
    SubmitFields(s, id, prompt, config, env);
    ActiveKnown(w);
    AcceptCore(w, turn, config, env, later);
    RunningPushed(s, later, w.offered, turn);
  }

  lemma {:induction false} RunningPushed(s: Loop, later: Loop, offered: seq<HistoryRound>, turn: Turn)
    requires Running(s, offered) && turn.state == Pending
    requires later.queue.turns == s.queue.turns + [turn]
    requires later.worker == s.worker && later.token == s.token && later.cancelling == s.cancelling
    requires later.Unjoined() == s.Unjoined()
    requires later.compaction == s.compaction && later.pendingCompaction == s.pendingCompaction
    ensures Running(later, offered) && !Quiet(later)
  {
    ActivePushed(s.queue.turns, turn);
    HistoryPushed(s.queue.turns, turn, s.compaction);
  }

  lemma {:induction false} HistoryPushed(turns: seq<Turn>, turn: Turn, compaction: CompactionState)
    requires turn.state != Settled
    ensures CompletedHistory(turns + [turn], compaction) == CompletedHistory(turns, compaction)
  {
    assert (turns + [turn])[..|turns|] == turns;
  }

  lemma {:induction false} ActiveKnown(w: World)
    requires Inv(w)
    ensures w.loop.cancelling.Some? ==> w.loop.cancelling.value in w.submitted
  {
    if w.loop.cancelling.Some? {
      var turn := ActiveTurnOf(w.Turns(), w.loop.cancelling.value);
    }
  }

  lemma {:induction false} SubmitStarting(w: World, id: TurnId, prompt: string, config: Option<Config>, env: Env)
    requires Inv(w) && id !in w.submitted && env.freshSession !in w.Logs() && !w.loop.IsShuttingDown()
    requires w.loop.disk.EnqueueSucceeds(env) && !HasActive(w.Turns())
    ensures
      var later := w.(loop := Submit(w.loop, id, prompt, config, env), submitted := w.submitted[id := config]);
      && Core(later) && Starting(later.loop, id) && LogsExtend(w.Logs(), later.Logs())
      && id in later.loop.configs && later.loop.configs[id] == config
  {
    hide Accounted, DoomKept, LogsKept, Attached, StoppedKept, Submit, LogsExtend;
    var s, later := w.loop, Submit(w.loop, id, prompt, config, env);
    var turn := Turn(id, s.queue.nextSeq, prompt, Active, None);
    NoActive(w.Turns());
    SubmitFields(s, id, prompt, config, env);
    IdleIsSettled(w);
    AcceptCore(w, turn, config, env, later);
    ActivePushed(w.Turns(), turn);
  }

  lemma {:induction false} EnqueueKeeps(w: World, id: TurnId, prompt: string, config: Option<Config>, env: Env)
    requires Inv(w) && id !in w.submitted && env.freshSession !in w.Logs() && !w.loop.IsShuttingDown()
    ensures Keeps(w, w.(loop := EnqueueTurn(w.loop, id, prompt, config, env), submitted := w.submitted[id := config]))
  {
    hide Core, Submit, LogsExtend, Quiet, Running;
    if !w.loop.disk.EnqueueSucceeds(env) {
      RejectKeeps(w, id, prompt, config, env);
    } else if HasActive(w.Turns()) {
      JoinKeeps(w, id, prompt, config, env);
    } else {
      SubmitStarting(w, id, prompt, config, env);
      var later := w.(loop := Submit(w.loop, id, prompt, config, env), submitted := w.submitted[id := config]);
      StartCore(later, id);
      ExtendTrans(w.Logs(), later.Logs(), StartActive(later.loop, id).disk.logs);
    }
  }

  /** While the loop is open, no active turn means no open turn. */
  lemma {:induction false} IdleIsSettled(w: World)
    requires Inv(w) && !w.loop.IsShuttingDown()
    ensures !HasActive(w.Turns()) ==> forall t | t in w.Turns() :: t.state == Settled
  {
    if !HasActive(w.Turns()) {
      NoActive(w.Turns());
      var k := FirstIn(w.Turns(), Pending);
      forall t | t in w.Turns()
        ensures t.state == Settled
      {
        var i :| 0 <= i < |w.Turns()| && w.Turns()[i] == t;
      }
    }
  }

  lemma {:induction false} ActivePushed(turns: seq<Turn>, turn: Turn)
    ensures ActiveId(turns).Some? ==> ActiveId(turns + [turn]) == ActiveId(turns)
    ensures ActiveId(turns).None? ==>
              ActiveId(turns + [turn]) == if turn.state == Active then Some(turn.id) else None
  {
    var all := turns + [turn];
    var i, j := FirstIn(turns, Active), FirstIn(all, Active);
    assert forall k | 0 <= k < |turns| :: all[k] == turns[k];
    assert all[|turns|] == turn;
  }

  // ---- Settle ----

  lemma {:induction false} SettleKeeps(w: World, id: TurnId, result: TurnResult)
    requires Inv(w) && result.Canonical() && ActiveId(w.Turns()) == Some(id)
    ensures Keeps(w, w.(loop := SettleTurnOf(w.loop, id, result), heads := SettledHeads(w, id, result)))
  {
    SettleOneCore(w, id, result);
    var settled := w.(loop := SettleOne(w.loop, id, result), heads := SettledHeads(w, id, result));
    AdvanceCore(settled);
    ExtendTrans(w.Logs(), settled.Logs(), Advance(settled.loop).disk.logs);
  }

  // ---- Events without further effect ----

  predicate Informs(event: ConversationEvent) {
    !event.SettledTurn? && !event.TurnRemoved?
  }

  lemma {:induction false} InformKeeps(w: World, event: ConversationEvent)
    requires Inv(w) && Informs(event)
    requires forall id | id in w.doomed :: Respects(event, id)
    ensures Keeps(w, w.(loop := w.loop.Emit(event)))
  {
    hide Base, Accounted, DoomKept, LogsExtend, CompletedHistory;
    EndedSnoc(w.loop.events, event);
    DoomEvent(w.Turns(), w.loop.cancelling, w.loop.events, w.doomed, w.submitted, event);
    ExtendRefl(w.Logs());
  }

  lemma {:induction false} NotDoomed(w: World, id: TurnId)
    requires Core(w) && ActiveId(w.Turns()) == Some(id) && w.loop.cancelling != Some(id)
    ensures id !in w.doomed
  {
    hide Base, Accounted;
    var turn := ActiveTurnOf(w.Turns(), id);
  }

  /** Text is emitted for an active turn only while it is not cancelled. */
  lemma {:induction false} DeltaKeeps(w: World, id: TurnId, text: string)
    requires Inv(w)
    ensures Keeps(w, w.(loop := EmitDelta(w.loop, id, text)))
  {
    hide Core, LogsExtend, Quiet, Running;
    ExtendRefl(w.Logs());
    if ActiveId(w.Turns()) == Some(id) && w.loop.cancelling != Some(id) {
      NotDoomed(w, id);
      InformKeeps(w, DeltaEvent(id, text));
    }
  }

  lemma {:induction false} SummaryKeeps(w: World, session: SessionId, summary: string)
    requires Inv(w)
    ensures Keeps(w, w.(loop := AdoptSummary(w.loop, session, summary)))
  {
    hide Accounted, DoomKept, LogsKept, Attached, ConfigsKept, StoppedKept, LogsExtend, CompletedHistory;
    if w.loop.disk.current != Some(session) {
      ExtendRefl(w.Logs());
    } else {
      var noted := w.(loop := w.loop.(disk := w.loop.disk.AppendToCurrent(SummaryGenerated(summary))));
      LogNeutral(w.Logs(), session, SummaryGenerated(summary), w.submitted.Keys, w.heads);
      StoppedStay(w.stopped, w.Logs(), noted.Logs());
      SummaryAttached(LiveOf(w.loop), w.loop.disk, summary);
      InformKeeps(noted, SummaryUpdated(session, summary));
    }
  }

  lemma {:induction false} CompactsKeeps(w: World, tailBudget: nat, summary: string)
    requires Inv(w) && WorkerPlan(w, tailBudget).Some?
    ensures Keeps(w, Step(w, WorkerCompacts(tailBudget, summary)))
  {
    hide Base, Accounted, DoomKept, LogsExtend, PlanFor;
    ExtendRefl(w.Logs());
    var plan := WorkerPlan(w, tailBudget).value;
    PlanReported(w.loop.worker.value, plan, tailBudget, summary);
    assert Step(w, WorkerCompacts(tailBudget, summary)).loop
        == w.loop.(pendingCompaction := Some((w.loop.worker.value.turnId,
                                              CompactionState(Some(summary), plan.newCoveredThroughSeq))));
  }

  lemma {:induction false} PlanReported(job: TurnJob, plan: Plan, tailBudget: nat, summary: string)
    requires PlanFor(job.history, job.compaction, tailBudget) == Some(plan)
    ensures Reported(job, CompactionState(Some(summary), plan.newCoveredThroughSeq), plan.head)
  {
  }

  lemma {:induction false} SignalKeeps(w: World)
    requires Inv(w)
    ensures Keeps(w, w.(loop := w.loop.(shutdownRequested := true)))
  {
    ExtendRefl(w.Logs());
  }

  // ---- Cancellation ----

  lemma {:induction false} CancelDoom(
    turns: seq<Turn>, events: seq<ConversationEvent>, doomed: map<TurnId, nat>,
    submitted: map<TurnId, Option<Config>>, cancelling: Option<TurnId>, id: TurnId)
    requires Ordered(turns) && ActiveId(turns) == Some(id) && id in submitted
    requires DoomKept(turns, cancelling, events, doomed, submitted)
    requires cancelling.Some? ==> cancelling == Some(id)
    ensures DoomKept(turns, Some(id), events, if id in doomed then doomed else doomed[id := |events|], submitted)
  {
    var k := FirstIn(turns, Active);
    ActiveIsUnique(turns, k);
    SameId(turns, k);
  }

  lemma {:induction false} SameId(turns: seq<Turn>, k: nat)
    requires Ordered(turns) && k < |turns|
    ensures forall t | t in turns && t.id == turns[k].id :: t == turns[k]
  {
    OrderedIncreasing(turns);
    SameIdSameTurn(turns, k);
  }

  lemma {:induction false} CoreActive(w: World, id: TurnId)
    requires Core(w) && ActiveId(w.Turns()) == Some(id)
    ensures Ordered(w.Turns()) && id in w.submitted
  {
    var turn := ActiveTurnOf(w.Turns(), id);
  }

  /** Cancelling the active turn, as Cancel, Stop and Clear do. */
  lemma {:induction false} CancelKeeps(w: World)
    requires Inv(w)
    ensures Keeps(w, w.Doom().(loop := CancelActive(w.loop)))
    ensures CancelActive(w.loop).queue == w.loop.queue && CancelActive(w.loop).disk == w.loop.disk
    ensures CancelActive(w.loop).cancelling == ActiveId(w.Turns())
  {
    hide Base, Accounted, DoomKept, CompletedHistory;
    ExtendRefl(w.Logs());
    NoActive(w.Turns());
    if ActiveId(w.Turns()).Some? {
      var id := ActiveId(w.Turns()).value;
      CoreActive(w, id);
      CancelBase(w, id);
      CancelDoom(w.Turns(), w.loop.events, w.doomed, w.submitted, w.loop.cancelling, id);
    }
  }

  lemma {:induction false} CancelBase(w: World, id: TurnId)
    requires Core(w) && (w.loop.cancelling.Some? ==> w.loop.cancelling == Some(id))
    ensures Base(LiveOf(w.loop).(cancelling := Some(id)), w.loop.disk, w.loop.configs, w.loop.worker, w.submitted,
                 w.heads, w.stopped)
  {
    CancelAttached(LiveOf(w.loop), w.loop.disk, Some(id));
  }

  lemma {:induction false} CancelOneKeeps(w: World, id: TurnId)
    requires Inv(w) && ActiveId(w.Turns()) == Some(id)
    ensures Keeps(w, w.Doom().(loop := CancelOne(w.loop, id)))
  {
    CancelKeeps(w);
    assert CancelOne(w.loop, id) == CancelActive(w.loop);
  }

  // ---- Shutdown, restart, resume ----

  /** Dropping pending turns changes neither the rounds nor the active turn. */
  lemma {:induction false} DropPendingFacts(turns: seq<Turn>, compaction: CompactionState)
    requires Ordered(turns)
    ensures ActiveId(Retain(turns, NotPending)) == ActiveId(turns)
    ensures CompletedHistory(Retain(turns, NotPending), compaction) == CompletedHistory(turns, compaction)
    ensures FirstPending(Retain(turns, NotPending)).None?
  {
    RetainMembers(turns, NotPending);
    RetainOrdered(turns, NotPending);
    RoundsRetained(turns, NotPending);
    HistoryIsUncovered(turns, compaction);
    HistoryIsUncovered(Retain(turns, NotPending), compaction);
    SameActive(turns, Retain(turns, NotPending));
    FirstPendingIn(Retain(turns, NotPending));
  }

  lemma {:induction false} FirstPendingIn(turns: seq<Turn>)
    ensures FirstPending(turns).Some? ==> exists t :: t in turns && t.state == Pending
  {
    var i := FirstIn(turns, Pending);
    if i < |turns| {
      assert turns[i] in turns;
    }
  }

  lemma {:induction false} SameActive(turns: seq<Turn>, kept: seq<Turn>)
    requires Ordered(turns) && Ordered(kept)
    requires forall t: Turn | t.state == Active :: t in turns <==> t in kept
    ensures ActiveId(turns) == ActiveId(kept)
  {
    ActiveFound(turns, kept);
    ActiveFound(kept, turns);
  }

  lemma {:induction false} ActiveFound(turns: seq<Turn>, kept: seq<Turn>)
    requires Ordered(kept)
    requires forall t: Turn | t.state == Active && t in turns :: t in kept
    ensures ActiveId(turns).Some? ==> ActiveId(kept) == ActiveId(turns)
  {
    var i := FirstIn(turns, Active);
    if i < |turns| {
      assert turns[i] in turns;
      var k :| 0 <= k < |kept| && kept[k] == turns[i];
      ActiveIsUnique(kept, k);
    }
  }

  lemma {:induction false} FewerTurns(
    turns: seq<Turn>, fewer: seq<Turn>, configs: map<TurnId, Option<Config>>, later: map<TurnId, Option<Config>>,
    worker: Option<TurnJob>, submitted: map<TurnId, Option<Config>>)
    requires Known(turns, submitted) && ConfigsKept(turns, configs, worker, submitted)
    requires forall t | t in fewer :: t in turns
    requires forall t | t in fewer && t.state == Pending && t.id in configs ::
               t.id in later && later[t.id] == configs[t.id]
    ensures Known(fewer, submitted) && ConfigsKept(fewer, later, worker, submitted)
  {
  }

  lemma {:induction false} FewerDoomed(
    turns: seq<Turn>, fewer: seq<Turn>, cancelling: Option<TurnId>, events: seq<ConversationEvent>,
    doomed: map<TurnId, nat>, submitted: map<TurnId, Option<Config>>)
    requires DoomKept(turns, cancelling, events, doomed, submitted)
    requires forall t | t in fewer :: t in turns
    ensures DoomKept(fewer, cancelling, events, doomed, submitted)
  {
  }

  lemma {:induction false} CoreOrdered(w: World)
    requires Core(w)
    ensures Shaped(w.loop.queue) && Ordered(w.Turns())
  {
  }

  lemma {:induction false} ShutdownKeeps(w: World)
    requires Inv(w)
    ensures Keeps(w, w.(loop := ShutDown(w.loop), dropped := w.dropped + PendingSet(w.Turns())))
  {
    hide Base, Accounted, DoomKept, Ordered, LogsExtend, Retain, CompletedHistory;
    CoreOrdered(w);
    ExtendRefl(w.Logs());
    ShutdownBase(w);
    OpenNotPending(w.Turns());
    AccountedDrop(Open(w.Turns()), Ended(w.loop.events), w.dropped, w.lost, w.submitted.Keys, PendingSet(w.Turns()));
    DropPendingFacts(w.Turns(), w.loop.compaction);
    RetainMembers(w.Turns(), NotPending);
    FewerDoomed(w.Turns(), Retain(w.Turns(), NotPending), w.loop.cancelling, w.loop.events, w.doomed, w.submitted);
  }

  lemma {:induction false} ShutdownBase(w: World)
    requires Core(w)
    ensures Base(LiveOf(w.loop).(queue := w.loop.queue.(turns := Retain(w.Turns(), NotPending))), w.loop.disk, map[],
                 w.loop.worker, w.submitted, w.heads, w.stopped)
  {
    RetainShaped(w.loop.queue, NotPending);
    RetainMembers(w.Turns(), NotPending);
    DropPendingAttached(LiveOf(w.loop), w.loop.disk);
    FewerTurns(w.Turns(), Retain(w.Turns(), NotPending), w.loop.configs, map[], w.loop.worker, w.submitted);
  }

  /** A loop in which nothing is going on. */
  predicate AtRest(s: Loop, turns: seq<Turn>) {
    s.queue.turns == turns && Unmanned(s.worker, s.token, s.cancelling, s.pendingCompaction, s.Unjoined())
  }

  /** Replacing the queue by settled turns, of a session or of none. */
  lemma {:induction false} RestCore(w: World, later: World)
    requires Core(w) && later.loop.events == w.loop.events
    requires later == w.(loop := later.loop, lost := later.lost, offered := later.offered)
    requires later.Logs() == w.Logs() && AtRest(later.loop, later.Turns())
    requires Shaped(later.loop.queue) && Known(later.Turns(), w.submitted)
    requires forall t | t in later.Turns() :: t.state == Settled
    requires Attached(LiveOf(later.loop), later.loop.disk)
    requires Accounted({}, Ended(w.loop.events), w.dropped, later.lost, w.submitted.Keys)
    ensures Inv(later)
  {
    hide LogsKept, StoppedKept, Attached, Shaped;
    assert Open(later.Turns()) == {};
    NoActive(later.Turns());
    FirstPendingIn(later.Turns());
  }

  lemma {:induction false} RestartKeeps(w: World)
    requires Inv(w)
    ensures Keeps(w, Step(w, Restart))
  {
    hide LogsKept, StoppedKept, LogsExtend;
    ExtendRefl(w.Logs());
    AccountedDrop(Open(w.Turns()), Ended(w.loop.events), w.dropped, w.lost, w.submitted.Keys, Open(w.Turns()));
    assert Open(w.Turns()) - Open(w.Turns()) == {};
    RestCore(w, Step(w, Restart));
  }

  lemma {:induction false} RestoredShaped(log: seq<LogEvent>, ids: set<TurnId>)
    requires Consistent(log) && Mentions(log, ids)
    ensures Shaped(Queue(Restored(log).turns, NextAfter(Restored(log).turns)))
    ensures forall t | t in Restored(log).turns :: t.id in ids && t.state == Settled
  {
    hide Fold, NextAfter, Ordered, SettleCount;
    var folded := Fold(log).turns;
    RestoredSettled(log);
    EntriesMentioned(log, ids);
    InterruptedIncreasing(folded);
    forall t | t in InterruptAll(folded)
      ensures WellStated(t) && t.id in ids
    {
      var i := InterruptedFrom(folded, t);
      assert folded[i] in folded;
    }
    ResumeShaped(InterruptAll(folded));
  }

  lemma {:induction false} IdleIsQuiet(w: World)
    requires Inv(w) && !HasUnsettled(w.Turns())
    ensures Quiet(w.loop) && Accounted({}, Ended(w.loop.events), w.dropped, w.lost, w.submitted.Keys)
  {
    hide Base, DoomKept, Working;
    NoActive(w.Turns());
    assert Open(w.Turns()) == {};
  }

  lemma {:induction false} ResumeKeeps(w: World, session: SessionId)
    requires Inv(w) && !HasUnsettled(w.Turns()) && session in w.Logs()
    ensures
      var restored := Restored(w.Logs()[session]);
      Keeps(w, w.(loop := Resume(w.loop, session, restored.turns, restored.compaction)))
  {
    hide Restored, Core, LogsExtend, NextAfter, Attached, Shaped, Running, Accounted, Consistent, Mentions;
    var restored := Restored(w.Logs()[session]);
    ExtendRefl(w.Logs());
    IdleIsQuiet(w);
    LogKept(w, session);
    RestoredShaped(w.Logs()[session], w.submitted.Keys);
    ResumeAttached(w.loop.disk, session, w.loop.cancelling);
    RestCore(w, w.(loop := Resume(w.loop, session, restored.turns, restored.compaction)));
  }

  // ---- Stop ----

  ghost predicate AllCancelled(logs: Logs, session: SessionId, ids: seq<TurnId>) {
    session in logs && forall id | id in ids :: ReplaysCancelled(logs[session], id)
  }

  /** Removing one pending turn, as a step on worlds. */
  lemma {:induction false} RemoveCore(w: World, turn: Turn)
    requires Core(w) && turn in w.Turns() && turn.state == Pending
    ensures w.loop.disk.current.Some? && turn.id in w.loop.disk.turnSessions
            && w.loop.disk.turnSessions[turn.id] == w.loop.disk.current.value
    ensures
      var later := w.(loop := RemovePending(w.loop, turn.id));
      Core(later) && LogsExtend(w.Logs(), later.Logs())
    ensures AllCancelled(RemovePending(w.loop, turn.id).disk.logs, w.loop.disk.current.value, [turn.id])
  {
    hide Base, Accounted, DoomKept, Fold, LogsExtend;
    RemoveBase(w, turn);
    AccountedRemove(w, turn);
    RetainMembers(w.Turns(), OtherThan(turn.id));
    FewerDoomed(w.Turns(), Retain(w.Turns(), OtherThan(turn.id)), w.loop.cancelling, w.loop.events,
                w.doomed, w.submitted);
    DoomEvent(Retain(w.Turns(), OtherThan(turn.id)), w.loop.cancelling, w.loop.events, w.doomed, w.submitted,
              TurnRemoved(turn.id));
  }

  lemma {:induction false} RemoveBase(w: World, turn: Turn)
    requires Core(w) && turn in w.Turns() && turn.state == Pending
    ensures w.loop.disk.current.Some? && turn.id in w.loop.disk.turnSessions
            && w.loop.disk.turnSessions[turn.id] == w.loop.disk.current.value
    ensures
      var live := LiveOf(w.loop).(queue := w.loop.queue.(turns := Retain(w.Turns(), OtherThan(turn.id))));
      var disk := w.loop.disk.OnSettle(turn.id, CANCELLED);
      && Base(live, disk, w.loop.configs - {turn.id}, w.loop.worker, w.submitted, w.heads, w.stopped)
      && LogsExtend(w.Logs(), disk.logs)
      && AllCancelled(disk.logs, w.loop.disk.current.value, [turn.id])
  {
    hide LogsKept, Attached, ConfigsKept, StoppedKept, Disk.OnSettle, Fold, LogsExtend, Consistent, Ordered;
    OrderedIncreasing(w.Turns());
    CurrentConsistent(w);
    RemoveAttached(LiveOf(w.loop), w.loop.disk, turn);
    RemoveLogs(w, turn);
    StoppedStay(w.stopped, w.Logs(), w.loop.disk.OnSettle(turn.id, CANCELLED).logs);
    RetainShaped(w.loop.queue, OtherThan(turn.id));
    RetainMembers(w.Turns(), OtherThan(turn.id));
    FewerTurns(w.Turns(), Retain(w.Turns(), OtherThan(turn.id)), w.loop.configs, w.loop.configs - {turn.id},
               w.loop.worker, w.submitted);
  }

  lemma {:induction false} AccountedRemove(w: World, turn: Turn)
    requires Accounted(Open(w.Turns()), Ended(w.loop.events), w.dropped, w.lost, w.submitted.Keys)
    requires turn in w.Turns() && turn.state == Pending
    ensures Accounted(Open(Retain(w.Turns(), OtherThan(turn.id))), Ended(w.loop.events + [TurnRemoved(turn.id)]),
                      w.dropped, w.lost, w.submitted.Keys)
  {
    OpenWithout(w.Turns(), turn.id);
    EndedSnoc(w.loop.events, TurnRemoved(turn.id));
    AccountedEnd(Open(w.Turns()), Ended(w.loop.events), w.dropped, w.lost, w.submitted.Keys, turn.id);
  }

  lemma {:induction false} LogKept(w: World, session: SessionId)
    requires Core(w) && session in w.Logs()
    ensures LogInv(w.Logs()[session], w.submitted.Keys, HeadsAt(w.heads, session))
  {
  }

  lemma {:induction false} SettledReplays(log: seq<LogEvent>, turn: Turn)
    requires turn in Fold(log).turns
    ensures ReplaysCancelled(log + [SettledEvent(turn.id, CANCELLED)], turn.id)
  {
    var folded := Fold(log).turns;
    FoldSnoc(log, SettledEvent(turn.id, CANCELLED));
    ResultRoundTrip(turn.id, CANCELLED);
    var m :| 0 <= m < |folded| && folded[m] == turn;
    var after := SettleTurn(folded, turn.id, CANCELLED);
    assert after[m] in after;
  }

  lemma {:induction false} RemoveLogs(w: World, turn: Turn)
    requires Core(w) && turn in w.Turns() && turn.state == Pending
    requires w.loop.disk.current.Some?
    requires Owned(Fold(w.Logs()[w.loop.disk.current.value]).turns, w.loop.disk.turnSessions,
                   w.loop.disk.current.value, turn)
    ensures
      var later := w.loop.disk.OnSettle(turn.id, CANCELLED).logs;
      && LogsKept(later, w.submitted.Keys, w.heads) && LogsExtend(w.Logs(), later)
      && AllCancelled(later, w.loop.disk.current.value, [turn.id])
  {
    hide LogsKept, LogsExtend, Fold, SettleTurn, Linked, MaySettle, Consistent, LogRounds, ReplaysCancelled;
    var session := w.loop.disk.current.value;
    var log := w.Logs()[session];
    LogKept(w, session);
    EntryMaySettle(log, turn, CANCELLED);
    AppendSettled(log, turn.id, CANCELLED, w.submitted.Keys, HeadsAt(w.heads, session));
    ReplaceLog(w.Logs(), session, log + [SettledEvent(turn.id, CANCELLED)], w.submitted.Keys, w.submitted.Keys,
               w.heads, w.heads);
    SettledReplays(log, turn);
  }

  /** What removing turns leaves alone. */
  ghost predicate Besides(s: Loop, later: Loop) {
    && later.worker == s.worker && later.token == s.token && later.cancelling == s.cancelling
    && later.Unjoined() == s.Unjoined()
    && later.compaction == s.compaction && later.pendingCompaction == s.pendingCompaction
    && later.disk.current == s.disk.current && later.IsShuttingDown() == s.IsShuttingDown()
    && ActiveId(later.queue.turns) == ActiveId(s.queue.turns)
    && CompletedHistory(later.queue.turns, s.compaction) == CompletedHistory(s.queue.turns, s.compaction)
  }

  /** The pending turns of `later` are those of `s` that are not among `ids`. */
  ghost predicate Without(turns: seq<Turn>, later: seq<Turn>, ids: seq<TurnId>) {
    forall t: Turn | t.state == Pending :: t in turns && t.id !in ids <==> t in later
  }

  lemma {:induction false} RemoveBesides(s: Loop, turn: Turn)
    requires Ordered(s.queue.turns) && turn in s.queue.turns && turn.state == Pending
    ensures Besides(s, RemovePending(s, turn.id))
    ensures Without(s.queue.turns, RemovePending(s, turn.id).queue.turns, [turn.id])
  {
    var turns := s.queue.turns;
    var kept := Retain(turns, OtherThan(turn.id));
    var k :| 0 <= k < |turns| && turns[k] == turn;
    SameId(turns, k);
    RetainMembers(turns, OtherThan(turn.id));
    RetainOrdered(turns, OtherThan(turn.id));
    SameActive(turns, kept);
    RoundsRetained(turns, OtherThan(turn.id));
    HistoryIsUncovered(turns, s.compaction);
    HistoryIsUncovered(kept, s.compaction);
  }

  ghost predicate AllPending(turns: seq<Turn>, ids: seq<TurnId>) {
    forall id | id in ids :: exists t :: t in turns && t.state == Pending && t.id == id
  }

  ghost predicate Removed(w: World, later: World, ids: seq<TurnId>) {
    && Core(later) && LogsExtend(w.Logs(), later.Logs()) && Besides(w.loop, later.loop)
    && Without(w.Turns(), later.Turns(), ids)
    && (ids != [] ==> w.loop.disk.current.Some? && AllCancelled(later.Logs(), w.loop.disk.current.value, ids))
  }

  lemma {:induction false} NoneRemoved(w: World)
    requires Core(w)
    ensures Removed(w, w, [])
  {
    hide Core;
    ExtendRefl(w.Logs());
  }

  /** Removing pending turns one after the other. */
  lemma {:induction false} RemoveEachCore(w: World, ids: seq<TurnId>)
    requires Core(w) && NoRepeats(ids) && AllPending(w.Turns(), ids)
    ensures Removed(w, w.(loop := RemoveEach(w.loop, ids)), ids)
  {
    hide Core, Removed, LogsExtend, RemovePending;
    if ids == [] {
      NoneRemoved(w);
    } else {
      var n := |ids| - 1;
      assert ids == ids[..n] + [ids[n]];
      assert AllPending(w.Turns(), [ids[n]]) by {
        assert ids[n] in ids;
      }
      assert AllPending(w.Turns(), ids[..n]) by {
        assert forall id | id in ids[..n] :: id in ids;
      }
      RemoveEachCore(w, ids[..n]);
      RemoveLast(w, w.(loop := RemoveEach(w.loop, ids[..n])), ids[..n], ids[n]);
    }
  }

  lemma {:induction false} RemoveLast(w: World, front: World, ids: seq<TurnId>, id: TurnId)
    requires Removed(w, front, ids) && front == w.(loop := front.loop)
    requires id !in ids && AllPending(w.Turns(), [id])
    ensures Removed(w, w.(loop := RemovePending(front.loop, id)), ids + [id])
  {
    hide Base, Core, Fold, LogsExtend, CompletedHistory, RemovePending, ReplaysCancelled, Without;
    assert id in [id];
    var turn :| turn in w.Turns() && turn.state == Pending && turn.id == id;
    StillThere(w.Turns(), front.Turns(), ids, turn);
    RemoveCore(front, turn);
    CoreOrdered(front);
    RemoveBesides(front.loop, turn);
    ExtendTrans(w.Logs(), front.Logs(), RemovePending(front.loop, id).disk.logs);
    if ids != [] {
      StillCancelled(front.Logs(), RemovePending(front.loop, id).disk.logs, w.loop.disk.current.value, ids);
    }
    WithoutMore(w.Turns(), front.Turns(), RemovePending(front.loop, id).queue.turns, ids, id);
  }

  lemma {:induction false} StillThere(turns: seq<Turn>, later: seq<Turn>, ids: seq<TurnId>, turn: Turn)
    requires Without(turns, later, ids) && turn in turns && turn.state == Pending && turn.id !in ids
    ensures turn in later
  {
  }

  lemma {:induction false} WithoutMore(
      turns: seq<Turn>, front: seq<Turn>, later: seq<Turn>, ids: seq<TurnId>, id: TurnId)
    requires Without(turns, front, ids)
    requires Without(front, later, [id])
    ensures Without(turns, later, ids + [id])
  {
  }

  lemma {:induction false} StillCancelled(logs: Logs, later: Logs, session: SessionId, ids: seq<TurnId>)
    requires LogsExtend(logs, later) && AllCancelled(logs, session, ids)
    ensures AllCancelled(later, session, ids)
  {
    forall id | id in ids
      ensures ReplaysCancelled(later[session], id)
    {
      var t :| t in Fold(logs[session]).turns && t.id == id && t.state == Settled && t.result == Some(CANCELLED);
      assert t in Fold(later[session]).turns;
    }
  }

  lemma {:induction false} PendingIdsAre(turns: seq<Turn>)
    requires Ordered(turns)
    ensures NoRepeats(PendingIds(turns)) && ToSet(PendingIds(turns)) == PendingSet(turns)
  {
    if turns != [] {
      var front, last := turns[..|turns| - 1], turns[|turns| - 1];
      PendingIdsAre(front);
      PendingSetSnoc(front, last);
      assert turns == front + [last];
      var ids := PendingIds(front);
      if last.state == Pending {
        assert ToSet(ids + [last.id]) == ToSet(ids) + {last.id};
        forall i | 0 <= i < |ids|
          ensures ids[i] != last.id
        {
          assert ids[i] in ToSet(ids);
          var k :| 0 <= k < |front| && front[k].id == ids[i];
          assert Before(turns[k], turns[|turns| - 1]);
        }
      }
    }
  }

  lemma {:induction false} PendingSetSnoc(turns: seq<Turn>, turn: Turn)
    ensures PendingSet(turns + [turn]) == PendingSet(turns) + if turn.state == Pending then {turn.id} else {}
  {
    var all := turns + [turn];
    assert forall t :: t in all <==> t in turns || t == turn;
  }

  lemma {:induction false} PendingArePending(turns: seq<Turn>)
    requires Ordered(turns)
    ensures NoRepeats(PendingIds(turns)) && AllPending(turns, PendingIds(turns))
    ensures forall t | t in turns && t.state == Pending :: t.id in PendingIds(turns)
  {
    PendingIdsAre(turns);
    forall id | id in PendingIds(turns)
      ensures exists t :: t in turns && t.state == Pending && t.id == id
    {
      assert id in ToSet(PendingIds(turns));
    }
    forall t | t in turns && t.state == Pending
      ensures t.id in PendingIds(turns)
    {
      assert t.id in PendingSet(turns);
    }
  }

  /** Cancelling before or after the removals is the same, for they leave the active turn alone. */
  lemma {:induction false} CancelCommutes(w: World, ids: seq<TurnId>)
    requires Core(w) && NoRepeats(ids) && AllPending(w.Turns(), ids)
    ensures RemoveEach(CancelActive(w.loop), ids) == CancelActive(RemoveEach(w.loop, ids))
  {
    hide Core, Without, AllCancelled, LogsExtend, CompletedHistory;
    if ids != [] {
      var n := |ids| - 1;
      assert ids == ids[..n] + [ids[n]];
      assert AllPending(w.Turns(), ids[..n]) by {
        assert forall id | id in ids[..n] :: id in ids;
      }
      CancelCommutes(w, ids[..n]);
      RemoveEachCore(w, ids[..n]);
      RemoveEachCore(w, ids);
      CancelBesideRemoval(RemoveEach(w.loop, ids[..n]), ids[n]);
    }
  }

  lemma {:induction false} CancelBesideRemoval(s: Loop, id: TurnId)
    requires ActiveId(RemovePending(s, id).queue.turns) == ActiveId(s.queue.turns)
    ensures RemovePending(CancelActive(s), id) == CancelActive(RemovePending(s, id))
  {
    NoActive(s.queue.turns);
    NoActive(RemovePending(s, id).queue.turns);
  }

  /** A pending turn belongs to the attached session. */
  lemma {:induction false} PendingOwned(w: World)
    requires Core(w)
    ensures forall id | id in PendingSet(w.Turns()) ::
              && w.loop.disk.current.Some? && id in w.loop.disk.turnSessions
              && w.loop.disk.turnSessions[id] == w.loop.disk.current.value
  {
    hide LogsKept, ConfigsKept, StoppedKept, Fold;
    forall id | id in PendingSet(w.Turns())
      ensures && w.loop.disk.current.Some? && id in w.loop.disk.turnSessions
              && w.loop.disk.turnSessions[id] == w.loop.disk.current.value
    {
      var t :| t in w.Turns() && t.state == Pending && t.id == id;
    }
  }

  lemma {:induction false} StopKeeps(w: World)
    requires Inv(w)
    ensures Keeps(w, w.Doom().(loop := StopTurns(w.loop), stopped := w.stopped + StoppedBy(w)))
  {
    hide Core, LogsExtend, AllPending, NoRepeats, CancelActive, RemoveEach, Removed;
    var ids := PendingIds(w.Turns());
    var cancelled := w.Doom().(loop := CancelActive(w.loop));
    CancelKeeps(w);
    CoreOrdered(w);
    PendingArePending(w.Turns());
    RemoveEachCore(cancelled, ids);
    CancelCommutes(w, ids);
    var emptied := cancelled.(loop := StopTurns(w.loop));
    StoppedCore(w, cancelled, emptied, ids);
  }

  lemma {:induction false} StoppedCore(w: World, cancelled: World, emptied: World, ids: seq<TurnId>)
    requires Core(w) && Keeps(w, cancelled) && cancelled.Turns() == w.Turns()
    requires cancelled.loop.disk == w.loop.disk && cancelled.stopped == w.stopped
    requires Removed(cancelled, emptied, ids) && emptied == cancelled.(loop := emptied.loop)
    requires ids == PendingIds(w.Turns())
    ensures Keeps(w, emptied.(stopped := w.stopped + StoppedBy(w)))
  {
    hide Core, CompletedHistory;
    StoppedMore(w, emptied, ids);
    ExtendTrans(w.Logs(), cancelled.Logs(), emptied.Logs());
    RunningBesides(cancelled.loop, emptied.loop, cancelled.offered);
    CoreOrdered(w);
    PendingArePending(w.Turns());
    FirstPendingIn(emptied.Turns());
  }

  lemma {:induction false} RunningBesides(s: Loop, later: Loop, offered: seq<HistoryRound>)
    requires Besides(s, later) && (Quiet(s) || Running(s, offered))
    ensures Quiet(later) || Running(later, offered)
  {
  }

  lemma {:induction false} StoppedMore(w: World, emptied: World, ids: seq<TurnId>)
    requires Core(w) && Core(emptied) && emptied.stopped == w.stopped && ids == PendingIds(w.Turns())
    requires ids != [] ==> w.loop.disk.current.Some? && AllCancelled(emptied.Logs(), w.loop.disk.current.value, ids)
    ensures Core(emptied.(stopped := w.stopped + StoppedBy(w)))
  {
    hide LogsKept, Attached, ConfigsKept, Shaped, Known, Accounted, DoomKept, Fold, Ordered;
    CoreOrdered(w);
    PendingIdsAre(w.Turns());
    PendingOwned(w);
    var stopped := w.stopped + StoppedBy(w);
    forall id | id in stopped
      ensures stopped[id] in emptied.Logs() && ReplaysCancelled(emptied.Logs()[stopped[id]], id)
    {
      if id in StoppedBy(w) {
        assert id in ToSet(ids);
      }
    }
  }

  // ---- Clear ----

  /** Every entry of these turns in the log is still open, if there is one. */
  ghost predicate Closable(log: seq<LogEvent>, turns: seq<Turn>) {
    forall t | t in turns && t.state != Settled :: MaySettle(log, t.id, CANCELLED)
  }

  lemma {:induction false} OpenTurnsClosable(w: World)
    requires Core(w) && w.loop.disk.current.Some?
    ensures Closable(w.Logs()[w.loop.disk.current.value], w.Turns())
  {
    hide LogsKept, ConfigsKept, StoppedKept, Fold;
    var log := w.Logs()[w.loop.disk.current.value];
    CurrentConsistent(w);
    forall t: Turn | t in w.Turns() && t.state != Settled
      ensures MaySettle(log, t.id, CANCELLED)
    {
      OpenMaySettle(log, w.loop.disk.turnSessions, w.loop.disk.current.value, w.loop.cancelling, t);
    }
  }

  lemma {:induction false} OpenMaySettle(
    log: seq<LogEvent>, sessions: map<TurnId, SessionId>, session: SessionId, cancelling: Option<TurnId>, turn: Turn)
    requires Increasing(Fold(log).turns) && turn.state != Settled
    requires Linked(Fold(log).turns, sessions, session, cancelling, turn)
    ensures MaySettle(log, turn.id, CANCELLED)
  {
    var folded := Fold(log).turns;
    if !Absent(folded, turn.id) {
      var m :| 0 <= m < |folded| && folded[m] == turn.(state := Pending);
      SameIdSameTurn(folded, m);
    }
  }

  lemma {:induction false} StillClosable(log: seq<LogEvent>, settled: TurnId, id: TurnId)
    requires MaySettle(log, id, CANCELLED) && id != settled
    ensures MaySettle(log + [SettledEvent(settled, CANCELLED)], id, CANCELLED)
  {
    var before, after := Fold(log).turns, Fold(log + [SettledEvent(settled, CANCELLED)]).turns;
    FoldSnoc(log, SettledEvent(settled, CANCELLED));
    forall t | t in after && t.id == id
      ensures t.state == Pending
    {
      var i :| 0 <= i < |after| && after[i] == t;
      assert before[i] in before;
    }
  }

  lemma {:induction false} OthersClosable(log: seq<LogEvent>, turns: seq<Turn>, settled: TurnId)
    requires Closable(log, turns) && forall t | t in turns :: t.id != settled
    ensures Closable(log + [SettledEvent(settled, CANCELLED)], turns)
  {
    forall t | t in turns && t.state != Settled
      ensures MaySettle(log + [SettledEvent(settled, CANCELLED)], t.id, CANCELLED)
    {
      StillClosable(log, settled, t.id);
    }
  }

  lemma {:induction false} SettledLogs(
    logs: Logs, session: SessionId, id: TurnId, ids: set<TurnId>, heads: map<SessionId, seq<seq<HistoryRound>>>)
    requires LogsKept(logs, ids, heads) && session in logs && id in ids && MaySettle(logs[session], id, CANCELLED)
    ensures LogsKept(Appended(logs, session, SettledEvent(id, CANCELLED)), ids, heads)
    ensures LogsExtend(logs, Appended(logs, session, SettledEvent(id, CANCELLED)))
  {
    hide LogsExtend, LogInv, Extends, Fold;
    var log := logs[session];
    assert LogInv(log, ids, HeadsAt(heads, session));
    AppendSettled(log, id, CANCELLED, ids, HeadsAt(heads, session));
    ReplaceLog(logs, session, log + [SettledEvent(id, CANCELLED)], ids, ids, heads, heads);
  }

  /** Clear settles the open turns one by one in the log they belong to. */
  lemma {:induction false} CancelUnsettledLogs(
    disk: Disk, done: seq<Turn>, rest: seq<Turn>, ids: set<TurnId>, heads: map<SessionId, seq<seq<HistoryRound>>>)
    requires disk.current.Some? && disk.current.value in disk.logs && LogsKept(disk.logs, ids, heads)
    requires Increasing(done + rest) && Closable(disk.logs[disk.current.value], done + rest)
    requires forall t | t in done :: t.id in ids
    ensures
      var later := disk.CancelUnsettled(done);
      && later.current == disk.current && disk.current.value in later.logs
      && LogsKept(later.logs, ids, heads) && LogsExtend(disk.logs, later.logs)
      && Closable(later.logs[disk.current.value], rest)
    decreases |done|
  {
    hide LogsKept, LogsExtend, MaySettle, Increasing;
    if done == [] {
      ExtendRefl(disk.logs);
      assert done + rest == rest;
    } else {
      var front, last := done[..|done| - 1], done[|done| - 1];
      assert done + rest == front + ([last] + rest);
      assert done == front + [last];
      CancelUnsettledLogs(disk, front, [last] + rest, ids, heads);
      LastCancelled(disk, disk.CancelUnsettled(front), front, last, rest, ids, heads);
    }
  }

  lemma {:induction false} LastCancelled(
    disk: Disk, before: Disk, front: seq<Turn>, last: Turn, rest: seq<Turn>, ids: set<TurnId>,
    heads: map<SessionId, seq<seq<HistoryRound>>>)
    requires disk.current.Some? && before == disk.CancelUnsettled(front)
    requires before.current == disk.current && disk.current.value in before.logs
    requires LogsKept(before.logs, ids, heads) && LogsExtend(disk.logs, before.logs)
    requires Closable(before.logs[disk.current.value], [last] + rest)
    requires Increasing(front + ([last] + rest)) && last.id in ids
    ensures
      var later := disk.CancelUnsettled(front + [last]);
      && later.current == disk.current && disk.current.value in later.logs
      && LogsKept(later.logs, ids, heads) && LogsExtend(disk.logs, later.logs)
      && Closable(later.logs[disk.current.value], rest)
  {
    hide LogsKept, LogsExtend, MaySettle;
    var session := disk.current.value;
    assert (front + [last])[..|front|] == front;
    assert last in [last] + rest;
    assert forall t | t in rest :: t in [last] + rest;
    if last.state != Settled {
      OthersAfter(front, last, rest);
      SettledLogs(before.logs, session, last.id, ids, heads);
      ExtendTrans(disk.logs, before.logs, Appended(before.logs, session, SettledEvent(last.id, CANCELLED)));
      OthersClosable(before.logs[session], rest, last.id);
    }
  }

  lemma {:induction false} OthersAfter(front: seq<Turn>, last: Turn, rest: seq<Turn>)
    requires Increasing(front + ([last] + rest))
    ensures forall t | t in rest :: t.id != last.id
  {
    var all := front + ([last] + rest);
    forall t | t in rest
      ensures t.id != last.id
    {
      var i :| 0 <= i < |rest| && rest[i] == t;
      assert all[|front|] == last && all[|front| + 1 + i] == t;
    }
  }

  lemma {:induction false} ClearLogs(w: World)
    requires Core(w)
    ensures LogsKept(w.loop.disk.OnClear(w.Turns()).logs, w.submitted.Keys, w.heads)
    ensures LogsExtend(w.Logs(), w.loop.disk.OnClear(w.Turns()).logs)
  {
    hide LogsKept, ConfigsKept, StoppedKept, Fold, Linked, LogsExtend, Closable;
    if w.loop.disk.current.None? {
      ExtendRefl(w.Logs());
    } else {
      OpenTurnsClosable(w);
      CoreOrdered(w);
      OrderedIncreasing(w.Turns());
      assert w.Turns() + [] == w.Turns();
      CancelUnsettledLogs(w.loop.disk, w.Turns(), [], w.submitted.Keys, w.heads);
    }
  }

  /** What is left of the queue. */
  function Cleared(turns: seq<Turn>): seq<Turn> {
    Retain(Retain(turns, NotPending), NotSettled)
  }

  lemma {:induction false} ClearedTurns(turns: seq<Turn>)
    requires Ordered(turns)
    ensures Ordered(Cleared(turns))
    ensures forall t :: t in Cleared(turns) <==> t in turns && t.state == Active
    ensures ActiveId(Cleared(turns)) == ActiveId(turns) && FirstPending(Cleared(turns)).None?
    ensures Open(Cleared(turns)) == Open(turns) - PendingSet(turns) && PendingSet(turns) <= Open(turns)
  {
    RetainMembers(turns, NotPending);
    RetainMembers(Retain(turns, NotPending), NotSettled);
    RetainOrdered(turns, NotPending);
    RetainOrdered(Retain(turns, NotPending), NotSettled);
    SameActive(turns, Cleared(turns));
    FirstPendingIn(Cleared(turns));
    OpenNotPending(turns);
    OpenNotSettled(Retain(turns, NotPending));
  }

  lemma {:induction false} ClearBase(w: World)
    requires Core(w) && w.loop.cancelling == ActiveId(w.Turns())
    ensures Base(Live(w.loop.queue.(turns := Cleared(w.Turns())), w.loop.cancelling, NO_COMPACTION),
                 w.loop.disk.OnClear(w.Turns()), map[], w.loop.worker, w.submitted, w.heads, w.stopped)
    ensures LogsExtend(w.Logs(), w.loop.disk.OnClear(w.Turns()).logs)
  {
    hide LogsKept, ConfigsKept, StoppedKept, Fold, Linked, LogsExtend, Attached, Known, Shaped, Disk.OnClear, Ordered;
    CoreOrdered(w);
    ClearLogs(w);
    ClearedTurns(w.Turns());
    StoppedStay(w.stopped, w.Logs(), w.loop.disk.OnClear(w.Turns()).logs);
    RetainShaped(w.loop.queue, NotPending);
    RetainShaped(w.loop.queue.(turns := Retain(w.Turns(), NotPending)), NotSettled);
    FewerTurns(w.Turns(), Cleared(w.Turns()), w.loop.configs, map[], w.loop.worker, w.submitted);
    ActiveIsThis(w.Turns());
    ClearAttached(LiveOf(w.loop), w.loop.disk);
  }

  lemma {:induction false} ActiveIsThis(turns: seq<Turn>)
    requires Ordered(turns)
    ensures forall t | t in turns && t.state == Active :: ActiveId(turns) == Some(t.id)
  {
    forall t | t in turns && t.state == Active
      ensures ActiveId(turns) == Some(t.id)
    {
      var i :| 0 <= i < |turns| && turns[i] == t;
      ActiveIsUnique(turns, i);
    }
  }

  lemma {:induction false} ClearCancelled(w: World)
    requires Inv(w) && w.loop.cancelling == ActiveId(w.Turns())
    ensures Keeps(w, w.(loop := ClearSession(w.loop), dropped := w.dropped + PendingSet(w.Turns())))
  {
    hide Retain;
    hide Base, Accounted, DoomKept, LogsExtend, Ordered, Working, CompletedHistory;
    CoreOrdered(w);
    ClearBase(w);
    ClearedTurns(w.Turns());
    AccountedDrop(Open(w.Turns()), Ended(w.loop.events), w.dropped, w.lost, w.submitted.Keys, PendingSet(w.Turns()));
    FewerDoomed(w.Turns(), Cleared(w.Turns()), w.loop.cancelling, w.loop.events, w.doomed, w.submitted);
    NoActive(w.Turns());
  }

  lemma {:induction false} ClearKeeps(w: World)
    requires Inv(w)
    ensures Keeps(w, w.Doom().(loop := ClearSession(w.loop), dropped := w.dropped + PendingSet(w.Turns())))
  {
    hide Core, LogsExtend, PendingSet, Running;
    CancelKeeps(w);
    NoActive(w.Turns());
    var cancelled := w.Doom().(loop := CancelActive(w.loop));
    ClearCancelled(cancelled);
    assert ClearSession(CancelActive(w.loop)) == ClearSession(w.loop);
  }

  // ---- Every action, every run ----

  lemma {:induction false} StepKeeps(w: World, action: Action)
    requires Inv(w) && Legal(w, action)
    ensures Keeps(w, Step(w, action))
  {
    hide Core, LogsExtend, Quiet, Running, Restored, EnqueueTurn, SettleTurnOf, CancelOne, StopTurns, ClearSession,
         ShutDown, Resume, AdoptSummary, EmitDelta, ActiveId, World.Doom, Open, PendingSet, HasUnsettled;
    match action
    case WorkerCompacts(tailBudget, summary) => CompactsKeeps(w, tailBudget, summary);
    case SignalShutdown => SignalKeeps(w);
    case Restart => RestartKeeps(w);
    case Do(command, env) => CommandKeeps(w, command, env);
  }

  lemma {:induction false} CommandKeeps(w: World, command: Command, env: Env)
    requires Inv(w) && Legal(w, Do(command, env))
    ensures Keeps(w, Step(w, Do(command, env)))
  {
    hide Core, LogsExtend, Quiet, Running, Restored, StopTurns, ClearSession, WorkerPlan,
         ShutDown, Resume, AdoptSummary, EmitDelta, ActiveId, World.Doom, Open, PendingSet, HasUnsettled;
    match command
    case Enqueue(id, prompt, config) =>
      if w.loop.IsShuttingDown() { ExtendRefl(w.Logs()); } else { EnqueueKeeps(w, id, prompt, config, env); }
    case Delta(id, text) => DeltaKeeps(w, id, text);
    case Settle(id, result) =>
      if ActiveId(w.Turns()) == Some(id) { SettleKeeps(w, id, result); } else { ExtendRefl(w.Logs()); }
    case CompactedBy(_, _) =>
    case CompactionStatus(id, active) => InformKeeps(w, CompactionStatusEvent(id, active));
    case Cancel(id) =>
      if ActiveId(w.Turns()) == Some(id) { CancelOneKeeps(w, id); } else { ExtendRefl(w.Logs()); }
    case Stop => StopKeeps(w);
    case QueryStatus => ExtendRefl(w.Logs());
    case ResumeSession(session, turns, compaction) => ResumeKeeps(w, session);
    case SetSessionSummary(session, summary) => SummaryKeeps(w, session, summary);
    case Clear => ClearKeeps(w);
    case Shutdown => ShutdownKeeps(w);
  }

  lemma {:induction false} StartInv()
    ensures Inv(START)
  {
  }

  /** The invariant holds after every legal run, and the logs have only grown. */
  lemma {:induction false} RunKeeps(w: World, actions: seq<Action>)
    requires Inv(w) && LegalRun(w, actions)
    ensures Keeps(w, Run(w, actions))
    decreases |actions|
  {
    hide Inv, LogsExtend, Step;
    if actions == [] {
      ExtendRefl(w.Logs());
    } else {
      StepKeeps(w, actions[0]);
      RunKeeps(Step(w, actions[0]), actions[1..]);
      ExtendTrans(w.Logs(), Step(w, actions[0]).Logs(), Run(w, actions).Logs());
    }
  }
}
