// Every session log on disk begins with its start event, and holds no other one.
module LogStarts {
  import opened Common
  import opened Turns
  import opened SessionLog
  import opened LoopSpec
  import opened World

  predicate StartsOnce(log: seq<LogEvent>) {
    log != [] && log[0].SessionStarted? && forall i | 0 < i < |log| :: !log[i].SessionStarted?
  }

  /** Logs are well begun, and events can only go to logs that exist. */
  ghost predicate Begun(disk: Disk) {
    && (forall session | session in disk.logs :: StartsOnce(disk.logs[session]))
    && (disk.current.Some? ==> disk.current.value in disk.logs)
    && forall id | id in disk.turnSessions :: disk.turnSessions[id] in disk.logs
  }

  lemma {:induction false} AppendBegun(disk: Disk, session: SessionId, event: LogEvent)
    requires Begun(disk) && session in disk.logs && !event.SessionStarted?
    ensures Begun(disk.(logs := Appended(disk.logs, session, event)))
  {
  }

  lemma {:induction false} EnqueueBegun(disk: Disk, id: TurnId, seqNo: nat, prompt: string, env: Env)
    requires Begun(disk) && env.freshSession !in disk.logs
    ensures Begun(disk.OnEnqueue(id, seqNo, prompt, env))
  {
    var started := disk.EnsureSession(env);
    assert Begun(started);
    if started.current.Some? && !env.fault.EnqueueAppendFault? {
      AppendBegun(started, started.current.value, TurnEnqueued(id, seqNo, prompt));
    }
  }

  lemma {:induction false} SettleBegun(disk: Disk, id: TurnId, result: TurnResult)
    requires Begun(disk)
    ensures Begun(disk.OnSettle(id, result))
  {
    if id in disk.turnSessions {
      AppendBegun(disk, disk.turnSessions[id], SettledEvent(id, result));
    }
  }

  lemma {:induction false} CancelsBegun(disk: Disk, turns: seq<Turn>)
    requires Begun(disk) && disk.current.Some?
    ensures Begun(disk.CancelUnsettled(turns)) && disk.CancelUnsettled(turns).current == disk.current
  {
    if turns != [] {
      var front, last := disk.CancelUnsettled(turns[..|turns| - 1]), turns[|turns| - 1];
      CancelsBegun(disk, turns[..|turns| - 1]);
      if last.state != Settled {
        AppendBegun(front, disk.current.value, SettledEvent(last.id, CANCELLED));
      }
    }
  }

  lemma {:induction false} NoteBegun(disk: Disk, event: LogEvent)
    requires Begun(disk) && !event.SessionStarted?
    ensures Begun(disk.AppendToCurrent(event))
  {
    if disk.current.Some? {
      AppendBegun(disk, disk.current.value, event);
    }
  }

  lemma {:induction false} SettleOneBegun(s: Loop, id: TurnId, result: TurnResult)
    requires Begun(s.disk)
    ensures Begun(SettleOne(s, id, result).disk)
  {
    hide Begun, CompletedHistory, SettledActive, Disk.OnSettle, Disk.AppendToCurrent, ForcedResult;
    var forced := ForcedResult(s, id, result);
    var settled := s.WithTurns(SettledActive(s.queue.turns, id, forced));
    if Adopts(settled, id, result) && settled.pendingCompaction.value.1.summary.Some? {
      var state := settled.pendingCompaction.value.1;
      NoteBegun(s.disk, Compacted(state.coveredThroughSeq, state.summary.value));
    }
    SettleBegun(TakeCompaction(settled, id, result).disk, id, forced);
  }

  lemma {:induction false} StartBegun(s: Loop, id: TurnId)
    requires Begun(s.disk)
    ensures Begun(StartActive(s, id).disk)
    decreases PendingCount(s.queue.turns), 3
  {
    hide Begun, CompletedHistory, SettleOne;
    if !(id in s.configs && s.configs[id].Some?) {
      SettlingBegun(s.(configs := s.configs - {id}), id, NEEDS_CONFIGURATION);
    }
  }

  lemma {:induction false} SettlingBegun(s: Loop, id: TurnId, result: TurnResult)
    requires Begun(s.disk)
    ensures Begun(SettleTurnOf(s, id, result).disk)
    decreases PendingCount(s.queue.turns), 2
  {
    hide Begun, CompletedHistory, SettleOne;
    if ActiveId(s.queue.turns) == Some(id) {
      SettleOneBegun(s, id, result);
      SettleOneKeepsPending(s, id, result);
      AdvanceBegun(SettleOne(s, id, result));
    }
  }

  lemma {:induction false} AdvanceBegun(s: Loop)
    requires Begun(s.disk)
    ensures Begun(Advance(s).disk)
    decreases PendingCount(s.queue.turns), 1
  {
    hide Begun, CompletedHistory, SettleOne;
    if !s.IsShuttingDown() && FirstPending(s.queue.turns).Some? {
      ActivationLowersPending(s);
      StartBegun(Activate(s), FirstPending(s.queue.turns).value);
    }
  }

  lemma {:induction false} EnqueueTurnBegun(s: Loop, id: TurnId, prompt: string, config: Option<Config>, env: Env)
    requires Begun(s.disk) && env.freshSession !in s.disk.logs
    ensures Begun(EnqueueTurn(s, id, prompt, config, env).disk)
  {
    hide Begun, StartActive, Disk.OnEnqueue, Disk.EnqueueSucceeds, PromptOf, Retain;
    var turns := s.queue.turns + [Turn(id, s.queue.nextSeq, prompt, InitialState(s), None)];
    EnqueueBegun(s.disk, id, s.queue.nextSeq, PromptOf(turns, id), env);
    StartBegun(Submit(s, id, prompt, config, env), id);
  }

  lemma {:induction false} RemovalsBegun(s: Loop, ids: seq<TurnId>)
    requires Begun(s.disk)
    ensures Begun(RemoveEach(s, ids).disk)
  {
    hide Begun, Disk.OnSettle, Retain;
    if ids != [] {
      RemovalsBegun(s, ids[..|ids| - 1]);
      SettleBegun(RemoveEach(s, ids[..|ids| - 1]).disk, ids[|ids| - 1], CANCELLED);
    }
  }

  lemma {:induction false} ClearBegun(s: Loop)
    requires Begun(s.disk)
    ensures Begun(ClearSession(s).disk)
  {
    hide Disk.CancelUnsettled, Retain;
    if s.disk.current.Some? {
      CancelsBegun(s.disk, s.queue.turns);
    }
  }

  lemma {:induction false} AttachBegun(disk: Disk, session: SessionId)
    requires Begun(disk) && session in disk.logs
    ensures Begun(disk.Attach(session))
  {
  }

  lemma {:induction false} HandleBegun(s: Loop, command: Command, env: Env)
    requires Begun(s.disk)
    requires command.Enqueue? ==> env.freshSession !in s.disk.logs
    requires command.ResumeSession? ==> command.session in s.disk.logs
    ensures Begun(Handle(s, command, env).disk)
  {
    hide Begun, EnqueueTurn, SettleTurnOf, RemoveEach, ClearSession, Retain, Disk.AppendToCurrent, Disk.Attach;
    match command
    case Enqueue(id, prompt, config) => EnqueueTurnBegun(s, id, prompt, config, env);
    case Settle(id, result) => SettlingBegun(s, id, result);
    case Stop => RemovalsBegun(s, PendingIds(s.queue.turns));
    case Clear => ClearBegun(s);
    case ResumeSession(session, _, _) => AttachBegun(s.disk, session);
    case SetSessionSummary(_, summary) => NoteBegun(s.disk, SummaryGenerated(summary));
    case _ =>
  }

  lemma {:induction false} RunBegun(w: World, actions: seq<Action>)
    requires LegalRun(w, actions) && Begun(w.loop.disk)
    ensures Begun(Run(w, actions).loop.disk)
    decreases |actions|
  {
    hide Legal, Step, Begun;
    if actions != [] {
      StepBegun(w, actions[0]);
      RunBegun(Step(w, actions[0]), actions[1..]);
    }
  }

  lemma {:induction false} StepBegun(w: World, action: Action)
    requires Legal(w, action) && Begun(w.loop.disk)
    ensures Begun(Step(w, action).loop.disk)
  {
    hide Handle, WorkerPlan, Begun;
    if action.Do? {
      HandleBegun(w.loop, action.command, action.env);
    } else {
      Reopened(w.loop.disk);
    }
  }

  lemma {:induction false} Reopened(disk: Disk)
    requires Begun(disk)
    ensures Begun(Disk(None, map[], disk.logs))
  {
  }

  /** On every run each session log begins with its start event and holds no other one. */
  lemma {:induction false} LogsStartOnce(actions: seq<Action>, session: SessionId)
    requires LegalRun(START, actions) && session in Run(START, actions).Logs()
    ensures StartsOnce(Run(START, actions).Logs()[session])
  {
    hide LegalRun, Run;
    RunBegun(START, actions);
  }

  /**
   * A session that cannot be started refuses its first turn. When the start event could not be
   * appended nothing is left; when the row could not be written a log with that event alone is.
   */
  lemma {:induction false} StartFaults(disk: Disk, id: TurnId, seqNo: nat, prompt: string, env: Env)
    requires disk.current.None? && env.freshSession !in disk.logs
    ensures
      var later := disk.OnEnqueue(id, seqNo, prompt, env);
      && (env.fault.StartAppendFault? ==> !disk.EnqueueSucceeds(env) && later == disk)
      && (env.fault.StartRowFault? ==>
            !disk.EnqueueSucceeds(env) && later == disk.(logs := disk.logs[env.freshSession := [SessionStarted]]))
  {
    assert [] + [SessionStarted] == [SessionStarted];
  }
}
