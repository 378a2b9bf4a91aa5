// The coordinator object: src/conversation/state.rs. Every method is tied to its step
// function in LoopSpec.dfy.
module LoopState {
  import opened Common
  import opened Request
  import opened Turns
  import opened Transcript
  import opened SessionLog
  import opened Persistence
  import opened LoopSpec

  class LoopState {
    const transcript: Transcript
    const persistence: SessionPersistence
    var configs: map<TurnId, Option<Config>>
    var activeCancel: Option<bool>
    var cancelling: Option<TurnId>
    var activeThread: Option<TurnJob>
    ghost var spawned: nat
    ghost var joined: nat
    var shuttingDown: bool
    var shutdownRequested: bool
    var compaction: CompactionState
    var pendingCompaction: Option<(TurnId, CompactionState)>
    var activeConfig: Option<Config>
    var summaryRequested: bool
    var emitted: seq<ConversationEvent>
    var summaryJobs: seq<SummaryJob>

    ghost function View(): Loop
      reads this, transcript, persistence
    {
      Loop(transcript.View(), configs, activeCancel, cancelling, activeThread, spawned, joined,
           shuttingDown, shutdownRequested,
           persistence.View(), compaction, pendingCompaction, activeConfig, summaryRequested, emitted, summaryJobs)
    }

    constructor (logs: Logs)
      ensures View() == Initial(logs) && fresh(transcript) && fresh(persistence)
    {
      var transcript := new Transcript();
      var persistence := new SessionPersistence(logs);
      this.transcript, this.persistence := transcript, persistence;
      configs, activeCancel, cancelling, activeThread := map[], None, None, None;
      spawned, joined := 0, 0;
      shuttingDown, shutdownRequested := false, false;
      compaction, pendingCompaction, activeConfig, summaryRequested := NO_COMPACTION, None, None, false;
      emitted, summaryJobs := [], [];
    }

    /** Handles one command; the result tells the loop to end. */
    method Handle(command: Command, env: Env) returns (exit: bool)
      modifies this, transcript, persistence
      ensures View() == LoopSpec.Handle(old(View()), command, env)
      ensures exit <==> View().IsShuttingDown() && !HasActive(View().queue.turns)
    {
      Dispatch(command, env);
      var active := transcript.ActiveTurn();
      exit := (shuttingDown || shutdownRequested) && active.None?;
    }

    method Dispatch(command: Command, env: Env)
      modifies this, transcript, persistence
      ensures View() == LoopSpec.Handle(old(View()), command, env)
    {
      hide LoopSpec.EnqueueTurn, LoopSpec.SettleTurnOf, EmitDelta, CancelOne, StopTurns, LoopSpec.Resume,
           AdoptSummary, ClearSession, ShutDown;
      match command {
        case Enqueue(id, prompt, config) => EnqueueTurn(id, prompt, config, env);
        case Delta(id, text) => EmitCurrentDelta(id, text);
        case Settle(id, result) => Settle(id, result);
        case CompactedBy(id, state) => pendingCompaction := Some((id, state));
        case CompactionStatus(id, active) => emitted := emitted + [CompactionStatusEvent(id, active)];
        case SetSessionSummary(session, summary) => AdoptGeneratedSummary(session, summary);
        case Cancel(id) => CancelTurn(id);
        case QueryStatus =>
        case ResumeSession(session, turns, restored) => Resume(session, turns, restored);
        case Stop => Stop();
        case Clear => Clear();
        case Shutdown => Shutdown();
      }
    }

    /** Answers a status query. */
    method Status() returns (current: Option<SessionId>, hasUnsettledTurns: bool)
      ensures current == View().disk.current
      ensures hasUnsettledTurns <==> HasUnsettled(View().queue.turns)
    {
      current := persistence.currentSession;
      hasUnsettledTurns := exists t | t in transcript.turns :: t.state != Settled;
    }

    method CancelActiveTurn()
      modifies this`activeCancel, this`cancelling
      ensures View() == CancelActive(old(View()))
    {
      var active := transcript.ActiveTurn();
      if active.Some? {
        cancelling := active;
      }
      if activeCancel.Some? {
        activeCancel := Some(true);
      }
    }

    method CancelTurn(id: TurnId)
      modifies this`activeCancel, this`cancelling
      ensures View() == CancelOne(old(View()), id)
    {
      var active := transcript.ActiveTurn();
      if active == Some(id) {
        cancelling := Some(id);
        if activeCancel.Some? {
          activeCancel := Some(true);
        }
      }
    }

    method Resume(session: SessionId, turns: seq<Turn>, restored: CompactionState)
      modifies this, transcript, persistence
      ensures View() == LoopSpec.Resume(old(View()), session, turns, restored)
    {
      persistence.AttachSession(session);
      transcript.ReplaceWith(turns);
      compaction, pendingCompaction, summaryRequested := restored, None, true;
    }

    method EnqueueTurn(id: TurnId, prompt: string, config: Option<Config>, env: Env)
      modifies this, transcript, persistence
      ensures View() == LoopSpec.EnqueueTurn(old(View()), id, prompt, config, env)
    {
      if shuttingDown || shutdownRequested {
        return;
      }
      var start := Submit(id, prompt, config, env);
      if start {
        StartActive(id);
      }
    }

    method Submit(id: TurnId, prompt: string, config: Option<Config>, env: Env) returns (start: bool)
      modifies this, transcript, persistence
      ensures View() == LoopSpec.Submit(old(View()), id, prompt, config, env)
      ensures start <==> !HasActive(old(View()).queue.turns) && old(View()).disk.EnqueueSucceeds(env)
    {
      var seqNo, state, ok := Push(id, prompt, config, env);
      if !ok {
        Reject(id, env.fault);
        return false;
      }
      emitted := emitted + [EnqueuedEvent(id, seqNo, state)];
      return state == Active;
    }

    method Push(id: TurnId, prompt: string, config: Option<Config>, env: Env)
      returns (seqNo: nat, state: TurnState, ok: bool)
      modifies this`configs, transcript, persistence
      ensures View() == LoopSpec.Push(old(View()), id, prompt, config, env)
      ensures seqNo == old(View()).queue.nextSeq && state == InitialState(old(View()))
      ensures ok <==> old(View()).disk.EnqueueSucceeds(env)
    {
      var active := transcript.ActiveTurn();
      state := if active.Some? then Pending else Active;
      seqNo := transcript.Push(id, prompt, state);
      configs := configs[id := config];
      ok := persistence.OnEnqueue(id, seqNo, PromptOf(transcript.turns, id), env);
    }

    method Reject(id: TurnId, fault: StorageFault)
      modifies this`emitted, transcript
      ensures View() == LoopSpec.Reject(old(View()), id, fault)
    {
      transcript.Remove(OtherThan(id));
      emitted := emitted + [SettledTurn(id, ErrorResult("sessionPersistence", FaultMessage(fault)))];
    }

    method EmitCurrentDelta(id: TurnId, text: string)
      modifies this
      ensures View() == EmitDelta(old(View()), id, text)
    {
      var active := transcript.ActiveTurn();
      if active == Some(id) && cancelling != Some(id) {
        emitted := emitted + [DeltaEvent(id, text)];
      }
    }

    /** Ends when no pending turn is left to activate. */
    method Settle(id: TurnId, result: TurnResult)
      modifies this, transcript, persistence
      ensures View() == SettleTurnOf(old(View()), id, result)
      decreases PendingCount(transcript.turns), 2
    {
      ghost var before := View();
      var settled := SettleActiveTurn(id, result);
      if settled {
        SettleOneKeepsPending(before, id, result);
        AdvanceQueue();
      }
    }

    method AdvanceQueue()
      modifies this, transcript, persistence
      ensures View() == Advance(old(View()))
      decreases PendingCount(transcript.turns), 1
    {
      if shuttingDown || shutdownRequested {
        return;
      }
      ghost var before := View();
      var next := ActivateNext();
      if next.Some? {
        ActivationLowersPending(before);
        StartActive(next.value);
      }
    }

    method ActivateNext() returns (next: Option<TurnId>)
      modifies this, transcript
      ensures next == FirstPending(old(View()).queue.turns)
      ensures View() == Activate(old(View()))
    {
      next := transcript.ActivateNextPending();
      if next.Some? {
        emitted := emitted + [ActivatedEvent(next.value)];
      }
    }

    method SettleActiveTurn(id: TurnId, result: TurnResult) returns (settled: bool)
      modifies this, transcript, persistence
      ensures settled <==> ActiveId(old(View()).queue.turns) == Some(id)
      ensures View() == if settled then SettleOne(old(View()), id, result) else old(View())
    {
      hide CompletedHistory, Disk.OnSettle, Disk.AppendToCurrent;
      var forced := if cancelling == Some(id) then CANCELLED else result;
      settled := transcript.SettleActive(id, forced);
      if !settled {
        return;
      }
      TakePendingCompaction(id, result);
      UnwindWorker(id, forced);
      MaybeRequestSummary(forced);
      emitted := emitted + [SettledTurn(id, forced)];
    }

    method UnwindWorker(id: TurnId, forced: TurnResult)
      modifies this`cancelling, this`activeCancel, this`activeThread, this`joined, persistence
      ensures View() == Unwind(old(View()), id, forced)
    {
      joined := if activeThread.Some? then joined + 1 else joined;
      persistence.OnSettle(id, forced);
      cancelling, activeCancel, activeThread :=
        if cancelling == Some(id) then None else cancelling, None, None;
    }

    method TakePendingCompaction(id: TurnId, result: TurnResult)
      modifies this`compaction, this`pendingCompaction, persistence
      ensures View() == TakeCompaction(old(View()), id, result)
    {
      var pending := pendingCompaction;
      pendingCompaction := None;
      if pending.Some? && pending.value.0 == id && cancelling != Some(id) && result.kind == Completed {
        if pending.value.1.summary.Some? {
          persistence.AppendToCurrent(Compacted(pending.value.1.coveredThroughSeq, pending.value.1.summary.value));
        }
        compaction := pending.value.1;
      }
    }

    method StartActive(id: TurnId)
      modifies this, transcript, persistence
      ensures View() == LoopSpec.StartActive(old(View()), id)
      decreases PendingCount(transcript.turns), 3
    {
      var config := if id in configs then configs[id] else None;
      configs := configs - {id};
      if config.None? {
        Settle(id, NEEDS_CONFIGURATION);
        return;
      }
      activeConfig := config;
      activeCancel := Some(false);
      var history := CompletedRoundsUncovered();
      spawned := spawned + 1;
      activeThread := Some(TurnJob(id, history, compaction, PromptOf(transcript.turns, id), config.value));
    }

    method CompletedRoundsUncovered() returns (history: seq<HistoryRound>)
      ensures history == CompletedHistory(transcript.turns, compaction)
    {
      history := [];
      for i := 0 to |transcript.turns|
        invariant history == CompletedHistory(transcript.turns[..i], compaction)
      {
        assert transcript.turns[..i + 1][..i] == transcript.turns[..i];
        var turn := transcript.turns[i];
        if turn.state == Settled && turn.result.Some? && turn.result.value.kind == Completed {
          if !compaction.Covers(turn.seqNo) && turn.result.value.text.Some? {
            history := history + [HistoryRound(turn.seqNo, turn.prompt, turn.result.value.text.value)];
          }
        }
      }
      assert transcript.turns[..|transcript.turns|] == transcript.turns;
    }

    method MaybeRequestSummary(result: TurnResult)
      modifies this`summaryRequested, this`summaryJobs
      ensures View() == RequestSummary(old(View()), result)
    {
      if summaryRequested || result.kind != Completed || persistence.currentSession.None? || activeConfig.None? {
        return;
      }
      var history := CompletedRoundsUncovered();
      if history == [] {
        return;
      }
      summaryRequested := true;
      summaryJobs := summaryJobs + [SummaryJob(persistence.currentSession.value, history[0].user,
                                               history[0].assistant, activeConfig.value)];
    }

    method AdoptGeneratedSummary(session: SessionId, summary: string)
      modifies this, persistence
      ensures View() == AdoptSummary(old(View()), session, summary)
    {
      if persistence.currentSession != Some(session) {
        return;
      }
      persistence.AppendToCurrent(SummaryGenerated(summary));
      emitted := emitted + [SummaryUpdated(session, summary)];
    }

    method Stop()
      modifies this, transcript, persistence
      ensures View() == StopTurns(old(View()))
    {
      var pendingIds := PendingIds(transcript.turns);
      for i := 0 to |pendingIds|
        invariant View() == RemoveEach(old(View()), pendingIds[..i])
      {
        assert pendingIds[..i + 1][..i] == pendingIds[..i];
        transcript.Remove(OtherThan(pendingIds[i]));
        configs := configs - {pendingIds[i]};
        persistence.OnSettle(pendingIds[i], CANCELLED);
        emitted := emitted + [TurnRemoved(pendingIds[i])];
      }
      assert pendingIds[..|pendingIds|] == pendingIds;
      CancelActiveTurn();
    }

    method Clear()
      modifies this, transcript, persistence
      ensures View() == ClearSession(old(View()))
    {
      hide Retain, HasActive, ActiveId, Disk.OnClear;
      CancelActiveTurn();
      DetachSession();
      DropTurns();
    }

    method DetachSession()
      modifies this, persistence
      ensures View() == old(View()).(disk := old(View()).disk.OnClear(old(View()).queue.turns),
                                     compaction := NO_COMPACTION, pendingCompaction := None,
                                     summaryRequested := false, activeConfig := None, configs := map[])
    {
      hide Disk.OnClear, Disk.CancelUnsettled;
      persistence.OnClear(transcript.turns);
      compaction, pendingCompaction, summaryRequested, activeConfig, configs := NO_COMPACTION, None, false, None, map[];
    }

    method DropTurns()
      modifies transcript
      ensures View() == old(View()).WithTurns(Retain(Retain(old(View()).queue.turns, NotPending), NotSettled))
    {
      transcript.Remove(NotPending);
      transcript.Remove(NotSettled);
    }

    method Shutdown()
      modifies this, transcript
      ensures View() == ShutDown(old(View()))
    {
      shuttingDown, shutdownRequested, configs := true, true, map[];
      transcript.Remove(NotPending);
    }
  }
}
