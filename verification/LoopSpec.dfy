// The coordinator's step function on values: src/conversation/state.rs. LoopState.dfy
// has the object the source updates in place and ties it to these functions.
module LoopSpec {
  import opened Common
  import opened Request
  import opened Turns
  import opened SessionLog
  import opened Replay

  /** Provider settings of a turn; their content does not matter here. */
  type Config = string

  /** Work handed to a turn runner. The memory block is left out. */
  datatype TurnJob = TurnJob(
    turnId: TurnId, history: seq<HistoryRound>, compaction: CompactionState, prompt: string, config: Config)

  datatype SummaryJob = SummaryJob(session: SessionId, firstPrompt: string, firstResponse: string, config: Config)

  datatype ConversationEvent =
    | EnqueuedEvent(turnId: TurnId, seqNo: nat, state: TurnState)
    | ActivatedEvent(turnId: TurnId)
    | DeltaEvent(turnId: TurnId, text: string)
    | SettledTurn(turnId: TurnId, result: TurnResult)
    | TurnRemoved(turnId: TurnId)
    | CompactionStatusEvent(turnId: TurnId, active: bool)
    | SummaryUpdated(session: SessionId, summary: string)

  datatype Command =
    | Enqueue(turnId: TurnId, prompt: string, config: Option<Config>)
    | Delta(turnId: TurnId, text: string)
    | Settle(turnId: TurnId, result: TurnResult)
    | CompactedBy(turnId: TurnId, state: CompactionState)
    | CompactionStatus(turnId: TurnId, active: bool)
    | Cancel(turnId: TurnId)
    | Stop
    | QueryStatus
    | ResumeSession(session: SessionId, turns: seq<Turn>, compaction: CompactionState)
    | SetSessionSummary(session: SessionId, summary: string)
    | Clear
    | Shutdown

  const NEEDS_CONFIGURATION_MESSAGE :=
    "No provider configured. Use /connect to add a provider before sending messages."

  const NEEDS_CONFIGURATION := NeedsConfigurationResult(NEEDS_CONFIGURATION_MESSAGE)

  /**
   * The coordinator. `token` is the active turn's cancellation token with its state,
   * `worker` the job of the thread whose handle is kept. Threads are counted when they are
   * spawned and when they are joined.
   */
  datatype Loop = Loop(
    queue: Queue,
    configs: map<TurnId, Option<Config>>,
    token: Option<bool>,
    cancelling: Option<TurnId>,
    worker: Option<TurnJob>,
    spawned: nat,
    joined: nat,
    shuttingDown: bool,
    shutdownRequested: bool,
    disk: Disk,
    compaction: CompactionState,
    pendingCompaction: Option<(TurnId, CompactionState)>,
    activeConfig: Option<Config>,
    summaryRequested: bool,
    events: seq<ConversationEvent>,
    summaryJobs: seq<SummaryJob>)
  {
    predicate IsShuttingDown() {
      shuttingDown || shutdownRequested
    }

    /** Threads spawned and not yet joined. */
    function Unjoined(): int {
      spawned - joined
    }

    function Emit(event: ConversationEvent): Loop {
      this.(events := events + [event])
    }

    function WithTurns(turns: seq<Turn>): Loop {
      this.(queue := queue.(turns := turns))
    }
  }

  /** A fresh process over the logs already on disk. */
  function Initial(logs: Logs): Loop {
    Loop(Queue([], 0), map[], None, None, None, 0, 0, false, false, Disk(None, map[], logs),
         NO_COMPACTION, None, None, false, [], [])
  }

  /** The completed rounds the summary does not cover, as handed to a turn. */
  function CompletedHistory(turns: seq<Turn>, compaction: CompactionState): seq<HistoryRound> {
    if turns == [] then []
    else
      var rest := CompletedHistory(turns[..|turns| - 1], compaction);
      var last := turns[|turns| - 1];
      if !IsRound(last) || compaction.Covers(last.seqNo) then rest else rest + [RoundOf(last)]
  }

  /** A turn whose enqueue could not be stored is taken out again and reported. */
  function Reject(s: Loop, id: TurnId, fault: StorageFault): Loop {
    s.WithTurns(Retain(s.queue.turns, OtherThan(id)))
    .Emit(SettledTurn(id, ErrorResult("sessionPersistence", FaultMessage(fault))))
  }

  function InitialState(s: Loop): TurnState {
    if HasActive(s.queue.turns) then Pending else Active
  }

  /** Queue, config and log of a new turn. */
  function Push(s: Loop, id: TurnId, prompt: string, config: Option<Config>, env: Env): Loop {
    var turns := s.queue.turns + [Turn(id, s.queue.nextSeq, prompt, InitialState(s), None)];
    s.(queue := Queue(turns, s.queue.nextSeq + 1),
       configs := s.configs[id := config],
       disk := s.disk.OnEnqueue(id, s.queue.nextSeq, PromptOf(turns, id), env))
  }

  /** Takes a turn in, or refuses it, but does not start it. */
  function Submit(s: Loop, id: TurnId, prompt: string, config: Option<Config>, env: Env): Loop {
    var pushed := Push(s, id, prompt, config, env);
    if s.disk.EnqueueSucceeds(env) then pushed.Emit(EnqueuedEvent(id, s.queue.nextSeq, InitialState(s)))
    else Reject(pushed, id, env.fault)
  }

  function EnqueueTurn(s: Loop, id: TurnId, prompt: string, config: Option<Config>, env: Env): Loop {
    if s.IsShuttingDown() then s
    else if HasActive(s.queue.turns) || !s.disk.EnqueueSucceeds(env) then Submit(s, id, prompt, config, env)
    else StartActive(Submit(s, id, prompt, config, env), id)
  }

  function EmitDelta(s: Loop, id: TurnId, text: string): Loop {
    if ActiveId(s.queue.turns) == Some(id) && s.cancelling != Some(id) then s.Emit(DeltaEvent(id, text)) else s
  }

  /** A turn awaiting cancellation always settles cancelled. */
  function ForcedResult(s: Loop, id: TurnId, result: TurnResult): TurnResult {
    if s.cancelling == Some(id) then CANCELLED else result
  }

  /** Whether the settle of `id` adopts the compaction reported for it. */
  predicate Adopts(s: Loop, id: TurnId, result: TurnResult) {
    && s.pendingCompaction.Some?
    && s.pendingCompaction.value.0 == id
    && ForcedResult(s, id, result).kind == Completed
  }

  /** Consumes the reported compaction, adopting it only on a clean completed settle. */
  function TakeCompaction(s: Loop, id: TurnId, result: TurnResult): Loop {
    var taken := s.(pendingCompaction := None);
    if !Adopts(s, id, result) then taken
    else
      var state := s.pendingCompaction.value.1;
      taken.(compaction := state,
             disk := if state.summary.None? then s.disk
                     else s.disk.AppendToCurrent(Compacted(state.coveredThroughSeq, state.summary.value)))
  }

  /** Drops the worker, its token and the cancellation, and logs the result. */
  function Unwind(s: Loop, id: TurnId, forced: TurnResult): Loop {
    s.(cancelling := if s.cancelling == Some(id) then None else s.cancelling,
       token := None,
       worker := None,
       joined := if s.worker.Some? then s.joined + 1 else s.joined,
       disk := s.disk.OnSettle(id, forced))
  }

  /** Ends the active turn `id`; what happens up to its Settled event. */
  function SettleOne(s: Loop, id: TurnId, result: TurnResult): Loop {
    var forced := ForcedResult(s, id, result);
    var settled := s.WithTurns(SettledActive(s.queue.turns, id, forced));
    RequestSummary(Unwind(TakeCompaction(settled, id, result), id, forced), forced).Emit(SettledTurn(id, forced))
  }

  function RequestSummary(s: Loop, result: TurnResult): Loop {
    var history := CompletedHistory(s.queue.turns, s.compaction);
    if s.summaryRequested || result.kind != Completed || s.disk.current.None? || s.activeConfig.None? || history == []
    then s
    else s.(summaryRequested := true,
            summaryJobs := s.summaryJobs + [SummaryJob(s.disk.current.value, history[0].user, history[0].assistant,
                                                       s.activeConfig.value)])
  }

  /** Marks the first pending turn active. */
  function Activate(s: Loop): Loop {
    match FirstPending(s.queue.turns)
    case None => s
    case Some(id) => s.WithTurns(ActivatedNext(s.queue.turns)).Emit(ActivatedEvent(id))
  }

  /** Settles the active turn and moves on; any other turn's settle is stale and ignored. */
  function SettleTurnOf(s: Loop, id: TurnId, result: TurnResult): Loop
    decreases PendingCount(s.queue.turns), 2
  {
    if ActiveId(s.queue.turns) != Some(id) then s
    else
      SettleOneKeepsPending(s, id, result);
      Advance(SettleOne(s, id, result))
  }

  /** Starts the next pending turn, unless the loop is ending. */
  function Advance(s: Loop): Loop
    decreases PendingCount(s.queue.turns), 1
  {
    if s.IsShuttingDown() || FirstPending(s.queue.turns).None? then s
    else
      ActivationLowersPending(s);
      StartActive(Activate(s), FirstPending(s.queue.turns).value)
  }

  /** Hands the active turn to a worker, or settles it when it has no provider config. */
  function StartActive(s: Loop, id: TurnId): Loop
    decreases PendingCount(s.queue.turns), 3
  {
    var started := s.(configs := s.configs - {id});
    if id in s.configs && s.configs[id].Some? then Spawn(started, id, s.configs[id].value)
    else SettleTurnOf(started, id, NEEDS_CONFIGURATION)
  }

  function Spawn(s: Loop, id: TurnId, config: Config): Loop {
    s.(activeConfig := Some(config),
       token := Some(false),
       spawned := s.spawned + 1,
       worker := Some(TurnJob(id, CompletedHistory(s.queue.turns, s.compaction), s.compaction,
                              PromptOf(s.queue.turns, id), config)))
  }

  function PendingIds(turns: seq<Turn>): seq<TurnId> {
    if turns == [] then []
    else PendingIds(turns[..|turns| - 1])
         + if turns[|turns| - 1].state == Pending then [turns[|turns| - 1].id] else []
  }

  /** Removes one pending turn, settling it cancelled in its log. */
  function RemovePending(s: Loop, id: TurnId): Loop {
    s.(queue := s.queue.(turns := Retain(s.queue.turns, OtherThan(id))),
       configs := s.configs - {id},
       disk := s.disk.OnSettle(id, CANCELLED)).Emit(TurnRemoved(id))
  }

  function RemoveEach(s: Loop, ids: seq<TurnId>): Loop {
    if ids == [] then s else RemovePending(RemoveEach(s, ids[..|ids| - 1]), ids[|ids| - 1])
  }

  /** Marks the active turn, if any, and its token as cancelled. */
  function CancelActive(s: Loop): Loop {
    s.(cancelling := if HasActive(s.queue.turns) then ActiveId(s.queue.turns) else s.cancelling,
       token := if s.token.Some? then Some(true) else None)
  }

  function CancelOne(s: Loop, id: TurnId): Loop {
    if ActiveId(s.queue.turns) != Some(id) then s
    else s.(cancelling := Some(id), token := if s.token.Some? then Some(true) else None)
  }

  function StopTurns(s: Loop): Loop {
    CancelActive(RemoveEach(s, PendingIds(s.queue.turns)))
  }

  function ClearSession(s: Loop): Loop {
    var cancelled := CancelActive(s);
    cancelled.(disk := s.disk.OnClear(s.queue.turns),
               compaction := NO_COMPACTION,
               pendingCompaction := None,
               summaryRequested := false,
               activeConfig := None,
               configs := map[],
               queue := s.queue.(turns := Retain(Retain(s.queue.turns, NotPending), NotSettled)))
  }

  function ShutDown(s: Loop): Loop {
    s.(shuttingDown := true, shutdownRequested := true, configs := map[],
       queue := s.queue.(turns := Retain(s.queue.turns, NotPending)))
  }

  function Resume(s: Loop, session: SessionId, turns: seq<Turn>, compaction: CompactionState): Loop {
    s.(disk := s.disk.Attach(session),
       queue := Queue(turns, NextAfter(turns)),
       compaction := compaction,
       pendingCompaction := None,
       summaryRequested := true)
  }

  function AdoptSummary(s: Loop, session: SessionId, summary: string): Loop {
    if s.disk.current != Some(session) then s
    else s.(disk := s.disk.AppendToCurrent(SummaryGenerated(summary))).Emit(SummaryUpdated(session, summary))
  }

  function Handle(s: Loop, command: Command, env: Env): Loop {
    match command
    case Enqueue(id, prompt, config) => EnqueueTurn(s, id, prompt, config, env)
    case Delta(id, text) => EmitDelta(s, id, text)
    case Settle(id, result) => SettleTurnOf(s, id, result)
    case CompactedBy(id, state) => s.(pendingCompaction := Some((id, state)))
    case CompactionStatus(id, active) => s.Emit(CompactionStatusEvent(id, active))
    case Cancel(id) => CancelOne(s, id)
    case Stop => StopTurns(s)
    case QueryStatus => s
    case ResumeSession(session, turns, compaction) => Resume(s, session, turns, compaction)
    case SetSessionSummary(session, summary) => AdoptSummary(s, session, summary)
    case Clear => ClearSession(s)
    case Shutdown => ShutDown(s)
  }

  // ---- The measure of the settle/start recursion ----

  lemma {:induction false} SettleOneKeepsPending(s: Loop, id: TurnId, result: TurnResult)
    requires ActiveId(s.queue.turns) == Some(id)
    ensures SettleOne(s, id, result).queue
            == s.queue.(turns := SettledActive(s.queue.turns, id, ForcedResult(s, id, result)))
    ensures PendingCount(SettleOne(s, id, result).queue.turns) == PendingCount(s.queue.turns)
  {
    var turns := s.queue.turns;
    var i := FirstIn(turns, Active);
    PendingCountUpdate(turns, i, turns[i].(state := Settled, result := Some(ForcedResult(s, id, result))));
  }

  lemma {:induction false} ActivationLowersPending(s: Loop)
    requires FirstPending(s.queue.turns).Some?
    ensures PendingCount(Activate(s).queue.turns) == PendingCount(s.queue.turns) - 1
  {
    var turns := s.queue.turns;
    var i := FirstIn(turns, Pending);
    PendingCountUpdate(turns, i, turns[i].(state := Active));
  }
}
