// Whole runs of the coordinator: its surroundings as legal actions, what a run has done so
// far, and the invariant every run keeps.
module World {
  import opened Common
  import opened Request
  import opened CompactionPlan
  import opened Turns
  import opened SessionLog
  import opened Replay
  import opened LoopSpec
  import opened QueueShape
  import opened LogInvariant
  import opened Accounting
  import opened Attachment

  /**
   * The coordinator with the history of its run: what was submitted, what Clear or Shutdown
   * dropped and what died with a process, since which event a turn is cancelled, the rounds
   * behind the reported compaction, the rounds each adopted summary took in, and the
   * session each stopped turn belonged to.
   */
  datatype World = World(
    loop: Loop,
    submitted: map<TurnId, Option<Config>>,
    dropped: set<TurnId>,
    lost: set<TurnId>,
    doomed: map<TurnId, nat>,
    offered: seq<HistoryRound>,
    heads: map<SessionId, seq<seq<HistoryRound>>>,
    stopped: map<TurnId, SessionId>)
  {
    function Turns(): seq<Turn> {
      loop.queue.turns
    }

    function Logs(): Logs {
      loop.disk.logs
    }

    /** Cancels the active turn as of now. */
    ghost function Doom(): World {
      match ActiveId(Turns())
      case None => this
      case Some(id) => if id in doomed then this else this.(doomed := doomed[id := |loop.events|])
    }
  }

  function HeadsAt(heads: map<SessionId, seq<seq<HistoryRound>>>, session: SessionId): seq<seq<HistoryRound>> {
    if session in heads then heads[session] else []
  }

  /**
   * Everything that can happen: a command with its surroundings, the worker reporting a
   * compaction it planned from its own job, the shutdown flag raised from another thread,
   * and the process ending at any moment with a new one over the same logs.
   */
  datatype Action =
    | Do(command: Command, env: Env)
    | WorkerCompacts(tailBudget: nat, summary: string)
    | SignalShutdown
    | Restart

  ghost function WorkerPlan(w: World, tailBudget: nat): Option<Plan> {
    if w.loop.worker.None? then None
    else PlanFor(w.loop.worker.value.history, w.loop.worker.value.compaction, tailBudget)
  }

  ghost predicate Legal(w: World, action: Action) {
    match action
    case Do(command, env) =>
      (match command
       case Enqueue(id, _, _) => id !in w.submitted && env.freshSession !in w.Logs()
       case Settle(_, result) => result.Canonical()
       case CompactedBy(_, _) => false
       case ResumeSession(session, turns, compaction) =>
         && !HasUnsettled(w.Turns())
         && session in w.Logs()
         && Restored(w.Logs()[session]) == Replayed(turns, compaction)
       case _ => true)
    case WorkerCompacts(tailBudget, _) => WorkerPlan(w, tailBudget).Some?
    case _ => true
  }

  ghost function SettledHeads(w: World, id: TurnId, result: TurnResult): map<SessionId, seq<seq<HistoryRound>>> {
    if w.loop.disk.current.Some? && Adopts(w.loop, id, result)
    then w.heads[w.loop.disk.current.value := HeadsAt(w.heads, w.loop.disk.current.value) + [w.offered]]
    else w.heads
  }

  ghost function StoppedBy(w: World): map<TurnId, SessionId> {
    map id | id in PendingSet(w.Turns()) && id in w.loop.disk.turnSessions :: w.loop.disk.turnSessions[id]
  }

  /** What a command adds to the history. */
  ghost function Record(w: World, command: Command): World {
    match command
    case Enqueue(id, _, config) =>
      if w.loop.IsShuttingDown() then w else w.(submitted := w.submitted[id := config])
    case Settle(id, result) =>
      if ActiveId(w.Turns()) == Some(id) then w.(heads := SettledHeads(w, id, result)) else w
    case Cancel(id) => if ActiveId(w.Turns()) == Some(id) then w.Doom() else w
    case Stop => w.Doom().(stopped := w.stopped + StoppedBy(w))
    case Clear => w.Doom().(dropped := w.dropped + PendingSet(w.Turns()))
    case Shutdown => w.(dropped := w.dropped + PendingSet(w.Turns()))
    case _ => w
  }

  ghost function Step(w: World, action: Action): World
    requires Legal(w, action)
  {
    match action
    case Do(command, env) => Record(w, command).(loop := Handle(w.loop, command, env))
    case WorkerCompacts(tailBudget, summary) =>
      var plan := WorkerPlan(w, tailBudget).value;
      var state := CompactionState(Some(summary), plan.newCoveredThroughSeq);
      w.(loop := w.loop.(pendingCompaction := Some((w.loop.worker.value.turnId, state))), offered := plan.head)
    case SignalShutdown => w.(loop := w.loop.(shutdownRequested := true))
    case Restart =>
      w.(loop := Initial(w.Logs()).(events := w.loop.events), lost := w.lost + Open(w.Turns()), offered := [])
  }

  const START := World(Initial(map[]), map[], {}, {}, map[], [], map[], map[])

  ghost predicate LegalRun(w: World, actions: seq<Action>)
    decreases |actions|
  {
    actions == [] || (Legal(w, actions[0]) && LegalRun(Step(w, actions[0]), actions[1..]))
  }

  ghost function Run(w: World, actions: seq<Action>): World
    requires LegalRun(w, actions)
    decreases |actions|
  {
    if actions == [] then w else Run(Step(w, actions[0]), actions[1..])
  }

  // ---- The invariant ----

  ghost predicate Known(turns: seq<Turn>, submitted: map<TurnId, Option<Config>>) {
    forall t | t in turns :: t.id in submitted
  }

  ghost predicate LogsKept(logs: Logs, ids: set<TurnId>, heads: map<SessionId, seq<seq<HistoryRound>>>) {
    && (forall session | session in logs :: LogInv(logs[session], ids, HeadsAt(heads, session)))
    && heads.Keys <= logs.Keys
  }

  ghost predicate LogsExtend(logs: Logs, later: Logs) {
    forall session | session in logs :: session in later && Extends(logs[session], later[session])
  }

  /** Pending turns keep the config they were submitted with; a worker has its own turn's, and its prompt. */
  ghost predicate ConfigsKept(
    turns: seq<Turn>, configs: map<TurnId, Option<Config>>, worker: Option<TurnJob>,
    submitted: map<TurnId, Option<Config>>)
  {
    && (forall t | t in turns && t.state == Pending ::
          t.id in configs && t.id in submitted && configs[t.id] == submitted[t.id])
    && (worker.Some? ==> worker.value.turnId in submitted
                         && submitted[worker.value.turnId] == Some(worker.value.config))
    && (worker.Some? ==> forall t | t in turns && t.state == Active :: t.prompt == worker.value.prompt)
  }

  ghost predicate ReplaysCancelled(log: seq<LogEvent>, id: TurnId) {
    exists t :: t in Fold(log).turns && t.id == id && t.state == Settled && t.result == Some(CANCELLED)
  }

  ghost predicate StoppedKept(stopped: map<TurnId, SessionId>, logs: Logs) {
    forall id | id in stopped :: stopped[id] in logs && ReplaysCancelled(logs[stopped[id]], id)
  }

  /** No text and no other result after the cancellation. */
  predicate Respects(event: ConversationEvent, id: TurnId) {
    && !(event.DeltaEvent? && event.turnId == id)
    && (event.SettledTurn? && event.turnId == id ==> event.result == CANCELLED)
  }

  ghost predicate DoomKept(
    turns: seq<Turn>, cancelling: Option<TurnId>, events: seq<ConversationEvent>, doomed: map<TurnId, nat>,
    submitted: map<TurnId, Option<Config>>)
  {
    && (cancelling.Some? ==> cancelling.value in doomed)
    && forall id | id in doomed ::
         && id in submitted && doomed[id] <= |events|
         && (forall i | doomed[id] <= i < |events| :: Respects(events[i], id))
         && forall t | t in turns && t.id == id && t.state != Settled :: t.state == Active && cancelling == Some(id)
  }

  function LiveOf(s: Loop): Live {
    Live(s.queue, s.cancelling, s.compaction)
  }

  /** The part of the invariant that does not speak of events. */
  ghost predicate Base(
    live: Live, disk: Disk, configs: map<TurnId, Option<Config>>, worker: Option<TurnJob>,
    submitted: map<TurnId, Option<Config>>, heads: map<SessionId, seq<seq<HistoryRound>>>,
    stopped: map<TurnId, SessionId>)
  {
    && Shaped(live.queue)
    && Known(live.queue.turns, submitted)
    && LogsKept(disk.logs, submitted.Keys, heads)
    && Attached(live, disk)
    && ConfigsKept(live.queue.turns, configs, worker, submitted)
    && StoppedKept(stopped, disk.logs)
  }

  ghost predicate Core(w: World) {
    && Base(LiveOf(w.loop), w.loop.disk, w.loop.configs, w.loop.worker, w.submitted, w.heads, w.stopped)
    && Accounted(Open(w.Turns()), Ended(w.loop.events), w.dropped, w.lost, w.submitted.Keys)
    && DoomKept(w.Turns(), w.loop.cancelling, w.loop.events, w.doomed, w.submitted)
  }

  /** No turn is active. */
  predicate Quiet(s: Loop) {
    ActiveId(s.queue.turns) == None && Unmanned(s.worker, s.token, s.cancelling, s.pendingCompaction, s.Unjoined())
  }

  /** A turn was just made active and has no worker yet. */
  predicate Starting(s: Loop, id: TurnId) {
    ActiveId(s.queue.turns) == Some(id) && Unmanned(s.worker, s.token, s.cancelling, s.pendingCompaction, s.Unjoined())
  }

  predicate Unmanned(
    worker: Option<TurnJob>, token: Option<bool>, cancelling: Option<TurnId>,
    pendingCompaction: Option<(TurnId, CompactionState)>, unjoined: int)
  {
    unjoined == 0 && worker == None && token == None && cancelling == None && pendingCompaction == None
  }

  /** The reported compaction is the plan of this very job. */
  ghost predicate Reported(job: TurnJob, state: CompactionState, offered: seq<HistoryRound>) {
    && state.summary.Some?
    && exists tailBudget: nat ::
         PlanFor(job.history, job.compaction, tailBudget) == Some(Plan(state.coveredThroughSeq, offered))
  }

  ghost predicate Running(s: Loop, offered: seq<HistoryRound>) {
    && s.worker.Some?
    && ActiveId(s.queue.turns) == Some(s.worker.value.turnId)
    && Manned(s.worker.value, s.token, s.cancelling, s.pendingCompaction, s.Unjoined())
    && (s.cancelling.None? ==>
          Working(s.worker.value, s.queue.turns, s.compaction, s.pendingCompaction, offered))
  }

  /** One worker, one token; the token is cancelled exactly when the turn is. */
  predicate Manned(
    job: TurnJob, token: Option<bool>, cancelling: Option<TurnId>,
    pendingCompaction: Option<(TurnId, CompactionState)>, unjoined: int)
  {
    && unjoined == 1
    && token == Some(cancelling.Some?)
    && (cancelling.Some? ==> cancelling == Some(job.turnId))
    && (pendingCompaction.Some? ==> pendingCompaction.value.0 == job.turnId)
  }

  /** The job's history is still the completed, uncovered history. */
  ghost predicate Working(
    job: TurnJob, turns: seq<Turn>, compaction: CompactionState,
    pendingCompaction: Option<(TurnId, CompactionState)>, offered: seq<HistoryRound>)
  {
    && job.history == CompletedHistory(turns, compaction)
    && job.compaction == compaction
    && (pendingCompaction.Some? ==> Reported(job, pendingCompaction.value.1, offered))
  }

  ghost predicate Inv(w: World) {
    && Core(w)
    && (Quiet(w.loop) || Running(w.loop, w.offered))
    && (Quiet(w.loop) && !w.loop.IsShuttingDown() ==> FirstPending(w.Turns()).None?)
  }

  // ---- Logs ----

  lemma {:induction false} ExtendRefl(logs: Logs)
    ensures LogsExtend(logs, logs)
  {
  }

  lemma {:induction false} ExtendTrans(a: Logs, b: Logs, c: Logs)
    requires LogsExtend(a, b) && LogsExtend(b, c)
    ensures LogsExtend(a, c)
  {
  }

  lemma {:induction false} StillExtends(logs: Logs)
    ensures forall session | session in logs :: Extends(logs[session], logs[session])
  {
  }

  lemma {:induction false} ReplaceLog(
    logs: Logs, session: SessionId, log: seq<LogEvent>, ids: set<TurnId>, more: set<TurnId>,
    heads: map<SessionId, seq<seq<HistoryRound>>>, later: map<SessionId, seq<seq<HistoryRound>>>)
    requires LogsKept(logs, ids, heads) && ids <= more
    requires LogInv(log, more, HeadsAt(later, session))
    requires session in logs ==> Extends(logs[session], log)
    requires later == heads || later == heads[session := HeadsAt(later, session)]
    ensures LogsKept(logs[session := log], more, later)
    ensures LogsExtend(logs, logs[session := log])
  {
    hide LogInv, Extends;
    StillExtends(logs);
    forall other | other in logs[session := log]
      ensures LogInv(logs[session := log][other], more, HeadsAt(later, other))
    {
      if other != session {
        InvMonotone(logs[other], ids, more, HeadsAt(heads, other));
      }
    }
  }

  lemma {:induction false} KeepMore(
      logs: Logs, ids: set<TurnId>, more: set<TurnId>, heads: map<SessionId, seq<seq<HistoryRound>>>)
    requires LogsKept(logs, ids, heads) && ids <= more
    ensures LogsKept(logs, more, heads)
  {
    forall session | session in logs
      ensures LogInv(logs[session], more, HeadsAt(heads, session))
    {
      InvMonotone(logs[session], ids, more, HeadsAt(heads, session));
    }
  }

  lemma {:induction false} StoppedStay(stopped: map<TurnId, SessionId>, logs: Logs, later: Logs)
    requires StoppedKept(stopped, logs) && LogsExtend(logs, later)
    ensures StoppedKept(stopped, later)
  {
  }

  /** A session start, or a summary, in some log. */
  lemma {:induction false} LogNeutral(
    logs: Logs, session: SessionId, event: LogEvent, ids: set<TurnId>, heads: map<SessionId, seq<seq<HistoryRound>>>)
    requires LogsKept(logs, ids, heads) && (event.SessionStarted? || event.SummaryGenerated?)
    ensures LogsKept(Appended(logs, session, event), ids, heads)
    ensures LogsExtend(logs, Appended(logs, session, event))
  {
    var log := if session in logs then logs[session] else [];
    if session !in logs {
      EmptyLogInv(ids);
    }
    AppendNeutral(log, event, ids, HeadsAt(heads, session));
    ReplaceLog(logs, session, log + [event], ids, ids, heads, heads);
  }

  // ---- Settling the active turn ----

  lemma {:induction false} DoomEvent(
    turns: seq<Turn>, cancelling: Option<TurnId>, events: seq<ConversationEvent>, doomed: map<TurnId, nat>,
    submitted: map<TurnId, Option<Config>>, event: ConversationEvent)
    requires DoomKept(turns, cancelling, events, doomed, submitted)
    requires forall id | id in doomed :: Respects(event, id)
    ensures DoomKept(turns, cancelling, events + [event], doomed, submitted)
  {
  }

  /** The log side of a settle of the active turn. */
  lemma {:induction false} SettleLogs(w: World, turn: Turn, result: TurnResult)
    requires Core(w) && turn in w.Turns() && turn.state == Active && result.Canonical()
    ensures
      var later := w.loop.disk.OnSettle(turn.id, result).logs;
      && LogsKept(later, w.submitted.Keys, w.heads) && LogsExtend(w.Logs(), later)
  {
    var disk := w.loop.disk;
    if turn.id in disk.turnSessions {
      assert disk.current.Some?;
      var session := disk.current.value;
      var log := disk.logs[session];
      assert Linked(Fold(log).turns, disk.turnSessions, session, w.loop.cancelling, turn);
      var k :| 0 <= k < |w.Turns()| && w.Turns()[k] == turn;
      RoundsBeforeActive(w.Turns(), k);
      EntryMaySettle(log, turn, result);
      AppendSettled(log, turn.id, result, w.submitted.Keys, HeadsAt(w.heads, session));
      ReplaceLog(disk.logs, session, log + [SettledEvent(turn.id, result)], w.submitted.Keys, w.submitted.Keys,
                 w.heads, w.heads);
    }
  }

  lemma {:induction false} EntryMaySettle(log: seq<LogEvent>, turn: Turn, result: TurnResult)
    requires Consistent(log) && result.Canonical()
    requires turn.(state := Pending) in Fold(log).turns
    requires result.kind == Completed ==> forall r | r in LogRounds(log) :: r.seqNo < turn.seqNo
    ensures MaySettle(log, turn.id, result)
  {
    var folded := Fold(log).turns;
    var m :| 0 <= m < |folded| && folded[m] == turn.(state := Pending);
    SameIdSameTurn(folded, m);
  }

  lemma {:induction false} ActiveTurnOf(turns: seq<Turn>, id: TurnId) returns (turn: Turn)
    requires ActiveId(turns) == Some(id)
    ensures turn in turns && turn.state == Active && turn.id == id
  {
    turn := turns[FirstIn(turns, Active)];
  }

  /** What a settle leaves behind once the compaction was taken. */
  ghost predicate SettledFrom(s: Loop, later: Loop, id: TurnId, forced: TurnResult) {
    && later.queue == s.queue.(turns := SettledActive(s.queue.turns, id, forced))
    && later.events == s.events + [SettledTurn(id, forced)]
    && later.configs == s.configs && later.compaction == s.compaction
    && later.disk == s.disk.OnSettle(id, forced)
    && later.worker == None && later.token == None && later.cancelling == None && later.pendingCompaction == None
    && later.Unjoined() == s.Unjoined() - (if s.worker.Some? then 1 else 0)
  }

  lemma {:induction false} SettleCore(w: World, later: Loop, id: TurnId, forced: TurnResult)
    requires Core(w) && ActiveId(w.Turns()) == Some(id) && forced.Canonical()
    requires w.loop.cancelling.Some? ==> w.loop.cancelling == Some(id) && forced == CANCELLED
    requires SettledFrom(w.loop, later, id, forced) && w.loop.Unjoined() == if w.loop.worker.Some? then 1 else 0
    ensures Core(w.(loop := later)) && Quiet(later) && LogsExtend(w.Logs(), later.disk.logs)
  {
    var turn := ActiveTurnOf(w.Turns(), id);
    SettleShaped(w.loop.queue, id, forced);
    NoActive(later.queue.turns);
    SettledActiveIsSettleTurn(w.Turns(), id, forced);
    SettleBase(w, turn, forced);
    AccountedSettle(w, id, forced);
    DoomSettle(w.Turns(), w.loop.cancelling, w.loop.events, w.doomed, w.submitted, turn, forced);
  }

  lemma {:induction false} SettleBase(w: World, turn: Turn, forced: TurnResult)
    requires Core(w) && turn in w.Turns() && turn.state == Active && forced.Canonical()
    requires Shaped(w.loop.queue.(turns := SettleTurn(w.Turns(), turn.id, forced)))
    requires w.loop.cancelling.Some? ==> w.loop.cancelling == Some(turn.id) && forced == CANCELLED
    ensures
      var live := Live(w.loop.queue.(turns := SettleTurn(w.Turns(), turn.id, forced)), None, w.loop.compaction);
      var disk := w.loop.disk.OnSettle(turn.id, forced);
      && Base(live, disk, w.loop.configs, None, w.submitted, w.heads, w.stopped)
      && LogsExtend(w.Logs(), disk.logs)
  {
    TurnsSettle(w.Turns(), w.loop.configs, w.loop.worker, w.submitted, turn.id, forced);
    SettleLogs(w, turn, forced);
    StoppedStay(w.stopped, w.Logs(), w.loop.disk.OnSettle(turn.id, forced).logs);
    OrderedIncreasing(w.Turns());
    CurrentConsistent(w);
    SettleAttached(LiveOf(w.loop), w.loop.disk, turn, forced);
  }

  lemma {:induction false} CurrentConsistent(w: World)
    requires Core(w)
    ensures w.loop.disk.current.Some? ==> Consistent(w.Logs()[w.loop.disk.current.value])
  {
  }

  lemma {:induction false} AccountedSettle(w: World, id: TurnId, forced: TurnResult)
    requires Ordered(w.Turns()) && ActiveId(w.Turns()) == Some(id)
    requires Accounted(Open(w.Turns()), Ended(w.loop.events), w.dropped, w.lost, w.submitted.Keys)
    ensures Accounted(Open(SettledActive(w.Turns(), id, forced)), Ended(w.loop.events + [SettledTurn(id, forced)]),
                      w.dropped, w.lost, w.submitted.Keys)
  {
    OpenSettle(w.Turns(), id, forced);
    EndedSnoc(w.loop.events, SettledTurn(id, forced));
    AccountedEnd(Open(w.Turns()), Ended(w.loop.events), w.dropped, w.lost, w.submitted.Keys, id);
  }

  lemma {:induction false} TurnsSettle(
    turns: seq<Turn>, configs: map<TurnId, Option<Config>>, worker: Option<TurnJob>,
    submitted: map<TurnId, Option<Config>>, id: TurnId, result: TurnResult)
    requires Known(turns, submitted) && ConfigsKept(turns, configs, worker, submitted)
    ensures Known(SettleTurn(turns, id, result), submitted)
    ensures ConfigsKept(SettleTurn(turns, id, result), configs, None, submitted)
  {
    SettleMembers(turns, id, result);
  }

  lemma {:induction false} SettleMembers(turns: seq<Turn>, id: TurnId, result: TurnResult)
    ensures forall t | t in SettleTurn(turns, id, result) ::
              exists u :: u in turns && t == SettledIf(u, id, result)
  {
    var after := SettleTurn(turns, id, result);
    forall t | t in after
      ensures exists u :: u in turns && t == SettledIf(u, id, result)
    {
      var i :| 0 <= i < |after| && after[i] == t;
      assert turns[i] in turns;
    }
  }

  lemma {:induction false} DoomSettle(
    turns: seq<Turn>, cancelling: Option<TurnId>, events: seq<ConversationEvent>, doomed: map<TurnId, nat>,
    submitted: map<TurnId, Option<Config>>, turn: Turn, forced: TurnResult)
    requires DoomKept(turns, cancelling, events, doomed, submitted) && turn in turns && turn.state == Active
    requires cancelling.Some? ==> cancelling == Some(turn.id) && forced == CANCELLED
    ensures DoomKept(SettleTurn(turns, turn.id, forced), None, events + [SettledTurn(turn.id, forced)],
                     doomed, submitted)
  {
    SettleMembers(turns, turn.id, forced);
    forall id | id in doomed
      ensures Respects(SettledTurn(turn.id, forced), id)
      ensures forall t | t in SettleTurn(turns, turn.id, forced) && t.id == id :: t.state == Settled
    {
    }
  }

  /** Taking the reported compaction: adopted with its log event and its rounds, or discarded. */
  lemma {:induction false} TakeCore(w: World, id: TurnId, result: TurnResult)
    requires Core(w) && (Starting(w.loop, id) || (Running(w.loop, w.offered) && w.loop.worker.value.turnId == id))
    ensures
      var later := w.(loop := TakeCompaction(w.loop, id, result), heads := SettledHeads(w, id, result));
      Core(later) && LogsExtend(w.Logs(), later.Logs())
  {
    if Adopts(w.loop, id, result) {
      AdoptCore(w, id, result);
    }
  }

  /** What the attached log tells of an active turn that is not cancelled. */
  lemma {:induction false} CoreAttached(w: World)
    requires Core(w)
    ensures w.loop.cancelling.None? && ActiveId(w.Turns()).Some? ==> w.loop.disk.current.Some?
  {
    if ActiveId(w.Turns()).Some? {
      var turn := ActiveTurnOf(w.Turns(), ActiveId(w.Turns()).value);
    }
  }

  lemma {:induction false} AdoptCore(w: World, id: TurnId, result: TurnResult)
    requires Core(w) && Running(w.loop, w.offered) && w.loop.worker.value.turnId == id && Adopts(w.loop, id, result)
    ensures w.loop.disk.current.Some?
    ensures
      var later := w.(loop := TakeCompaction(w.loop, id, result), heads := SettledHeads(w, id, result));
      Core(later) && LogsExtend(w.Logs(), later.Logs())
  {
    hide Base, Accounted, DoomKept, LogsExtend;
    CoreAttached(w);
    var job, state := w.loop.worker.value, w.loop.pendingCompaction.value.1;
    var turn := ActiveTurnOf(w.Turns(), id);
    HistoryIsUncovered(w.Turns(), w.loop.compaction);
    var plan := Plan(state.coveredThroughSeq, w.offered);
    var tailBudget: nat :| PlanFor(job.history, job.compaction, tailBudget) == Some(plan);
    AdoptBase(w, plan, tailBudget, state.summary.value);
  }

  lemma {:induction false} AdoptBase(w: World, plan: Plan, tailBudget: nat, summary: string)
    requires Core(w) && w.loop.disk.current.Some?
    requires PlanFor(Uncovered(CompletedRounds(w.Turns()), w.loop.compaction), w.loop.compaction, tailBudget)
             == Some(plan)
    ensures
      var session := w.loop.disk.current.value;
      var state := CompactionState(Some(summary), plan.newCoveredThroughSeq);
      var disk := w.loop.disk.AppendToCurrent(Compacted(plan.newCoveredThroughSeq, summary));
      && Base(LiveOf(w.loop).(compaction := state), disk, w.loop.configs, w.loop.worker, w.submitted,
              w.heads[session := HeadsAt(w.heads, session) + [plan.head]], w.stopped)
      && LogsExtend(w.Logs(), disk.logs)
  {
    var session := w.loop.disk.current.value;
    var log, event := w.Logs()[session], Compacted(plan.newCoveredThroughSeq, summary);
    var heads := w.heads[session := HeadsAt(w.heads, session) + [plan.head]];
    AppendCompacted(log, plan, tailBudget, summary, w.submitted.Keys, HeadsAt(w.heads, session));
    ReplaceLog(w.Logs(), session, log + [event], w.submitted.Keys, w.submitted.Keys, w.heads, heads);
    StoppedStay(w.stopped, w.Logs(), Appended(w.Logs(), session, event));
    CompactionAttached(LiveOf(w.loop), w.loop.disk, plan.newCoveredThroughSeq, summary);
  }

  /** Ending the active turn, whatever it was waiting for. */
  lemma {:induction false} SettleOneCore(w: World, id: TurnId, result: TurnResult)
    requires Core(w) && (Starting(w.loop, id) || (Running(w.loop, w.offered) && w.loop.worker.value.turnId == id))
    requires result.Canonical()
    ensures
      var later := w.(loop := SettleOne(w.loop, id, result), heads := SettledHeads(w, id, result));
      Core(later) && Quiet(later.loop) && LogsExtend(w.Logs(), later.Logs())
  {
    hide Core, SettledFrom, SettleOne, LogsExtend, Working;
    var taken := w.(loop := TakeCompaction(w.loop, id, result), heads := SettledHeads(w, id, result));
    var later := SettleOne(w.loop, id, result);
    TakeCore(w, id, result);
    SettleOneFields(w.loop, id, result);
    SettleCore(taken, later, id, ForcedResult(w.loop, id, result));
    ExtendTrans(w.Logs(), taken.Logs(), later.disk.logs);
  }

  lemma {:induction false} SettleOneFields(s: Loop, id: TurnId, result: TurnResult)
    requires s.cancelling.Some? ==> s.cancelling == Some(id)
    ensures SettledFrom(TakeCompaction(s, id, result), SettleOne(s, id, result), id, ForcedResult(s, id, result))
  {
    hide SettledActive, Disk.OnSettle, TakeCompaction, ForcedResult, RequestSummary;
    var forced := ForcedResult(s, id, result);
    var settled := s.WithTurns(SettledActive(s.queue.turns, id, forced));
    TakeFields(s, SettledActive(s.queue.turns, id, forced), id, result);
    SummaryFields(Unwind(TakeCompaction(settled, id, result), id, forced), forced);
  }

  /** What is adopted does not depend on the turns. */
  lemma {:induction false} TakeFields(s: Loop, turns: seq<Turn>, id: TurnId, result: TurnResult)
    ensures TakeCompaction(s.WithTurns(turns), id, result) == TakeCompaction(s, id, result).WithTurns(turns)
    ensures TakeCompaction(s, id, result).queue == s.queue
    ensures TakeCompaction(s, id, result).cancelling == s.cancelling
    ensures TakeCompaction(s, id, result).pendingCompaction == None
  {
    hide Disk.AppendToCurrent, Adopts;
    assert Adopts(s.WithTurns(turns), id, result) == Adopts(s, id, result) by {
      AdoptsFields(s, turns, id, result);
    }
  }

  lemma {:induction false} AdoptsFields(s: Loop, turns: seq<Turn>, id: TurnId, result: TurnResult)
    ensures Adopts(s.WithTurns(turns), id, result) == Adopts(s, id, result)
  {
  }

  lemma {:induction false} SummaryFields(s: Loop, result: TurnResult)
    ensures RequestSummary(s, result)
            == s.(summaryRequested := RequestSummary(s, result).summaryRequested,
                  summaryJobs := RequestSummary(s, result).summaryJobs)
  {
  }

  // ---- Starting turns ----

  lemma {:induction false} ActivateCore(w: World, id: TurnId)
    requires Core(w) && Quiet(w.loop) && FirstPending(w.Turns()) == Some(id)
    ensures
      var later := w.(loop := Activate(w.loop));
      Core(later) && Starting(later.loop, id) && later.Logs() == w.Logs()
    ensures id in w.loop.configs && id in w.submitted && w.loop.configs[id] == w.submitted[id]
  {
    hide LogsKept, StoppedKept, Attached, Accounted, DoomKept, Ended;
    var s, later := w.loop, w.(loop := Activate(w.loop));
    var k := FirstIn(w.Turns(), Pending);
    assert w.Turns()[k] in w.Turns();
    NoActive(w.Turns());
    ActivateShaped(s.queue);
    TurnsActivate(w.Turns(), s.configs, w.submitted);
    OpenActivate(w.Turns());
    EndedSnoc(s.events, ActivatedEvent(id));
    ActivateAttached(LiveOf(s), s.disk);
    DoomActivate(w.Turns(), s.events, w.doomed, w.submitted);
  }

  lemma {:induction false} TurnsActivate(
    turns: seq<Turn>, configs: map<TurnId, Option<Config>>, submitted: map<TurnId, Option<Config>>)
    requires Known(turns, submitted) && ConfigsKept(turns, configs, None, submitted)
    ensures Known(ActivatedNext(turns), submitted) && ConfigsKept(ActivatedNext(turns), configs, None, submitted)
  {
    ActivateMembers(turns);
  }

  lemma {:induction false} ActivateMembers(turns: seq<Turn>)
    ensures forall t | t in ActivatedNext(turns) ::
              t in turns || (exists u :: u in turns && u.state == Pending && t == u.(state := Active))
  {
    var after := ActivatedNext(turns);
    forall t | t in after
      ensures t in turns || (exists u :: u in turns && u.state == Pending && t == u.(state := Active))
    {
      var i :| 0 <= i < |after| && after[i] == t;
      assert turns[i] in turns;
    }
  }

  lemma {:induction false} DoomActivate(
    turns: seq<Turn>, events: seq<ConversationEvent>, doomed: map<TurnId, nat>, submitted: map<TurnId, Option<Config>>)
    requires DoomKept(turns, None, events, doomed, submitted) && FirstPending(turns).Some?
    ensures DoomKept(ActivatedNext(turns), None, events + [ActivatedEvent(FirstPending(turns).value)],
                     doomed, submitted)
  {
    ActivateMembers(turns);
    forall id | id in doomed
      ensures forall t | t in ActivatedNext(turns) && t.id == id :: t.state == Settled
    {
    }
  }

  /**
   * Starting the active turn: it gets a worker exactly when it was submitted with a config,
   * and otherwise settles and the queue moves on. Ends in a stable state.
   */
  lemma {:induction false} StartCore(w: World, id: TurnId)
    requires Core(w) && Starting(w.loop, id)
    requires id in w.loop.configs && id in w.submitted && w.loop.configs[id] == w.submitted[id]
    ensures
      var later := w.(loop := StartActive(w.loop, id));
      Inv(later) && LogsExtend(w.Logs(), later.Logs())
    decreases PendingCount(w.Turns()), 2
  {
    hide Core, LogsExtend, Quiet, Running;
    var started := w.(loop := w.loop.(configs := w.loop.configs - {id}));
    UnlistedCore(w, id);
    if w.submitted[id].Some? {
      SpawnCore(started, id, w.submitted[id].value);
    } else {
      UnconfiguredCore(started, id);
      var settled := started.(loop := SettleOne(started.loop, id, NEEDS_CONFIGURATION));
      AdvanceCore(settled);
      ExtendTrans(w.Logs(), settled.Logs(), Advance(settled.loop).disk.logs);
    }
  }

  lemma {:induction false} UnconfiguredCore(w: World, id: TurnId)
    requires Core(w) && Starting(w.loop, id)
    ensures
      var later := w.(loop := SettleOne(w.loop, id, NEEDS_CONFIGURATION));
      && Core(later) && Quiet(later.loop) && LogsExtend(w.Logs(), later.Logs())
      && PendingCount(later.Turns()) == PendingCount(w.Turns())
  {
    hide Core, LogsExtend, Running, SettleOne;
    assert SettledHeads(w, id, NEEDS_CONFIGURATION) == w.heads;
    assert w.(heads := w.heads) == w;
    SettleOneCore(w, id, NEEDS_CONFIGURATION);
    SettleOneKeepsPending(w.loop, id, NEEDS_CONFIGURATION);
  }

  /** The active turn's config is taken out of the map; no pending turn loses its own. */
  lemma {:induction false} UnlistedCore(w: World, id: TurnId)
    requires Core(w) && Starting(w.loop, id)
    ensures
      var later := w.(loop := w.loop.(configs := w.loop.configs - {id}));
      Core(later) && Starting(later.loop, id)
  {
    hide LogsKept, StoppedKept, Attached, Accounted, DoomKept;
    var turns := w.Turns();
    var k := FirstIn(turns, Active);
    forall t | t in turns && t.state == Pending
      ensures t.id != id
    {
      var i :| 0 <= i < |turns| && turns[i] == t;
      assert Before(turns[i], turns[k]) || Before(turns[k], turns[i]);
    }
  }

  lemma {:induction false} PromptOfTurn(turns: seq<Turn>, k: nat)
    requires Increasing(turns) && k < |turns|
    ensures PromptOf(turns, turns[k].id) == turns[k].prompt
  {
    if k > 0 {
      assert turns[0].id != turns[k].id;
      PromptOfTurn(turns[1..], k - 1);
    }
  }

  lemma {:induction false} PromptOfActive(turns: seq<Turn>, id: TurnId)
    requires Ordered(turns) && ActiveId(turns) == Some(id)
    ensures forall t | t in turns && t.state == Active :: t.prompt == PromptOf(turns, id)
  {
    var k := FirstIn(turns, Active);
    OrderedIncreasing(turns);
    PromptOfTurn(turns, k);
    ActiveIsUnique(turns, k);
  }

  lemma {:induction false} SpawnCore(w: World, id: TurnId, config: Config)
    requires Core(w) && Starting(w.loop, id)
    requires id in w.submitted && w.submitted[id] == Some(config)
    ensures
      var later := w.(loop := Spawn(w.loop, id, config));
      Inv(later) && Running(later.loop, w.offered) && later.Logs() == w.Logs()
      && LogsExtend(w.Logs(), later.Logs())
  {
    hide LogsKept, StoppedKept, Attached, Accounted, DoomKept, CompletedHistory;
    PromptOfActive(w.Turns(), id);
    ExtendRefl(w.Logs());
  }

  lemma {:induction false} AdvanceCore(w: World)
    requires Core(w) && Quiet(w.loop)
    ensures
      var later := w.(loop := Advance(w.loop));
      Inv(later) && LogsExtend(w.Logs(), later.Logs())
    decreases PendingCount(w.Turns()), 1
  {
    if w.loop.IsShuttingDown() || FirstPending(w.Turns()).None? {
      ExtendRefl(w.Logs());
    } else {
      var id := FirstPending(w.Turns()).value;
      ActivateCore(w, id);
      ActivationLowersPending(w.loop);
      StartCore(w.(loop := Activate(w.loop)), id);
    }
  }
}
