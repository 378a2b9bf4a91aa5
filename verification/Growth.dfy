// How one command changes queue and events: events are only appended, a turn keeps its id,
// number and prompt and only moves forward, and turns start in order.
module Growth {
  import opened Common
  import opened Turns
  import opened SessionLog
  import opened LoopSpec
  import opened QueueShape
  import opened Accounting

  /** `t` is `u` at the same or a later stage of its life. */
  predicate Follows(u: Turn, t: Turn) {
    && u.id == t.id && u.seqNo == t.seqNo && u.prompt == t.prompt
    && (u.state != Pending ==> t.state != Pending)
    && (u.state == Settled ==> t == u)
  }

  ghost predicate FromQueue(queue: Queue, t: Turn) {
    t.seqNo >= queue.nextSeq || exists u :: u in queue.turns && Follows(u, t)
  }

  ghost predicate Evolves(queue: Queue, later: Queue) {
    && queue.nextSeq <= later.nextSeq
    && forall t | t in later.turns :: FromQueue(queue, t)
  }

  ghost predicate Grows(s: Loop, later: Loop) {
    s.events <= later.events && Evolves(s.queue, later.queue)
  }

  lemma {:induction false} EvolvesFewer(queue: Queue, later: Queue)
    requires queue.nextSeq == later.nextSeq && forall t | t in later.turns :: t in queue.turns
    ensures Evolves(queue, later)
  {
    forall t | t in later.turns
      ensures FromQueue(queue, t)
    {
      assert Follows(t, t);
    }
  }

  lemma {:induction false} EvolvesTrans(a: Queue, b: Queue, c: Queue)
    requires Evolves(a, b) && Evolves(b, c)
    ensures Evolves(a, c)
  {
    forall t | t in c.turns
      ensures FromQueue(a, t)
    {
      if t.seqNo < b.nextSeq {
        var u :| u in b.turns && Follows(u, t);
        assert FromQueue(a, u);
        if u.seqNo < a.nextSeq {
          var v :| v in a.turns && Follows(v, u);
          assert Follows(v, t);
        }
      }
    }
  }

  lemma {:induction false} EvolvesAt(queue: Queue, i: nat, turn: Turn)
    requires i < |queue.turns| && Follows(queue.turns[i], turn)
    ensures Evolves(queue, queue.(turns := queue.turns[i := turn]))
  {
    var turns, after := queue.turns, queue.turns[i := turn];
    forall t | t in after
      ensures FromQueue(queue, t)
    {
      var k :| 0 <= k < |after| && after[k] == t;
      assert turns[k] in turns && Follows(turns[k], t);
    }
  }

  lemma {:induction false} GrowsTrans(a: Loop, b: Loop, c: Loop)
    requires Grows(a, b) && Grows(b, c)
    ensures Grows(a, c)
  {
    EvolvesTrans(a.queue, b.queue, c.queue);
  }

  lemma {:induction false} GrowsStill(s: Loop, later: Loop)
    requires s.queue == later.queue && s.events <= later.events
    ensures Grows(s, later)
  {
    EvolvesFewer(s.queue, later.queue);
  }

  lemma {:induction false} SettleOneGrows(s: Loop, id: TurnId, result: TurnResult)
    requires ActiveId(s.queue.turns) == Some(id)
    ensures Grows(s, SettleOne(s, id, result))
    ensures SettleOne(s, id, result).events == s.events + [SettledTurn(id, ForcedResult(s, id, result))]
  {
    hide CompletedHistory, Disk.OnSettle;
    SettleOneKeepsPending(s, id, result);
    var i := FirstIn(s.queue.turns, Active);
    EvolvesAt(s.queue, i, s.queue.turns[i].(state := Settled, result := Some(ForcedResult(s, id, result))));
  }

  lemma {:induction false} ActivateGrows(s: Loop)
    requires FirstPending(s.queue.turns).Some?
    ensures Grows(s, Activate(s))
  {
    var i := FirstIn(s.queue.turns, Pending);
    EvolvesAt(s.queue, i, s.queue.turns[i].(state := Active));
  }

  lemma {:induction false} StartGrows(s: Loop, id: TurnId)
    ensures Grows(s, StartActive(s, id))
    decreases PendingCount(s.queue.turns), 3
  {
    hide Evolves, CompletedHistory, SettleOne;
    var started := s.(configs := s.configs - {id});
    GrowsStill(s, started);
    if id in s.configs && s.configs[id].Some? {
      GrowsStill(s, StartActive(s, id));
    } else {
      SettleGrows(started, id, NEEDS_CONFIGURATION);
      GrowsTrans(s, started, SettleTurnOf(started, id, NEEDS_CONFIGURATION));
    }
  }

  lemma {:induction false} SettleGrows(s: Loop, id: TurnId, result: TurnResult)
    ensures Grows(s, SettleTurnOf(s, id, result))
    decreases PendingCount(s.queue.turns), 2
  {
    hide Evolves, CompletedHistory, SettleOne;
    if ActiveId(s.queue.turns) == Some(id) {
      SettleOneGrows(s, id, result);
      SettleOneKeepsPending(s, id, result);
      AdvanceGrows(SettleOne(s, id, result));
      GrowsTrans(s, SettleOne(s, id, result), SettleTurnOf(s, id, result));
    } else {
      GrowsStill(s, s);
    }
  }

  lemma {:induction false} AdvanceGrows(s: Loop)
    ensures Grows(s, Advance(s))
    decreases PendingCount(s.queue.turns), 1
  {
    hide Evolves, CompletedHistory, SettleOne;
    if s.IsShuttingDown() || FirstPending(s.queue.turns).None? {
      GrowsStill(s, s);
    } else {
      ActivateGrows(s);
      ActivationLowersPending(s);
      StartGrows(Activate(s), FirstPending(s.queue.turns).value);
      GrowsTrans(s, Activate(s), Advance(s));
    }
  }

  ghost predicate SettledStay(turns: seq<Turn>, later: seq<Turn>) {
    forall t | t in turns && t.state == Settled :: t in later
  }

  lemma {:induction false} StaysBeside(turns: seq<Turn>, i: nat, turn: Turn)
    requires i < |turns| && turns[i].state != Settled
    ensures SettledStay(turns, turns[i := turn]) && turn in turns[i := turn]
  {
    var after := turns[i := turn];
    forall t | t in turns && t.state == Settled
      ensures t in after
    {
      var k :| 0 <= k < |turns| && turns[k] == t;
      assert after[k] == t;
    }
    assert after[i] == turn;
  }

  /** Starting and moving on leaves every settled turn where it is. */
  lemma {:induction false} StartStays(s: Loop, id: TurnId)
    ensures SettledStay(s.queue.turns, StartActive(s, id).queue.turns)
    decreases PendingCount(s.queue.turns), 3
  {
    hide CompletedHistory, SettleOne;
    var started := s.(configs := s.configs - {id});
    if !(id in s.configs && s.configs[id].Some?) && ActiveId(s.queue.turns) == Some(id) {
      SettleOneKeepsPending(started, id, NEEDS_CONFIGURATION);
      var i := FirstIn(s.queue.turns, Active);
      var forced := ForcedResult(started, id, NEEDS_CONFIGURATION);
      StaysBeside(s.queue.turns, i, s.queue.turns[i].(state := Settled, result := Some(forced)));
      AdvanceStays(SettleOne(started, id, NEEDS_CONFIGURATION));
    }
  }

  lemma {:induction false} AdvanceStays(s: Loop)
    ensures SettledStay(s.queue.turns, Advance(s).queue.turns)
    decreases PendingCount(s.queue.turns), 1
  {
    hide CompletedHistory, SettleOne;
    if !s.IsShuttingDown() && FirstPending(s.queue.turns).Some? {
      var i := FirstIn(s.queue.turns, Pending);
      StaysBeside(s.queue.turns, i, s.queue.turns[i].(state := Active));
      ActivationLowersPending(s);
      StartStays(Activate(s), FirstPending(s.queue.turns).value);
    }
  }

  /** The settled turn itself is in the queue afterwards, with the result it got. */
  lemma {:induction false} SettledIsIn(s: Loop, turn: Turn, result: TurnResult)
    requires ActiveId(s.queue.turns) == Some(turn.id) && s.queue.turns[FirstIn(s.queue.turns, Active)] == turn
    ensures turn.(state := Settled, result := Some(ForcedResult(s, turn.id, result)))
            in SettleTurnOf(s, turn.id, result).queue.turns
  {
    hide CompletedHistory, SettleOne;
    var i := FirstIn(s.queue.turns, Active);
    SettleOneKeepsPending(s, turn.id, result);
    StaysBeside(s.queue.turns, i, turn.(state := Settled, result := Some(ForcedResult(s, turn.id, result))));
    AdvanceStays(SettleOne(s, turn.id, result));
  }

  lemma {:induction false} SubmitGrows(s: Loop, id: TurnId, prompt: string, config: Option<Config>, env: Env)
    ensures Grows(s, Submit(s, id, prompt, config, env))
  {
    hide Disk.OnEnqueue, PromptOf;
    var pushed := s.queue.turns + [Turn(id, s.queue.nextSeq, prompt, InitialState(s), None)];
    RetainMembers(pushed, OtherThan(id));
    forall t | t in Submit(s, id, prompt, config, env).queue.turns
      ensures FromQueue(s.queue, t)
    {
      assert t in pushed;
      assert Follows(t, t);
    }
  }

  lemma {:induction false} EnqueueGrows(s: Loop, id: TurnId, prompt: string, config: Option<Config>, env: Env)
    ensures Grows(s, EnqueueTurn(s, id, prompt, config, env))
  {
    hide Evolves, Submit, StartActive;
    GrowsStill(s, s);
    SubmitGrows(s, id, prompt, config, env);
    StartGrows(Submit(s, id, prompt, config, env), id);
    GrowsTrans(s, Submit(s, id, prompt, config, env), StartActive(Submit(s, id, prompt, config, env), id));
  }

  lemma {:induction false} RemoveGrows(s: Loop, ids: seq<TurnId>)
    ensures Grows(s, RemoveEach(s, ids))
  {
    hide Disk.OnSettle;
    if ids == [] {
      GrowsStill(s, s);
    } else {
      var front := RemoveEach(s, ids[..|ids| - 1]);
      RemoveGrows(s, ids[..|ids| - 1]);
      RetainMembers(front.queue.turns, OtherThan(ids[|ids| - 1]));
      EvolvesFewer(front.queue, RemoveEach(s, ids).queue);
      GrowsTrans(s, front, RemoveEach(s, ids));
    }
  }

  lemma {:induction false} StopGrows(s: Loop)
    ensures Grows(s, StopTurns(s))
  {
    hide RemoveEach, Evolves;
    var removed := RemoveEach(s, PendingIds(s.queue.turns));
    RemoveGrows(s, PendingIds(s.queue.turns));
    GrowsStill(removed, CancelActive(removed));
    GrowsTrans(s, removed, StopTurns(s));
  }

  lemma {:induction false} DropGrows(s: Loop)
    ensures Grows(s, ClearSession(s)) && Grows(s, ShutDown(s))
  {
    hide Disk.OnClear, Evolves;
    var kept := Retain(s.queue.turns, NotPending);
    RetainMembers(s.queue.turns, NotPending);
    RetainMembers(kept, NotSettled);
    EvolvesFewer(s.queue, ClearSession(s).queue);
    EvolvesFewer(s.queue, ShutDown(s).queue);
  }

  /** Every command but a resume. */
  lemma {:induction false} HandleGrows(s: Loop, command: Command, env: Env)
    requires !command.ResumeSession?
    ensures Grows(s, Handle(s, command, env))
  {
    hide Evolves, EnqueueTurn, SettleTurnOf, StopTurns, ClearSession, ShutDown;
    match command
    case Enqueue(id, prompt, config) => EnqueueGrows(s, id, prompt, config, env);
    case Settle(id, result) => SettleGrows(s, id, result);
    case Stop => StopGrows(s);
    case Clear => DropGrows(s);
    case Shutdown => DropGrows(s);
    case _ => GrowsStill(s, Handle(s, command, env));
  }

  // ---- Title requests ----

  /** At most one more title request, none once one was made, and from then on it counts as made. */
  predicate RequestsOnce(s: Loop, later: Loop) {
    && (s.summaryRequested ==> later.summaryRequested && later.summaryJobs == s.summaryJobs)
    && (later.summaryJobs == s.summaryJobs
        || (later.summaryRequested && |later.summaryJobs| == |s.summaryJobs| + 1 && s.summaryJobs <= later.summaryJobs))
  }

  lemma {:induction false} RequestsOnceTrans(a: Loop, b: Loop, c: Loop)
    requires RequestsOnce(a, b) && RequestsOnce(b, c)
    ensures RequestsOnce(a, c)
  {
  }

  lemma {:induction false} SettleOneRequests(s: Loop, id: TurnId, result: TurnResult)
    ensures RequestsOnce(s, SettleOne(s, id, result))
  {
    hide CompletedHistory, Disk.OnSettle, Disk.AppendToCurrent, SettledActive;
  }

  lemma {:induction false} StartRequests(s: Loop, id: TurnId)
    ensures RequestsOnce(s, StartActive(s, id))
    decreases PendingCount(s.queue.turns), 3
  {
    hide CompletedHistory, SettleOne;
    if !(id in s.configs && s.configs[id].Some?) {
      SettleRequests(s.(configs := s.configs - {id}), id, NEEDS_CONFIGURATION);
    }
  }

  lemma {:induction false} SettleRequests(s: Loop, id: TurnId, result: TurnResult)
    ensures RequestsOnce(s, SettleTurnOf(s, id, result))
    decreases PendingCount(s.queue.turns), 2
  {
    hide CompletedHistory, SettleOne;
    if ActiveId(s.queue.turns) == Some(id) {
      SettleOneRequests(s, id, result);
      SettleOneKeepsPending(s, id, result);
      AdvanceRequests(SettleOne(s, id, result));
      RequestsOnceTrans(s, SettleOne(s, id, result), SettleTurnOf(s, id, result));
    }
  }

  lemma {:induction false} AdvanceRequests(s: Loop)
    ensures RequestsOnce(s, Advance(s))
    decreases PendingCount(s.queue.turns), 1
  {
    hide CompletedHistory, SettleOne;
    if !s.IsShuttingDown() && FirstPending(s.queue.turns).Some? {
      ActivationLowersPending(s);
      StartRequests(Activate(s), FirstPending(s.queue.turns).value);
    }
  }

  lemma {:induction false} RemovalsRequest(s: Loop, ids: seq<TurnId>)
    ensures RemoveEach(s, ids).summaryRequested == s.summaryRequested
    ensures RemoveEach(s, ids).summaryJobs == s.summaryJobs
  {
    hide Disk.OnSettle;
    if ids != [] {
      RemovalsRequest(s, ids[..|ids| - 1]);
    }
  }

  lemma {:induction false} EnqueueRequests(s: Loop, id: TurnId, prompt: string, config: Option<Config>, env: Env)
    ensures RequestsOnce(s, EnqueueTurn(s, id, prompt, config, env))
  {
    hide StartActive;
    var submitted := Submit(s, id, prompt, config, env);
    StartRequests(submitted, id);
  }

  lemma {:induction false} HandleRequests(s: Loop, command: Command, env: Env)
    requires !command.Clear?
    ensures RequestsOnce(s, Handle(s, command, env))
  {
    hide EnqueueTurn, SettleTurnOf, RemoveEach;
    match command
    case Enqueue(id, prompt, config) => EnqueueRequests(s, id, prompt, config, env);
    case Settle(id, result) => SettleRequests(s, id, result);
    case Stop => RemovalsRequest(s, PendingIds(s.queue.turns));
    case _ =>
  }

  // ---- Start order ----

  /** The smallest number a turn can still start with. */
  function Frontier(queue: Queue): nat {
    var i := FirstIn(queue.turns, Pending);
    if i < |queue.turns| then queue.turns[i].seqNo else queue.nextSeq
  }

  /** `t` is running or done now and was neither before. */
  ghost predicate StartedBetween(queue: Queue, later: Queue, t: Turn) {
    t in later.turns && t.state != Pending && forall u | u in queue.turns && u.id == t.id :: u.state == Pending
  }

  lemma {:induction false} FrontierSplits(queue: Queue)
    requires Shaped(queue)
    ensures Frontier(queue) <= queue.nextSeq
    ensures forall t | t in queue.turns :: t.state == Pending <==> Frontier(queue) <= t.seqNo
  {
    var i := FirstIn(queue.turns, Pending);
    if i < |queue.turns| {
      assert queue.turns[i] in queue.turns;
    }
    forall t | t in queue.turns
      ensures t.state == Pending <==> Frontier(queue) <= t.seqNo
    {
      var k :| 0 <= k < |queue.turns| && queue.turns[k] == t;
      if i < k {
        assert Before(queue.turns[i], queue.turns[k]);
      } else if k < i && i < |queue.turns| {
        assert Before(queue.turns[k], queue.turns[i]);
      }
    }
  }

  /** What starts lies between the old and the new frontier, which never moves back. */
  lemma {:induction false} StartsBetweenFrontiers(queue: Queue, later: Queue)
    requires Shaped(queue) && Shaped(later) && Evolves(queue, later)
    ensures Frontier(queue) <= Frontier(later)
    ensures forall t | StartedBetween(queue, later, t) :: Frontier(queue) <= t.seqNo < Frontier(later)
  {
    hide Frontier, Ordered;
    FrontierSplits(queue);
    FrontierSplits(later);
    forall t | t in later.turns && t.state == Pending
      ensures Frontier(queue) <= t.seqNo
    {
      assert FromQueue(queue, t);
    }
    FrontierIsTurn(later);
    forall t | StartedBetween(queue, later, t)
      ensures Frontier(queue) <= t.seqNo < Frontier(later)
    {
      assert FromQueue(queue, t);
    }
  }

  lemma {:induction false} FrontierIsTurn(queue: Queue)
    ensures Frontier(queue) == queue.nextSeq
            || exists t :: t in queue.turns && t.state == Pending && t.seqNo == Frontier(queue)
  {
    var i := FirstIn(queue.turns, Pending);
    if i < |queue.turns| {
      assert queue.turns[i] in queue.turns;
    }
  }

  // ---- Draining turns without a provider ----

  predicate Configured(configs: map<TurnId, Option<Config>>, id: TurnId) {
    id in configs && configs[id].Some?
  }

  /** Unconfigured turns are activated and settled in order, up to the first configured one. */
  function DrainedEvents(pending: seq<TurnId>, configs: map<TurnId, Option<Config>>): seq<ConversationEvent> {
    if pending == [] then []
    else if Configured(configs, pending[0]) then [ActivatedEvent(pending[0])]
    else [ActivatedEvent(pending[0]), SettledTurn(pending[0], NEEDS_CONFIGURATION)]
         + DrainedEvents(pending[1..], configs)
  }

  function FirstConfigured(pending: seq<TurnId>, configs: map<TurnId, Option<Config>>): (id: Option<TurnId>)
    ensures id.Some? ==> id.value in pending && Configured(configs, id.value)
  {
    if pending == [] then None
    else if Configured(configs, pending[0]) then Some(pending[0])
    else FirstConfigured(pending[1..], configs)
  }

  lemma {:induction false} NoPendingIds(turns: seq<Turn>)
    requires forall i | 0 <= i < |turns| :: turns[i].state != Pending
    ensures PendingIds(turns) == []
  {
    if turns != [] {
      NoPendingIds(turns[..|turns| - 1]);
    }
  }

  /** The first pending turn is the head of the list of pending ids; activating it takes it off. */
  lemma {:induction false} FirstPendingId(turns: seq<Turn>, i: nat, turn: Turn)
    requires i < |turns| && turns[i].state == Pending && turn.state != Pending
    requires forall j | 0 <= j < i :: turns[j].state != Pending
    ensures PendingIds(turns) == [turns[i].id] + PendingIds(turns[i := turn])
  {
    var n := |turns| - 1;
    if i == n {
      NoPendingIds(turns[..n]);
      assert turns[i := turn][..n] == turns[..n];
    } else {
      FirstPendingId(turns[..n], i, turn);
      assert turns[i := turn][..n] == turns[..n][i := turn];
    }
  }

  lemma {:induction false} DrainedWithout(pending: seq<TurnId>, configs: map<TurnId, Option<Config>>, id: TurnId)
    requires id !in pending
    ensures DrainedEvents(pending, configs - {id}) == DrainedEvents(pending, configs)
    ensures FirstConfigured(pending, configs - {id}) == FirstConfigured(pending, configs)
  {
    if pending != [] {
      DrainedWithout(pending[1..], configs, id);
    }
  }

  /** A refusal with nothing reported and nothing being cancelled. */
  lemma {:induction false} RefusalFields(s: Loop, id: TurnId)
    requires s.cancelling == None && s.pendingCompaction == None
    ensures
      var later := SettleOne(s, id, NEEDS_CONFIGURATION);
      && later.configs == s.configs && later.IsShuttingDown() == s.IsShuttingDown()
      && later.cancelling == None && later.pendingCompaction == None && later.worker == None
      && later.compaction == s.compaction
  {
    hide CompletedHistory, Disk.OnSettle, SettledActive;
  }

  /** Activating and refusing the first pending turn. */
  lemma {:induction false} RefusedFirst(s: Loop, id: TurnId)
    requires FirstPending(s.queue.turns) == Some(id) && ActiveId(s.queue.turns) == None
    requires s.cancelling == None && s.pendingCompaction == None
    ensures
      var started := Activate(s).(configs := s.configs - {id});
      var refused := SettleOne(started, id, NEEDS_CONFIGURATION);
      && ActiveId(started.queue.turns) == Some(id)
      && ActiveId(refused.queue.turns) == None
      && refused.events == s.events + [ActivatedEvent(id), SettledTurn(id, NEEDS_CONFIGURATION)]
      && refused.configs == s.configs - {id} && refused.IsShuttingDown() == s.IsShuttingDown()
      && refused.cancelling == None && refused.pendingCompaction == None && refused.worker == None
      && refused.compaction == s.compaction
      && PendingIds(s.queue.turns) == [id] + PendingIds(refused.queue.turns)
      && PendingCount(refused.queue.turns) < PendingCount(s.queue.turns)
  {
    hide SettleOne, PendingIds, PendingCount;
    var turns := s.queue.turns;
    var i := FirstIn(turns, Pending);
    NoActive(turns);
    var started := Activate(s).(configs := s.configs - {id});
    assert started.queue.turns == turns[i := turns[i].(state := Active)];
    OnlyActive(started.queue.turns, i);
    SettleOneKeepsPending(started, id, NEEDS_CONFIGURATION);
    SettleOneGrows(started, id, NEEDS_CONFIGURATION);
    RefusalFields(started, id);
    ActivationLowersPending(s);
    var settled := turns[i].(state := Settled, result := Some(NEEDS_CONFIGURATION));
    var refused := SettleOne(started, id, NEEDS_CONFIGURATION);
    assert refused.queue.turns == turns[i := settled];
    NoActive(refused.queue.turns);
    FirstPendingId(turns, i, settled);
    assert s.events + [ActivatedEvent(id)] + [SettledTurn(id, NEEDS_CONFIGURATION)]
        == s.events + [ActivatedEvent(id), SettledTurn(id, NEEDS_CONFIGURATION)];
  }

  lemma {:induction false} OnlyActive(turns: seq<Turn>, i: nat)
    requires i < |turns| && turns[i].state == Active
    requires forall j | 0 <= j < |turns| && j != i :: turns[j].state != Active
    ensures FirstIn(turns, Active) == i && ActiveId(turns) == Some(turns[i].id)
  {
  }

  /**
   * Closed form of the settle/start recursion: the whole run of unconfigured turns at the
   * front settles in order, then the first configured one gets the worker, or nothing runs.
   */
  lemma {:induction false} DrainRuns(s: Loop)
    requires !s.IsShuttingDown() && ActiveId(s.queue.turns) == None && NoRepeats(PendingIds(s.queue.turns))
    requires s.cancelling == None && s.pendingCompaction == None && s.worker == None
    ensures
      var pending := PendingIds(s.queue.turns);
      var later := Advance(s);
      && later.events == s.events + DrainedEvents(pending, s.configs)
      && later.compaction == s.compaction
      && ActiveId(later.queue.turns) == FirstConfigured(pending, s.configs)
      && (later.worker.Some? <==> FirstConfigured(pending, s.configs).Some?)
      && (later.worker.Some? ==>
            && FirstConfigured(pending, s.configs) == Some(later.worker.value.turnId)
            && s.configs[later.worker.value.turnId] == Some(later.worker.value.config))
    decreases PendingCount(s.queue.turns)
  {
    hide SettleOne, CompletedHistory, NoRepeats;
    var turns := s.queue.turns;
    if FirstPending(turns).None? {
      NoPendingIds(turns);
    } else {
      var id := FirstPending(turns).value;
      RefusedFirst(s, id);
      if !Configured(s.configs, id) {
        var started := Activate(s).(configs := s.configs - {id});
        var refused := SettleOne(started, id, NEEDS_CONFIGURATION);
        RestNoRepeats(id, PendingIds(refused.queue.turns));
        DrainRuns(refused);
        DrainedWithout(PendingIds(refused.queue.turns), s.configs, id);
        StartRefused(s, id);
        JoinEvents(s.events, [ActivatedEvent(id), SettledTurn(id, NEEDS_CONFIGURATION)],
                   DrainedEvents(PendingIds(refused.queue.turns), s.configs));
      }
    }
  }

  lemma {:induction false} StartRefused(s: Loop, id: TurnId)
    requires !s.IsShuttingDown() && FirstPending(s.queue.turns) == Some(id) && !Configured(s.configs, id)
    requires ActiveId(Activate(s).queue.turns) == Some(id)
    ensures Advance(s) == Advance(SettleOne(Activate(s).(configs := s.configs - {id}), id, NEEDS_CONFIGURATION))
  {
    hide SettleOne;
    var started := Activate(s).(configs := s.configs - {id});
    assert Advance(s) == StartActive(Activate(s), id);
    assert StartActive(Activate(s), id) == SettleTurnOf(started, id, NEEDS_CONFIGURATION);
    assert SettleTurnOf(started, id, NEEDS_CONFIGURATION) == Advance(SettleOne(started, id, NEEDS_CONFIGURATION));
  }

  lemma {:induction false} JoinEvents(a: seq<ConversationEvent>, b: seq<ConversationEvent>, c: seq<ConversationEvent>)
    ensures a + b + c == a + (b + c)
  {
  }

  lemma {:induction false} RestNoRepeats(id: TurnId, rest: seq<TurnId>)
    requires NoRepeats([id] + rest)
    ensures NoRepeats(rest) && id !in rest
  {
    var all := [id] + rest;
    forall i, j | 0 <= i < j < |rest|
      ensures rest[i] != rest[j]
    {
      assert all[i + 1] == rest[i] && all[j + 1] == rest[j];
    }
    forall i | 0 <= i < |rest|
      ensures rest[i] != id
    {
      assert all[0] == id && all[i + 1] == rest[i];
    }
  }
}
