// The main results about the coordinator, for every run from an empty disk.
module Runs {
  import opened Common
  import opened Turns
  import opened SessionLog
  import opened Replay
  import opened LoopSpec
  import opened QueueShape
  import opened LogInvariant
  import opened Accounting
  import opened Attachment
  import opened World
  import opened WorldSteps
  import opened Growth
  import opened Theorems
  import opened ClosedEntries
  import opened ClosedTurns

  lemma {:induction false} RunSplits(w: World, a: seq<Action>, b: seq<Action>)
    requires LegalRun(w, a + b)
    ensures LegalRun(w, a) && LegalRun(Run(w, a), b) && Run(w, a + b) == Run(Run(w, a), b)
    decreases |a|
  {
    hide Legal, Step;
    if a == [] {
      assert a + b == b;
    } else {
      assert (a + b)[0] == a[0] && (a + b)[1..] == a[1..] + b;
      RunSplits(Step(w, a[0]), a[1..], b);
    }
  }

  /** A run seen from one of its actions. */
  lemma {:induction false} RunAround(before: seq<Action>, action: Action, more: seq<Action>)
    requires LegalRun(START, before + ([action] + more))
    ensures LegalRun(START, before)
    ensures
      var w := Run(START, before);
      && Inv(w) && Legal(w, action) && LegalRun(Step(w, action), more)
      && Run(START, before + ([action] + more)) == Run(Step(w, action), more)
  {
    hide Inv, Legal, Step;
    RunSplits(START, before, [action] + more);
    Reached(before);
    assert ([action] + more)[1..] == more;
  }

  /** Logs only grow, and never by changing what was settled or completed. */
  lemma {:induction false} LogsOnlyGrow(before: seq<Action>, more: seq<Action>, session: SessionId)
    requires LegalRun(START, before) && LegalRun(START, before + more)
    requires session in Run(START, before).Logs()
    ensures
      var later := Run(START, before + more).Logs();
      && session in later
      && LogRounds(Run(START, before).Logs()[session]) <= LogRounds(later[session])
      && forall t | t in Fold(Run(START, before).Logs()[session]).turns && t.state == Settled ::
           t in Fold(later[session]).turns
  {
    hide Inv, LegalRun, Run, Fold;
    RunSplits(START, before, more);
    Reached(before);
    RunKeeps(Run(START, before), more);
  }

  /**
   * Once Cancel, Stop or Clear was handled while a turn was active, no later event carries
   * text of it or any result but Cancelled, and no compaction reported for it is adopted,
   * whatever its worker sends and however the run goes on.
   */
  lemma {:induction false} CancelWins(
      before: seq<Action>, action: Action, more: seq<Action>, id: TurnId, result: TurnResult)
    requires LegalRun(START, before) && LegalRun(START, before + ([action] + more))
    requires Cancels(Run(START, before), action, id)
    ensures
      var w, later := Run(START, before), Run(START, before + ([action] + more));
      && w.loop.events <= later.loop.events
      && (forall i | |w.loop.events| <= i < |later.loop.events| :: Respects(later.loop.events[i], id))
      && !(ActiveId(later.Turns()) == Some(id) && Adopts(later.loop, id, result))
  {
    hide Inv, Legal, Step, LegalRun, Run, Adopts;
    RunAround(before, action, more);
    CancelWinsFrom(Run(START, before), action, id, more, result);
  }

  /** No clear and no new process. */
  predicate SameAttachment(action: Action) {
    !action.Restart? && !(action.Do? && action.command.Clear?)
  }

  /**
   * Between two clears a title is requested at most once, and not at all once it was or after
   * a resume.
   */
  lemma {:induction false} TitleRequestedOnce(before: seq<Action>, more: seq<Action>)
    requires LegalRun(START, before) && LegalRun(START, before + more)
    requires forall a | a in more :: SameAttachment(a)
    ensures
      var s, later := Run(START, before).loop, Run(START, before + more).loop;
      && (s.summaryRequested ==> later.summaryRequested && later.summaryJobs == s.summaryJobs)
      && |s.summaryJobs| <= |later.summaryJobs| <= |s.summaryJobs| + 1 && s.summaryJobs <= later.summaryJobs
  {
    hide LegalRun, Run;
    RunSplits(START, before, more);
    RequestsOnRuns(Run(START, before), more);
  }

  lemma {:induction false} RequestsOnRuns(w: World, actions: seq<Action>)
    requires LegalRun(w, actions) && forall a | a in actions :: SameAttachment(a)
    ensures RequestsOnce(w.loop, Run(w, actions).loop)
    decreases |actions|
  {
    hide Legal, Step;
    if actions != [] {
      assert actions[0] in actions;
      assert forall a | a in actions[1..] :: a in actions;
      StepRequests(w, actions[0]);
      RequestsOnRuns(Step(w, actions[0]), actions[1..]);
      RequestsOnceTrans(w.loop, Step(w, actions[0]).loop, Run(w, actions).loop);
    }
  }

  lemma {:induction false} StepRequests(w: World, action: Action)
    requires Legal(w, action) && SameAttachment(action)
    ensures RequestsOnce(w.loop, Step(w, action).loop)
  {
    hide Handle, WorkerPlan, Restored;
    if action.Do? {
      HandleRequests(w.loop, action.command, action.env);
    }
  }

  /** A turn removed by Stop reads as cancelled from then on, in the session it was queued in. */
  lemma {:induction false} StoppedReplayCancelled(before: seq<Action>, env: Env, more: seq<Action>, turn: Turn)
    requires LegalRun(START, before) && LegalRun(START, before + ([Do(Stop, env)] + more))
    requires turn in Run(START, before).Turns() && turn.state == Pending
    ensures
      var w, later := Run(START, before), Run(START, before + ([Do(Stop, env)] + more));
      && w.loop.disk.current.Some? && w.loop.disk.current.value in later.Logs()
      && exists t :: && t in Restored(later.Logs()[w.loop.disk.current.value]).turns
                     && t.id == turn.id && t.result == Some(CANCELLED)
  {
    hide Inv, Legal, Step, LegalRun, Run, Restored;
    RunAround(before, Do(Stop, env), more);
    StoppedReplayCancelledFrom(Run(START, before), env, more, turn);
  }

  /** Clear and Shutdown drop what is pending without any event, then or later. */
  lemma {:induction false} DroppedSilently(
      before: seq<Action>, command: Command, env: Env, more: seq<Action>, turn: Turn)
    requires LegalRun(START, before) && LegalRun(START, before + ([Do(command, env)] + more))
    requires command == Clear || command == Shutdown
    requires turn in Run(START, before).Turns() && turn.state == Pending
    ensures
      var later := Run(START, before + ([Do(command, env)] + more));
      forall event | event in later.loop.events && Ends(event) :: event.turnId != turn.id
  {
    hide Inv, Legal, Step, LegalRun, Run;
    RunAround(before, Do(command, env), more);
    DroppedSilentlyFrom(Run(START, before), command, env, more, turn);
  }

  /** `action`, after `before`, starts the turn `t`. */
  ghost predicate StartsAt(before: seq<Action>, action: Action, t: Turn) {
    && LegalRun(START, before) && LegalRun(START, before + [action]) && Ongoing(action)
    && StartedBetween(Run(START, before).loop.queue, Run(START, before + [action]).loop.queue, t)
  }

  /** Unless a session is resumed in between, a turn that starts later has the larger number. */
  lemma {:induction false} StartsInOrder(
      before: seq<Action>, first: Action, later: seq<Action>, second: Action, a: Turn, b: Turn)
    requires StartsAt(before, first, a) && StartsAt(later, second, b)
    requires before + [first] <= later && forall i | |before| <= i < |later| :: Ongoing(later[i])
    ensures a.seqNo < b.seqNo
  {
    hide Inv, Legal, Step, LegalRun, Run, StartedBetween;
    var between := later[|before| + 1..];
    assert later == before + ([first] + between);
    assert later + [second] == before + ([first] + (between + [second]));
    assert before + [first] == before + ([first] + []);
    RunAround(before, first, []);
    RunAround(before, first, between);
    RunAround(before, first, between + [second]);
    NoMore(Step(Run(START, before), first));
    RunSplits(Step(Run(START, before), first), between, [second]);
    LastAction(Run(START, later), second);
    assert forall i | 0 <= i < |between| :: between[i] == later[|before| + 1 + i];
    StartsInOrderFrom(Run(START, before), first, between, second, a, b);
  }

  lemma {:induction false} NoMore(w: World)
    ensures LegalRun(w, []) && Run(w, []) == w
  {
  }

  lemma {:induction false} LastAction(w: World, action: Action)
    requires LegalRun(w, [action])
    ensures Legal(w, action) && Run(w, [action]) == Step(w, action)
  {
    hide Legal, Step;
    assert [action][1..] == [];
  }

  /**
   * What the settle of the active turn emits, in full: its own result, or Cancelled if it was
   * cancelled before, then one refusal for every queued turn submitted without a config, in
   * order, up to the first one submitted with a config, which gets the worker. Nothing
   * starts while the loop is ending. The settled turn stays queued with that result.
   */
  lemma {:induction false} SettleDrains(actions: seq<Action>, turn: Turn, result: TurnResult)
    requires LegalRun(START, actions)
    requires turn in Run(START, actions).Turns() && turn.state == Active
    ensures
      var w := Run(START, actions);
      var later := SettleTurnOf(w.loop, turn.id, result);
      var own := if turn.id in w.doomed then CANCELLED else result;
      var pending := if w.loop.IsShuttingDown() then [] else PendingIds(w.Turns());
      && later.events == w.loop.events + [SettledTurn(turn.id, own)] + DrainedEvents(pending, w.submitted)
      && ActiveId(later.queue.turns) == FirstConfigured(pending, w.submitted)
      && (later.worker.Some? <==> FirstConfigured(pending, w.submitted).Some?)
      && (later.worker.Some? ==> FirstConfigured(pending, w.submitted) == Some(later.worker.value.turnId)
                                 && w.submitted[later.worker.value.turnId] == Some(later.worker.value.config))
      && turn.(state := Settled, result := Some(own)) in later.queue.turns
  {
    hide Inv, LegalRun, Run, SettleTurnOf, DrainedEvents, FirstConfigured, PendingIds;
    var w := Run(START, actions);
    Reached(actions);
    ActiveIdOf(w, turn);
    SettleDrainsAt(w, turn.id, result);
    SettledTurnIsKeptAt(w, turn, result);
  }

  lemma {:induction false} ActiveIdOf(w: World, turn: Turn)
    requires Inv(w) && turn in w.Turns() && turn.state == Active
    ensures ActiveId(w.Turns()) == Some(turn.id)
  {
    CoreOrdered(w);
    ActiveIsThis(w.Turns());
  }

  /**
   * Every outcome of a submission: ignored while the loop is ending; refused with one error
   * event when it cannot be stored, and then listed by a log exactly when it was the row update
   * that failed; queued behind an active turn; or started at once, when it gets the worker
   * exactly if it was submitted with a config and is refused if not.
   */
  lemma {:induction false} EnqueueOutcomes(
      actions: seq<Action>, id: TurnId, prompt: string, config: Option<Config>, env: Env)
    requires LegalRun(START, actions)
    requires id !in Run(START, actions).submitted && env.freshSession !in Run(START, actions).Logs()
    ensures
      var s := Run(START, actions).loop;
      var later := EnqueueTurn(s, id, prompt, config, env);
      if s.IsShuttingDown() then later == s
      else if !s.disk.EnqueueSucceeds(env) then
        && later.queue.turns == s.queue.turns && later.worker == s.worker
        && later.events == s.events + [SettledTurn(id, ErrorResult("sessionPersistence", FaultMessage(env.fault)))]
        && (Lists(later.disk.logs, id) <==> env.fault.EnqueueRowFault?)
      else if HasActive(s.queue.turns) then
        && later.queue.turns == s.queue.turns + [Turn(id, s.queue.nextSeq, prompt, Pending, None)]
        && later.worker == s.worker
        && later.events == s.events + [EnqueuedEvent(id, s.queue.nextSeq, Pending)]
      else
        && later.events == s.events + [EnqueuedEvent(id, s.queue.nextSeq, Active)]
                           + (if config.Some? then [] else [SettledTurn(id, NEEDS_CONFIGURATION)])
        && (if config.Some? then
              later.worker.Some? && later.worker.value.turnId == id && later.worker.value.config == config.value
            else later.worker.None? && ActiveId(later.queue.turns).None?)
  {
    hide Inv, LegalRun, Run, Submit, StartActive, FaultMessage, Lists, EntriesAt, Disk.OnEnqueue;
    var w := Run(START, actions);
    Reached(actions);
    InvAttached(w);
    KnownElsewhere(w, id);
    SubmitFields(w.loop, id, prompt, config, env);
    NotListed(w, id);
    if !w.loop.disk.EnqueueSucceeds(env) {
      RefusedEntry(w.loop.disk, id, w.loop.queue.nextSeq, prompt, env);
      EntryIsListed(w.loop.disk.OnEnqueue(id, w.loop.queue.nextSeq, prompt, env), id);
    }
    if !w.loop.IsShuttingDown() && w.loop.disk.EnqueueSucceeds(env) && !HasActive(w.Turns()) {
      EnqueueStartsAt(w, id, prompt, config, env);
    }
  }

  lemma {:induction false} EntryIsListed(disk: Disk, id: TurnId)
    ensures disk.current.Some? && EntriesAt(disk.logs, disk.current.value, id) != {} ==> Lists(disk.logs, id)
  {
  }

  const CUT_OFF := TurnResult(Error, None, None, Some("interrupted"), Some("turn interrupted before resume"))

  /** Resuming `session` brings back `turn` as cut off, and nothing else under its id. */
  ghost predicate ReadsInterrupted(logs: Logs, session: SessionId, turn: Turn) {
    && session in logs
    && forall t :: t in Restored(logs[session]).turns && t.id == turn.id
                   <==> t == turn.(state := Settled, result := Some(CUT_OFF))
  }

  /**
   * A refused submission in the logs, from then on: none ever lists it, unless it was the row
   * update that failed. Then one session, and no other, lists it for good and brings it back as
   * interrupted, though its submission failed.
   */
  lemma {:induction false} RefusedReplay(
      before: seq<Action>, id: TurnId, prompt: string, config: Option<Config>, env: Env, more: seq<Action>)
    requires LegalRun(START, before)
    requires LegalRun(START, before + ([Do(Enqueue(id, prompt, config), env)] + more))
    requires !Run(START, before).loop.IsShuttingDown() && !Run(START, before).loop.disk.EnqueueSucceeds(env)
    ensures
      var turn := Turn(id, Run(START, before).loop.queue.nextSeq, prompt, Pending, None);
      var later := Run(START, before + ([Do(Enqueue(id, prompt, config), env)] + more)).Logs();
      if env.fault.EnqueueRowFault? then
        exists session :: && ReadsInterrupted(later, session, turn)
                          && forall other | other != session :: EntriesAt(later, other, id) == {}
      else !Lists(later, id)
  {
    hide Inv, Legal, Step, LegalRun, Run, EntriesAt, Restored, Closed;
    var w, action := Run(START, before), Do(Enqueue(id, prompt, config), env);
    RunAround(before, action, more);
    RefusedStep(w, id, prompt, config, env);
    StepKeeps(w, action);
    ClosedStays(Step(w, action), more, id);
    var later := Run(Step(w, action), more).Logs();
    if env.fault.EnqueueRowFault? {
      var turn := Turn(id, w.loop.queue.nextSeq, prompt, Pending, None);
      var session :| EntriesAt(Step(w, action).Logs(), session, id) == {turn}
                     && forall other | other != session :: EntriesAt(Step(w, action).Logs(), other, id) == {};
      ReadBack(later, session, turn);
      assert ReadsInterrupted(later, session, turn);
    }
  }

  lemma {:induction false} RefusedStep(w: World, id: TurnId, prompt: string, config: Option<Config>, env: Env)
    requires Inv(w) && Legal(w, Do(Enqueue(id, prompt, config), env))
    requires !w.loop.IsShuttingDown() && !w.loop.disk.EnqueueSucceeds(env)
    ensures
      var later := Step(w, Do(Enqueue(id, prompt, config), env));
      var turn := Turn(id, w.loop.queue.nextSeq, prompt, Pending, None);
      && id in later.submitted && Closed(later.Turns(), id)
      && if env.fault.EnqueueRowFault? then
           exists session :: && EntriesAt(later.Logs(), session, id) == {turn}
                             && forall other | other != session :: EntriesAt(later.Logs(), other, id) == {}
         else !Lists(later.Logs(), id)
  {
    hide Core, Running, Submit, StartActive, EntriesAt, Disk.OnEnqueue, Disk.EnqueueSucceeds;
    KnownElsewhere(w, id);
    NotListed(w, id);
    SubmitFields(w.loop, id, prompt, config, env);
    RefusedEntry(w.loop.disk, id, w.loop.queue.nextSeq, prompt, env);
    var later := Step(w, Do(Enqueue(id, prompt, config), env));
    assert later.loop == Submit(w.loop, id, prompt, config, env);
    assert later.loop.disk == w.loop.disk.OnEnqueue(id, w.loop.queue.nextSeq, prompt, env);
    if env.fault.EnqueueRowFault? {
      assert EntriesAt(later.Logs(), later.loop.disk.current.value, id) != {};
    }
  }

  /** The shutdown command, or the end of the process. */
  predicate CutsOff(action: Action) {
    action.Restart? || (action.Do? && action.command.Shutdown?)
  }

  /**
   * A pending turn that a shutdown drops, and any open turn of the attached session at the end
   * of the process, reads as interrupted from then on, in the session it was queued in.
   */
  lemma {:induction false} CutOffReplay(before: seq<Action>, action: Action, more: seq<Action>, turn: Turn)
    requires LegalRun(START, before) && LegalRun(START, before + ([action] + more))
    requires CutsOff(action) && turn in Run(START, before).Turns()
    requires turn.state == Pending || (action.Restart? && turn.state == Active)
    ensures
      var disk := Run(START, before).loop.disk;
      var later := Run(START, before + ([action] + more)).Logs();
      turn.id in disk.turnSessions || turn.state == Pending ==>
        turn.id in disk.turnSessions && ReadsInterrupted(later, disk.turnSessions[turn.id], turn)
  {
    hide Inv, Legal, Step, LegalRun, Run, EntriesAt, Restored, Closed;
    var w := Run(START, before);
    RunAround(before, action, more);
    if turn.id in w.loop.disk.turnSessions || turn.state == Pending {
      OpenEntry(w, turn);
      CutOffStep(w, action, turn);
      StepKeeps(w, action);
      ClosedStays(Step(w, action), more, turn.id);
      ReadBack(Run(Step(w, action), more).Logs(), w.loop.disk.turnSessions[turn.id], turn.(state := Pending));
    }
  }

  /** An open turn that belongs to a session is listed there, once, as open. */
  lemma {:induction false} OpenEntry(w: World, turn: Turn)
    requires Inv(w) && turn in w.Turns() && turn.state != Settled
    requires turn.id in w.loop.disk.turnSessions || turn.state == Pending
    ensures turn.id in w.loop.disk.turnSessions && turn.id in w.submitted && turn.result.None?
    ensures EntriesAt(w.Logs(), w.loop.disk.turnSessions[turn.id], turn.id) == {turn.(state := Pending)}
  {
    hide Running, ConfigsKept, StoppedKept, Accounted, DoomKept, Fold, CompletedRounds, LogsKept;
    var session := w.loop.disk.current.value;
    var folded := Fold(w.Logs()[session]).turns;
    assert Linked(folded, w.loop.disk.turnSessions, session, w.loop.cancelling, turn);
    LogKept(w, session);
    OneEntry(folded, turn.(state := Pending));
  }

  lemma {:induction false} OneEntry(turns: seq<Turn>, turn: Turn)
    requires Increasing(turns) && turn in turns
    ensures Entries(turns, turn.id) == {turn}
  {
  }

  lemma {:induction false} CutOffStep(w: World, action: Action, turn: Turn)
    requires Inv(w) && Legal(w, action) && CutsOff(action) && turn in w.Turns()
    requires turn.state == Pending || action.Restart?
    ensures Step(w, action).Logs() == w.Logs() && Step(w, action).submitted == w.submitted
    ensures Closed(Step(w, action).Turns(), turn.id)
  {
    hide Inv, Closed, PendingSet, Open, Retain;
    InvOrdered(w);
    PendingDropped(w.Turns(), turn);
    NothingOpen(turn.id);
  }

  lemma {:induction false} InvOrdered(w: World)
    requires Inv(w)
    ensures Ordered(w.Turns())
  {
    hide Base, Running;
    CoreOrdered(w);
  }

  lemma {:induction false} NothingOpen(id: TurnId)
    ensures Closed([], id)
  {
  }

  lemma {:induction false} PendingDropped(turns: seq<Turn>, turn: Turn)
    requires Ordered(turns) && turn in turns
    ensures turn.state == Pending ==> Closed(Retain(turns, NotPending), turn.id)
  {
    RetainMembers(turns, NotPending);
    var k :| 0 <= k < |turns| && turns[k] == turn;
    SameId(turns, k);
  }

  /**
   * What the logs say of a submitted turn that is not open any more never changes: whatever
   * happens, no entry of it is added, removed or settled.
   */
  lemma {:induction false} ClosedEntriesStay(before: seq<Action>, more: seq<Action>, id: TurnId)
    requires LegalRun(START, before) && LegalRun(START, before + more)
    requires id in Run(START, before).submitted && Closed(Run(START, before).Turns(), id)
    ensures SameEntries(Run(START, before).Logs(), Run(START, before + more).Logs(), id)
  {
    hide Inv, LegalRun, Run, EntriesAt, Closed;
    RunSplits(START, before, more);
    Reached(before);
    ClosedStays(Run(START, before), more, id);
  }

  lemma {:induction false} EntryStays(log: seq<LogEvent>, entry: Turn, other: TurnId)
    requires entry in Fold(log).turns && entry.id != other
    ensures entry in Fold(log + [SettledEvent(other, CANCELLED)]).turns
  {
    FoldSnoc(log, SettledEvent(other, CANCELLED));
    var before, after := Fold(log).turns, Fold(log + [SettledEvent(other, CANCELLED)]).turns;
    var i :| 0 <= i < |before| && before[i] == entry;
    assert after[i] == entry;
  }

  lemma {:induction false} EntryKept(disk: Disk, turns: seq<Turn>, entry: Turn)
    requires disk.current.Some? && disk.current.value in disk.logs
    requires entry in Fold(disk.logs[disk.current.value]).turns
    requires forall t | t in turns :: t.id != entry.id
    ensures disk.CancelUnsettled(turns).current == disk.current
    ensures disk.current.value in disk.CancelUnsettled(turns).logs
    ensures entry in Fold(disk.CancelUnsettled(turns).logs[disk.current.value]).turns
    decreases |turns|
  {
    hide Fold;
    if turns != [] {
      var front, last := turns[..|turns| - 1], turns[|turns| - 1];
      assert turns == front + [last] && last in turns;
      EntryKept(disk, front, entry);
      EntryStays(disk.CancelUnsettled(front).logs[disk.current.value], entry, last.id);
    }
  }

  /** Every open turn the log has is settled cancelled by a clear. */
  lemma {:induction false} CancelUnsettledReplays(disk: Disk, turns: seq<Turn>, turn: Turn)
    requires disk.current.Some? && disk.current.value in disk.logs && Increasing(turns)
    requires turn in turns && turn.state != Settled
    requires turn.(state := Pending) in Fold(disk.logs[disk.current.value]).turns
    ensures disk.current.value in disk.CancelUnsettled(turns).logs
    ensures ReplaysCancelled(disk.CancelUnsettled(turns).logs[disk.current.value], turn.id)
    decreases |turns|
  {
    hide Fold, SettledEvent;
    var session := disk.current.value;
    var front, last := turns[..|turns| - 1], turns[|turns| - 1];
    assert turns == front + [last];
    CancelledAreUnlinked(disk, front);
    if turn in front {
      CancelUnsettledReplays(disk, front, turn);
      var log := disk.CancelUnsettled(front).logs[session];
      if last.state != Settled {
        assert last.id != turn.id;
        var t :| t in Fold(log).turns && t.id == turn.id && t.state == Settled && t.result == Some(CANCELLED);
        EntryStays(log, t, last.id);
      }
    } else {
      EntryKept(disk, front, turn.(state := Pending));
      SettledReplays(disk.CancelUnsettled(front).logs[session], turn.(state := Pending));
    }
  }

  /**
   * A turn that was queued or running in a session when it was cleared reads as cancelled
   * there from then on.
   */
  lemma {:induction false} ClearedReplayCancelled(before: seq<Action>, env: Env, more: seq<Action>, turn: Turn)
    requires LegalRun(START, before) && LegalRun(START, before + ([Do(Clear, env)] + more))
    requires turn in Run(START, before).Turns() && turn.state != Settled
    ensures
      var w, later := Run(START, before), Run(START, before + ([Do(Clear, env)] + more));
      w.loop.disk.current.Some? && turn.id in w.loop.disk.turnSessions ==>
        && w.loop.disk.current.value in later.Logs()
        && exists t :: && t in Restored(later.Logs()[w.loop.disk.current.value]).turns
                       && t.id == turn.id && t.result == Some(CANCELLED)
  {
    hide Inv, Legal, Step, LegalRun, Run, Restored, ReplaysCancelled, LogsExtend;
    var w := Run(START, before);
    RunAround(before, Do(Clear, env), more);
    var after := Step(w, Do(Clear, env));
    StepKeeps(w, Do(Clear, env));
    RunKeeps(after, more);
    if w.loop.disk.current.Some? && turn.id in w.loop.disk.turnSessions {
      ClearedLog(w, env, turn);
      CancelledStays(after.Logs(), Run(after, more).Logs(), w.loop.disk.current.value, turn.id);
    }
  }

  lemma {:induction false} ClearedDisk(s: Loop)
    requires s.disk.current.Some?
    ensures ClearSession(s).disk.logs == s.disk.CancelUnsettled(s.queue.turns).logs
  {
  }

  lemma {:induction false} ClearedLog(w: World, env: Env, turn: Turn)
    requires Inv(w) && Legal(w, Do(Clear, env)) && turn in w.Turns() && turn.state != Settled
    requires w.loop.disk.current.Some? && turn.id in w.loop.disk.turnSessions
    ensures
      var logs := Step(w, Do(Clear, env)).Logs();
      && w.loop.disk.current.value in logs
      && ReplaysCancelled(logs[w.loop.disk.current.value], turn.id)
  {
    hide LogsKept, ConfigsKept, StoppedKept, Accounted, DoomKept, Fold, CompletedRounds, ReplaysCancelled, World.Doom,
         PendingSet, Running, ClearSession, Disk.CancelUnsettled;
    ClearedDisk(w.loop);
    CoreOrdered(w);
    OrderedIncreasing(w.Turns());
    assert Linked(Fold(w.Logs()[w.loop.disk.current.value]).turns, w.loop.disk.turnSessions,
                  w.loop.disk.current.value, w.loop.cancelling, turn);
    CancelUnsettledReplays(w.loop.disk, w.Turns(), turn);
  }

  function Removals(ids: seq<TurnId>): seq<ConversationEvent> {
    if ids == [] then [] else Removals(ids[..|ids| - 1]) + [TurnRemoved(ids[|ids| - 1])]
  }

  lemma {:induction false} RemoveEachEffect(s: Loop, ids: seq<TurnId>)
    ensures RemoveEach(s, ids).events == s.events + Removals(ids)
    ensures forall t :: t in RemoveEach(s, ids).queue.turns <==> t in s.queue.turns && t.id !in ids
  {
    hide Disk.OnSettle;
    if ids == [] {
      assert s.events + [] == s.events;
    } else {
      var front, last := ids[..|ids| - 1], ids[|ids| - 1];
      assert ids == front + [last];
      RemoveEachEffect(s, front);
      RetainMembers(RemoveEach(s, front).queue.turns, OtherThan(last));
      assert s.events + Removals(front) + [TurnRemoved(last)] == s.events + (Removals(front) + [TurnRemoved(last)]);
    }
  }

  /**
   * Stop takes exactly the pending turns out of the queue, announces each of them in order,
   * and leaves the active turn running but cancelled.
   */
  lemma {:induction false} StopOutcome(actions: seq<Action>)
    requires LegalRun(START, actions)
    ensures
      var s := Run(START, actions).loop;
      var later := StopTurns(s);
      && later.events == s.events + Removals(PendingIds(s.queue.turns))
      && (forall t :: t in later.queue.turns <==> t in s.queue.turns && t.state != Pending)
      && later.worker == s.worker && later.cancelling == ActiveId(s.queue.turns)
  {
    hide Inv, LegalRun, Run, RemoveEach, Removals, PendingIds;
    var w := Run(START, actions);
    Reached(actions);
    InvAttached(w);
    RemoveEachEffect(w.loop, PendingIds(w.Turns()));
    PendingApart(w.Turns());
    CancelKeeps(w);
    CancelCommutes(w, PendingIds(w.Turns()));
    RemoveKeepsWorker(CancelActive(w.loop), PendingIds(w.Turns()));
  }

  lemma {:induction false} RemoveKeepsWorker(s: Loop, ids: seq<TurnId>)
    ensures RemoveEach(s, ids).worker == s.worker && RemoveEach(s, ids).cancelling == s.cancelling
  {
    if ids != [] {
      RemoveKeepsWorker(s, ids[..|ids| - 1]);
    }
  }

  /** The ids of pending turns belong to no other turn. */
  lemma {:induction false} PendingApart(turns: seq<Turn>)
    requires Ordered(turns)
    ensures NoRepeats(PendingIds(turns)) && AllPending(turns, PendingIds(turns))
    ensures forall t | t in turns :: t.id in PendingIds(turns) <==> t.state == Pending
  {
    PendingArePending(turns);
    forall t | t in turns && t.id in PendingIds(turns)
      ensures t.state == Pending
    {
      var u :| u in turns && u.state == Pending && u.id == t.id;
      var k :| 0 <= k < |turns| && turns[k] == u;
      SameId(turns, k);
    }
  }

  /** Text is passed on exactly for the active turn and exactly until it is cancelled. */
  lemma {:induction false} TextIsEmittedExactly(actions: seq<Action>, id: TurnId, text: string)
    requires LegalRun(START, actions)
    ensures
      var w := Run(START, actions);
      EmitDelta(w.loop, id, text).events
      == w.loop.events + if ActiveId(w.Turns()) == Some(id) && id !in w.doomed then [DeltaEvent(id, text)] else []
  {
    hide Inv, LegalRun, Run, EmitDelta;
    Reached(actions);
    TextIsEmittedExactlyAt(Run(START, actions), id, text);
  }

  /**
   * An adopting settle moves the boundary strictly forward, past rounds that were sent
   * verbatim until now and that the summary was made of; any other settle leaves the summary
   * in force, whatever starts next.
   */
  lemma {:induction false} AdoptionAdvances(actions: seq<Action>, id: TurnId, result: TurnResult)
    requires LegalRun(START, actions) && ActiveId(Run(START, actions).Turns()) == Some(id)
    ensures
      var w := Run(START, actions);
      var prior, adopted := w.loop.compaction, SettleTurnOf(w.loop, id, result).compaction;
      if Adopts(w.loop, id, result) then
        && id !in w.doomed && result.kind == Completed && adopted.summary.Some?
        && (prior.summary.Some? ==> prior.coveredThroughSeq < adopted.coveredThroughSeq)
        && w.offered != []
        && CompletedHistory(w.Turns(), prior) == w.offered + CompletedHistory(w.Turns(), adopted)
      else adopted == prior
  {
    hide Inv, LegalRun, Run, SettleTurnOf, CompletedHistory, Adopts;
    var w := Run(START, actions);
    Reached(actions);
    SettleCompaction(w, id, result);
    if Adopts(w.loop, id, result) {
      AdoptionAdvancesAt(w, id, result);
      CancellingIsDoomed(w, id);
    }
  }
}
