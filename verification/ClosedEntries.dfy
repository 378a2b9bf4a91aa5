// What logs say of a turn that is no longer open: one command neither adds, removes nor
// changes an entry of it.
module ClosedEntries {
  import opened Common
  import opened Request
  import opened Turns
  import opened SessionLog
  import opened Replay
  import opened LoopSpec
  import opened LogInvariant

  /** The turn is settled or not in the queue. */
  ghost predicate Closed(turns: seq<Turn>, id: TurnId) {
    forall t | t in turns && t.id == id :: t.state == Settled
  }

  ghost function Entries(turns: seq<Turn>, id: TurnId): set<Turn> {
    set t | t in turns && t.id == id
  }

  /** What a session's log lists under `id`. */
  ghost function EntriesAt(logs: Logs, session: SessionId, id: TurnId): set<Turn> {
    if session in logs then Entries(Fold(logs[session]).turns, id) else {}
  }

  ghost predicate SameEntries(logs: Logs, later: Logs, id: TurnId) {
    forall session :: EntriesAt(later, session, id) == EntriesAt(logs, session, id)
  }

  /** A closed turn stays closed, and the logs say the same of it as before. */
  ghost predicate Spares(s: Loop, later: Loop, id: TurnId) {
    Closed(s.queue.turns, id) ==> Closed(later.queue.turns, id) && SameEntries(s.disk.logs, later.disk.logs, id)
  }

  lemma {:induction false} SparesTrans(a: Loop, b: Loop, c: Loop, id: TurnId)
    requires Spares(a, b, id) && Spares(b, c, id)
    ensures Spares(a, c, id)
  {
    hide EntriesAt;
  }

  lemma {:induction false} SparesStill(s: Loop, later: Loop, id: TurnId)
    requires later.disk.logs == s.disk.logs && forall t | t in later.queue.turns :: t in s.queue.turns
    ensures Spares(s, later, id)
  {
  }

  // ---- Logs ----

  lemma {:induction false} BesideEnqueue(turns: seq<Turn>, turn: Turn, id: TurnId)
    requires turn.id != id
    ensures Entries(turns + [turn], id) == Entries(turns, id)
  {
    assert forall t :: t in turns + [turn] <==> t in turns || t == turn;
  }

  lemma {:induction false} BesideSettle(turns: seq<Turn>, other: TurnId, result: TurnResult, id: TurnId)
    requires other != id
    ensures Entries(SettleTurn(turns, other, result), id) == Entries(turns, id)
  {
    var after := SettleTurn(turns, other, result);
    forall t: Turn | t.id == id
      ensures t in after <==> t in turns
    {
      if t in after {
        var i :| 0 <= i < |after| && after[i] == t;
        assert turns[i] == t;
      }
      if t in turns {
        var i :| 0 <= i < |turns| && turns[i] == t;
        assert after[i] == t;
      }
    }
  }

  lemma {:induction false} EntriesSnoc(log: seq<LogEvent>, event: LogEvent, id: TurnId)
    requires !About(event, id)
    ensures Entries(Fold(log + [event]).turns, id) == Entries(Fold(log).turns, id)
  {
    hide Fold, Entries, ResultOf;
    FoldSnoc(log, event);
    match event
    case TurnEnqueued(other, seqNo, prompt) =>
      BesideEnqueue(Fold(log).turns, Turn(other, seqNo, prompt, Pending, None), id);
    case TurnSettled(other, _, _, _, _, _) => BesideSettle(Fold(log).turns, other, ResultOf(event), id);
    case _ =>
  }

  lemma {:induction false} AppendSpares(logs: Logs, session: SessionId, event: LogEvent, id: TurnId)
    requires !About(event, id)
    ensures SameEntries(logs, Appended(logs, session, event), id)
  {
    EntriesSnoc(if session in logs then logs[session] else [], event, id);
  }

  lemma {:induction false} EnqueueSpares(disk: Disk, other: TurnId, seqNo: nat, prompt: string, env: Env, id: TurnId)
    requires other != id
    ensures SameEntries(disk.logs, disk.OnEnqueue(other, seqNo, prompt, env).logs, id)
  {
    hide EntriesAt, Appended;
    var started := disk.EnsureSession(env);
    AppendSpares(disk.logs, env.freshSession, SessionStarted, id);
    if started.current.Some? {
      AppendSpares(started.logs, started.current.value, TurnEnqueued(other, seqNo, prompt), id);
    }
  }

  lemma {:induction false} SettleSpares(disk: Disk, other: TurnId, result: TurnResult, id: TurnId)
    requires other != id
    ensures SameEntries(disk.logs, disk.OnSettle(other, result).logs, id)
  {
    if other in disk.turnSessions {
      AppendSpares(disk.logs, disk.turnSessions[other], SettledEvent(other, result), id);
    }
  }

  lemma {:induction false} CancelsSpare(disk: Disk, turns: seq<Turn>, id: TurnId)
    requires disk.current.Some? && Closed(turns, id)
    ensures disk.CancelUnsettled(turns).current == disk.current
    ensures SameEntries(disk.logs, disk.CancelUnsettled(turns).logs, id)
  {
    hide EntriesAt, Appended, SettledEvent;
    if turns != [] {
      var front, last := turns[..|turns| - 1], turns[|turns| - 1];
      assert turns == front + [last] && last in turns;
      CancelsSpare(disk, front, id);
      if last.state != Settled {
        NotAbout(last.id, id);
        AppendSpares(disk.CancelUnsettled(front).logs, disk.current.value, SettledEvent(last.id, CANCELLED), id);
      }
    }
  }

  lemma {:induction false} NotAbout(other: TurnId, id: TurnId)
    ensures About(SettledEvent(other, CANCELLED), id) <==> other == id
  {
  }

  lemma {:induction false} NoteSpares(disk: Disk, event: LogEvent, id: TurnId)
    requires event.Compacted? || event.SummaryGenerated?
    ensures SameEntries(disk.logs, disk.AppendToCurrent(event).logs, id)
  {
    if disk.current.Some? {
      AppendSpares(disk.logs, disk.current.value, event, id);
    }
  }

  // ---- Commands ----

  lemma {:induction false} SettleOneSpares(s: Loop, active: TurnId, result: TurnResult, id: TurnId)
    requires ActiveId(s.queue.turns) == Some(active)
    ensures Spares(s, SettleOne(s, active, result), id)
  {
    hide Disk.OnSettle, EntriesAt, CompletedHistory;
    var turns, i := s.queue.turns, FirstIn(s.queue.turns, Active);
    var forced := ForcedResult(s, active, result);
    assert turns[i] in turns;
    SettleOneKeepsPending(s, active, result);
    if Closed(turns, id) {
      var taken := TakeCompaction(s.WithTurns(SettledActive(turns, active, forced)), active, result);
      TakeSpares(s.WithTurns(SettledActive(turns, active, forced)), active, result, id);
      SettleSpares(taken.disk, active, forced, id);
      StaysClosed(turns, i, turns[i].(state := Settled, result := Some(forced)), id);
      SettleOneLogs(s, active, result);
    }
  }

  lemma {:induction false} TakeSpares(s: Loop, active: TurnId, result: TurnResult, id: TurnId)
    ensures SameEntries(s.disk.logs, TakeCompaction(s, active, result).disk.logs, id)
  {
    hide Disk.AppendToCurrent, EntriesAt, ForcedResult;
    if Adopts(s, active, result) && s.pendingCompaction.value.1.summary.Some? {
      var state := s.pendingCompaction.value.1;
      NoteSpares(s.disk, Compacted(state.coveredThroughSeq, state.summary.value), id);
    }
  }

  lemma {:induction false} SettleOneLogs(s: Loop, active: TurnId, result: TurnResult)
    ensures
      var forced := ForcedResult(s, active, result);
      var taken := TakeCompaction(s.WithTurns(SettledActive(s.queue.turns, active, forced)), active, result);
      SettleOne(s, active, result).disk == taken.disk.OnSettle(active, forced)
  {
    hide Disk.OnSettle, TakeCompaction, CompletedHistory, SettledActive;
  }

  lemma {:induction false} StaysClosed(turns: seq<Turn>, i: nat, turn: Turn, id: TurnId)
    requires i < |turns| && Closed(turns, id) && (turn.id == id ==> turn.state == Settled)
    ensures Closed(turns[i := turn], id)
  {
  }

  lemma {:induction false} ActivateSpares(s: Loop, id: TurnId)
    requires FirstPending(s.queue.turns).Some?
    ensures Spares(s, Activate(s), id)
  {
    var turns, i := s.queue.turns, FirstIn(s.queue.turns, Pending);
    assert turns[i] in turns;
    if Closed(turns, id) {
      StaysClosed(turns, i, turns[i].(state := Active), id);
    }
  }

  lemma {:induction false} StartSpares(s: Loop, active: TurnId, id: TurnId)
    ensures Spares(s, StartActive(s, active), id)
    decreases PendingCount(s.queue.turns), 3
  {
    hide Spares, CompletedHistory, SettleOne;
    var started := s.(configs := s.configs - {active});
    SparesStill(s, started, id);
    if active in s.configs && s.configs[active].Some? {
      SparesStill(s, StartActive(s, active), id);
    } else {
      SettlingSpares(started, active, NEEDS_CONFIGURATION, id);
      SparesTrans(s, started, SettleTurnOf(started, active, NEEDS_CONFIGURATION), id);
    }
  }

  lemma {:induction false} SettlingSpares(s: Loop, active: TurnId, result: TurnResult, id: TurnId)
    ensures Spares(s, SettleTurnOf(s, active, result), id)
    decreases PendingCount(s.queue.turns), 2
  {
    hide Spares, CompletedHistory, SettleOne;
    if ActiveId(s.queue.turns) == Some(active) {
      SettleOneSpares(s, active, result, id);
      SettleOneKeepsPending(s, active, result);
      AdvanceSpares(SettleOne(s, active, result), id);
      SparesTrans(s, SettleOne(s, active, result), SettleTurnOf(s, active, result), id);
    } else {
      SparesStill(s, s, id);
    }
  }

  lemma {:induction false} AdvanceSpares(s: Loop, id: TurnId)
    ensures Spares(s, Advance(s), id)
    decreases PendingCount(s.queue.turns), 1
  {
    hide Spares, CompletedHistory, SettleOne;
    if s.IsShuttingDown() || FirstPending(s.queue.turns).None? {
      SparesStill(s, s, id);
    } else {
      ActivateSpares(s, id);
      ActivationLowersPending(s);
      StartSpares(Activate(s), FirstPending(s.queue.turns).value, id);
      SparesTrans(s, Activate(s), Advance(s), id);
    }
  }

  lemma {:induction false} SubmitSpares(
    s: Loop, other: TurnId, prompt: string, config: Option<Config>, env: Env, id: TurnId)
    requires other != id
    ensures Spares(s, Submit(s, other, prompt, config, env), id)
  {
    hide Disk.OnEnqueue, EntriesAt, PromptOf;
    var pushed := s.queue.turns + [Turn(other, s.queue.nextSeq, prompt, InitialState(s), None)];
    RetainMembers(pushed, OtherThan(other));
    EnqueueSpares(s.disk, other, s.queue.nextSeq, PromptOf(pushed, other), env, id);
  }

  lemma {:induction false} EnqueueTurnSpares(
    s: Loop, other: TurnId, prompt: string, config: Option<Config>, env: Env, id: TurnId)
    requires other != id
    ensures Spares(s, EnqueueTurn(s, other, prompt, config, env), id)
  {
    hide Spares, Submit, StartActive;
    var submitted := Submit(s, other, prompt, config, env);
    SparesStill(s, s, id);
    SubmitSpares(s, other, prompt, config, env, id);
    StartSpares(submitted, other, id);
    SparesTrans(s, submitted, StartActive(submitted, other), id);
  }

  lemma {:induction false} RemovalsSpare(s: Loop, ids: seq<TurnId>, id: TurnId)
    requires id !in ids
    ensures Spares(s, RemoveEach(s, ids), id)
  {
    hide Disk.OnSettle, EntriesAt;
    if ids == [] {
      SparesStill(s, s, id);
    } else {
      var front, last := RemoveEach(s, ids[..|ids| - 1]), ids[|ids| - 1];
      RemovalsSpare(s, ids[..|ids| - 1], id);
      RetainMembers(front.queue.turns, OtherThan(last));
      SettleSpares(front.disk, last, CANCELLED, id);
    }
  }

  /** A closed turn is not among those a stop removes. */
  lemma {:induction false} ClosedNotPending(turns: seq<Turn>, id: TurnId)
    requires Closed(turns, id)
    ensures id !in PendingIds(turns)
  {
    if turns != [] {
      assert turns == turns[..|turns| - 1] + [turns[|turns| - 1]];
      ClosedNotPending(turns[..|turns| - 1], id);
    }
  }

  lemma {:induction false} StopSpares(s: Loop, id: TurnId)
    ensures Spares(s, StopTurns(s), id)
  {
    hide RemoveEach, SameEntries;
    if Closed(s.queue.turns, id) {
      ClosedNotPending(s.queue.turns, id);
      RemovalsSpare(s, PendingIds(s.queue.turns), id);
    }
  }

  lemma {:induction false} DropSpares(s: Loop, id: TurnId)
    ensures Spares(s, ClearSession(s), id) && Spares(s, ShutDown(s), id)
  {
    hide Disk.CancelUnsettled, EntriesAt;
    var kept := Retain(s.queue.turns, NotPending);
    RetainMembers(s.queue.turns, NotPending);
    RetainMembers(kept, NotSettled);
    if Closed(s.queue.turns, id) && s.disk.current.Some? {
      CancelsSpare(s.disk, s.queue.turns, id);
    }
  }

  lemma {:induction false} SummarySpares(s: Loop, session: SessionId, summary: string, id: TurnId)
    ensures Spares(s, AdoptSummary(s, session, summary), id)
  {
    hide Disk.AppendToCurrent, EntriesAt;
    NoteSpares(s.disk, SummaryGenerated(summary), id);
  }

  /** Every command but the submission of this very turn; a resumed session brings settled turns. */
  lemma {:induction false} HandleSpares(s: Loop, command: Command, env: Env, id: TurnId)
    requires command.Enqueue? ==> command.turnId != id
    requires command.ResumeSession? ==> forall t | t in command.turns :: t.state == Settled
    ensures Spares(s, Handle(s, command, env), id)
  {
    hide SameEntries, EnqueueTurn, SettleTurnOf, StopTurns, ClearSession, ShutDown, AdoptSummary;
    match command
    case Enqueue(other, prompt, config) => EnqueueTurnSpares(s, other, prompt, config, env, id);
    case Settle(other, result) => SettlingSpares(s, other, result, id);
    case Stop => StopSpares(s, id);
    case Clear => DropSpares(s, id);
    case Shutdown => DropSpares(s, id);
    case SetSessionSummary(session, summary) => SummarySpares(s, session, summary, id);
    case ResumeSession(session, turns, compaction) => AttachSpares(s, session, turns, compaction, id);
    case _ => SparesStill(s, Handle(s, command, env), id);
  }

  lemma {:induction false} AttachSpares(
    s: Loop, session: SessionId, turns: seq<Turn>, compaction: CompactionState, id: TurnId)
    requires forall t | t in turns :: t.state == Settled
    ensures Spares(s, LoopSpec.Resume(s, session, turns, compaction), id)
  {
  }

  // ---- A submission that is refused ----

  /** Some log has an entry under `id`. */
  ghost predicate Lists(logs: Logs, id: TurnId) {
    exists session :: EntriesAt(logs, session, id) != {}
  }

  /** Only a failing row update leaves an entry behind, in the session it then belongs to. */
  lemma {:induction false} RefusedEntry(disk: Disk, id: TurnId, seqNo: nat, prompt: string, env: Env)
    requires !disk.EnqueueSucceeds(env) && !Lists(disk.logs, id)
    ensures
      var later := disk.OnEnqueue(id, seqNo, prompt, env);
      if env.fault.EnqueueRowFault? then
        && later.current.Some?
        && EntriesAt(later.logs, later.current.value, id) == {Turn(id, seqNo, prompt, Pending, None)}
        && forall other | other != later.current.value :: EntriesAt(later.logs, other, id) == {}
      else !Lists(later.logs, id)
  {
    hide Fold, EntriesAt, Appended;
    var started := disk.EnsureSession(env);
    AppendSpares(disk.logs, env.freshSession, SessionStarted, id);
    assert forall session :: EntriesAt(disk.logs, session, id) == {};
    if env.fault.EnqueueRowFault? {
      FirstEntry(started.logs, started.current.value, Turn(id, seqNo, prompt, Pending, None));
    }
  }

  lemma {:induction false} FirstEntry(logs: Logs, session: SessionId, turn: Turn)
    requires forall other :: EntriesAt(logs, other, turn.id) == {}
    requires turn.state == Pending && turn.result.None?
    ensures
      var later := Appended(logs, session, TurnEnqueued(turn.id, turn.seqNo, turn.prompt));
      && EntriesAt(later, session, turn.id) == {turn}
      && forall other | other != session :: EntriesAt(later, other, turn.id) == {}
  {
    var log := if session in logs then logs[session] else [];
    assert Entries(Fold(log).turns, turn.id) == {} by {
      assert EntriesAt(logs, session, turn.id) == {};
      assert Fold([]).turns == [];
    }
    FoldSnoc(log, TurnEnqueued(turn.id, turn.seqNo, turn.prompt));
    OnlyEntry(Fold(log).turns, turn);
    forall other | other != session
      ensures EntriesAt(Appended(logs, session, TurnEnqueued(turn.id, turn.seqNo, turn.prompt)), other, turn.id) == {}
    {
      assert EntriesAt(logs, other, turn.id) == {};
    }
  }

  lemma {:induction false} OnlyEntry(turns: seq<Turn>, turn: Turn)
    requires Entries(turns, turn.id) == {}
    ensures Entries(turns + [turn], turn.id) == {turn}
  {
    forall t | t in turns
      ensures t.id != turn.id
    {
      assert t.id == turn.id ==> t in Entries(turns, turn.id);
    }
  }
}

// The same over whole runs.
module ClosedTurns {
  import opened Turns
  import opened SessionLog
  import opened Replay
  import opened LoopSpec
  import opened LogInvariant
  import opened Attachment
  import opened World
  import opened WorldSteps
  import opened Theorems
  import opened ClosedEntries

  lemma {:induction false} StepSpares(w: World, action: Action, id: TurnId)
    requires Inv(w) && Legal(w, action) && id in w.submitted
    ensures Spares(w.loop, Step(w, action).loop, id) && id in Step(w, action).submitted
  {
    hide Handle, Spares, SettledHeads, StoppedBy, World.Doom, WorkerPlan, Restored, HasUnsettled, Core, Running;
    DoomOnlyAdds(w);
    if action.Do? {
      if action.command.ResumeSession? {
        ResumedSettled(w, action.command.session);
      }
      HandleSpares(w.loop, action.command, action.env, id);
    } else {
      SparesStill(w.loop, Step(w, action).loop, id);
    }
  }

  lemma {:induction false} ResumedSettled(w: World, session: SessionId)
    requires Inv(w) && session in w.Logs()
    ensures forall t | t in Restored(w.Logs()[session]).turns :: t.state == Settled
  {
    hide Base, Fold;
    LogKept(w, session);
    RestoredShaped(w.Logs()[session], w.submitted.Keys);
  }

  /** A submitted turn that is closed stays closed, and no log ever says anything else of it. */
  lemma {:induction false} ClosedStays(w: World, actions: seq<Action>, id: TurnId)
    requires Inv(w) && LegalRun(w, actions)
    requires id in w.submitted && Closed(w.Turns(), id)
    ensures Closed(Run(w, actions).Turns(), id) && SameEntries(w.Logs(), Run(w, actions).Logs(), id)
    decreases |actions|
  {
    hide Inv, Legal, Step, Closed, EntriesAt;
    if actions != [] {
      StepSpares(w, actions[0], id);
      StepKeeps(w, actions[0]);
      ClosedStays(Step(w, actions[0]), actions[1..], id);
    }
  }

  /** No log lists a turn that was never submitted. */
  lemma {:induction false} NotListed(w: World, id: TurnId)
    requires Inv(w) && id !in w.submitted
    ensures !Lists(w.Logs(), id)
  {
    hide Base, Fold;
    forall session
      ensures EntriesAt(w.Logs(), session, id) == {}
    {
      if session in w.Logs() {
        LogKept(w, session);
        EntriesMentioned(w.Logs()[session], w.submitted.Keys);
      }
    }
  }

  /** What a log lists under an id it lists once is what a resume brings back. */
  lemma {:induction false} ReadBack(logs: Logs, session: SessionId, turn: Turn)
    requires EntriesAt(logs, session, turn.id) == {turn}
    ensures session in logs
    ensures forall t :: t in Restored(logs[session]).turns && t.id == turn.id <==> t == Interrupted(turn)
  {
    hide Fold;
    var folded := Fold(logs[session]).turns;
    assert forall t | t in folded && t.id == turn.id :: t in Entries(folded, turn.id);
    assert turn in Entries(folded, turn.id);
    InterruptMembers(folded, turn);
    forall t | t in InterruptAll(folded) && t.id == turn.id
      ensures t == Interrupted(turn)
    {
      var i := InterruptedFrom(folded, t);
      assert folded[i] in folded;
    }
  }
}
