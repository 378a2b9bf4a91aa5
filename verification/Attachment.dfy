// How the live transcript and the log of the attached session agree.
module Attachment {
  import opened Common
  import opened Request
  import opened Turns
  import opened SessionLog
  import opened Replay
  import opened QueueShape
  import opened LogInvariant

  ghost predicate Absent(turns: seq<Turn>, id: TurnId) {
    forall t | t in turns :: t.id != id
  }

  /** An open turn of the attached session: the log has it, still open. */
  ghost predicate Owned(folded: seq<Turn>, sessions: map<TurnId, SessionId>, session: SessionId, turn: Turn) {
    && turn.id in sessions && sessions[turn.id] == session
    && turn.(state := Pending) in folded
  }

  /** The active turn of a session that was cleared away: it can only settle cancelled, unlogged. */
  predicate Orphan(sessions: map<TurnId, SessionId>, cancelling: Option<TurnId>, turn: Turn) {
    turn.state == Active && cancelling == Some(turn.id) && turn.id !in sessions
  }

  /** What is left of a cleared session: its abandoned turn, before or after it settled. */
  predicate Leftover(sessions: map<TurnId, SessionId>, cancelling: Option<TurnId>, turn: Turn) {
    if turn.state == Settled then turn.result == Some(CANCELLED) else Orphan(sessions, cancelling, turn)
  }

  ghost predicate Linked(
    folded: seq<Turn>, sessions: map<TurnId, SessionId>, session: SessionId, cancelling: Option<TurnId>, turn: Turn)
  {
    if turn.state == Settled then
      turn in InterruptAll(folded) || (Absent(folded, turn.id) && turn.result == Some(CANCELLED))
    else Owned(folded, sessions, session, turn)
         || (Orphan(sessions, cancelling, turn) && Absent(folded, turn.id))
  }

  /** The live side of the coordinator, as far as replay is concerned. */
  datatype Live = Live(queue: Queue, cancelling: Option<TurnId>, compaction: CompactionState)

  /**
   * Refinement: folding the attached log gives the live compaction and the live completed
   * rounds, and tells for every turn what it would be after a resume.
   */
  ghost predicate Attached(live: Live, disk: Disk) {
    match disk.current
    case None =>
      && live.compaction == NO_COMPACTION
      && CompletedRounds(live.queue.turns) == []
      && forall t | t in live.queue.turns :: Leftover(disk.turnSessions, live.cancelling, t)
    case Some(session) =>
      && session in disk.logs
      && AttachedTo(live, disk.turnSessions, session, Fold(disk.logs[session]))
  }

  ghost predicate AttachedTo(live: Live, sessions: map<TurnId, SessionId>, session: SessionId, folded: Replayed) {
    && live.compaction == folded.compaction
    && CompletedRounds(live.queue.turns) == CompletedRounds(folded.turns)
    && (forall t | t in folded.turns :: t.seqNo < live.queue.nextSeq)
    && forall t | t in live.queue.turns :: Linked(folded.turns, sessions, session, live.cancelling, t)
  }

  // ---- The folded list under the two events that change it ----

  lemma {:induction false} InterruptMembers(folded: seq<Turn>, turn: Turn)
    requires turn in folded
    ensures Interrupted(turn) in InterruptAll(folded)
  {
    var i :| 0 <= i < |folded| && folded[i] == turn;
    assert InterruptAll(folded)[i] == Interrupted(turn);
  }

  lemma {:induction false} InterruptedFrom(folded: seq<Turn>, turn: Turn) returns (i: nat)
    requires turn in InterruptAll(folded)
    ensures i < |folded| && Interrupted(folded[i]) == turn
  {
    i :| 0 <= i < |InterruptAll(folded)| && InterruptAll(folded)[i] == turn;
  }

  lemma {:induction false} LinkedBeforeEnqueue(
    folded: seq<Turn>, sessions: map<TurnId, SessionId>, session: SessionId, cancelling: Option<TurnId>,
    turn: Turn, added: Turn)
    requires Linked(folded, sessions, session, cancelling, turn) && added.id != turn.id
    ensures Linked(folded + [added], sessions[added.id := session], session, cancelling, turn)
  {
    var more := folded + [added];
    assert forall t | t in folded :: t in more;
    if turn.state == Settled && turn in InterruptAll(folded) {
      var i := InterruptedFrom(folded, turn);
      assert more[i] == folded[i];
      InterruptMembers(more, more[i]);
    }
  }

  lemma {:induction false} LinkedBesideSettle(
    folded: seq<Turn>, sessions: map<TurnId, SessionId>, session: SessionId, cancelling: Option<TurnId>,
    later: Option<TurnId>, turn: Turn, id: TurnId, result: TurnResult)
    requires Linked(folded, sessions, session, cancelling, turn) && turn.id != id
    requires cancelling == Some(turn.id) ==> later == cancelling
    ensures Linked(SettleTurn(folded, id, result), sessions - {id}, session, later, turn)
  {
    var after := SettleTurn(folded, id, result);
    if Absent(folded, turn.id) {
      AbsentSettled(folded, turn.id, id, result);
    } else if turn.state == Settled {
      var i := InterruptedFrom(folded, turn);
      assert after[i] == folded[i];
      InterruptMembers(after, after[i]);
    } else {
      var i :| 0 <= i < |folded| && folded[i] == turn.(state := Pending);
      assert after[i] == folded[i];
    }
  }

  lemma {:induction false} AbsentSettled(folded: seq<Turn>, absent: TurnId, id: TurnId, result: TurnResult)
    requires Absent(folded, absent)
    ensures Absent(SettleTurn(folded, id, result), absent)
  {
    var after := SettleTurn(folded, id, result);
    forall t | t in after
      ensures t.id != absent
    {
      var i :| 0 <= i < |after| && after[i] == t;
      assert folded[i] in folded;
    }
  }

  lemma {:induction false} LinkedSettled(
    folded: seq<Turn>, sessions: map<TurnId, SessionId>, session: SessionId, cancelling: Option<TurnId>,
    turn: Turn, result: TurnResult)
    requires Owned(folded, sessions, session, turn)
    ensures Linked(SettleTurn(folded, turn.id, result), sessions - {turn.id}, session, cancelling,
                   turn.(state := Settled, result := Some(result)))
  {
    var after := SettleTurn(folded, turn.id, result);
    var i :| 0 <= i < |folded| && folded[i] == turn.(state := Pending);
    assert after[i] == turn.(state := Settled, result := Some(result));
    InterruptMembers(after, after[i]);
  }

  // ---- Settling ----

  /** Both sides gain the same round, or none. */
  lemma {:induction false} RoundsAgree(turns: seq<Turn>, folded: seq<Turn>, turn: Turn, result: TurnResult)
    requires Ordered(turns) && Increasing(folded) && result.Canonical()
    requires CompletedRounds(turns) == CompletedRounds(folded)
    requires turn in turns && turn.state == Active && turn.(state := Pending) in folded
    ensures CompletedRounds(SettleTurn(turns, turn.id, result)) == CompletedRounds(SettleTurn(folded, turn.id, result))
  {
    var k :| 0 <= k < |turns| && turns[k] == turn;
    var m :| 0 <= m < |folded| && folded[m] == turn.(state := Pending);
    ActiveIsUnique(turns, k);
    if result.kind == Completed {
      RoundsBeforeActive(turns, k);
      YoungestEntry(folded, m);
      RoundsGain(turns, k, result);
      RoundsGain(folded, m, result);
    } else {
      SameIdSameTurn(turns, k);
      SameIdSameTurn(folded, m);
      RoundsUnchanged(turns, turn.id, result);
      RoundsUnchanged(folded, turn.id, result);
    }
  }

  lemma {:induction false} SameIdSameTurn(turns: seq<Turn>, k: nat)
    requires Increasing(turns) && k < |turns|
    ensures forall t | t in turns && t.id == turns[k].id :: t == turns[k]
  {
  }

  /** The settle of the active turn, logged when the attached session owns it. */
  lemma {:induction false} SettleAttached(live: Live, disk: Disk, turn: Turn, result: TurnResult)
    requires Attached(live, disk) && Ordered(live.queue.turns)
    requires disk.current.Some? ==> Increasing(Fold(disk.logs[disk.current.value]).turns)
    requires turn in live.queue.turns && turn.state == Active && turn.result.None? && result.Canonical()
    requires live.cancelling.Some? ==> live.cancelling == Some(turn.id) && result == CANCELLED
    ensures
      var turns := SettleTurn(live.queue.turns, turn.id, result);
      Attached(Live(live.queue.(turns := turns), None, live.compaction), disk.OnSettle(turn.id, result))
  {
    hide CompletedRounds, Fold, InterruptAll, Shaped;
    if disk.current.None? {
      assert Leftover(disk.turnSessions, live.cancelling, turn);
      SettleLeftover(live, disk, turn);
    } else if Owned(Fold(disk.logs[disk.current.value]).turns, disk.turnSessions, disk.current.value, turn) {
      SettleOwned(live, disk, turn, result);
    } else {
      assert Linked(Fold(disk.logs[disk.current.value]).turns, disk.turnSessions, disk.current.value,
                    live.cancelling, turn);
      SettleOrphan(live, disk, turn, result);
    }
  }

  /** Without a session, the abandoned turn was the only open one. */
  lemma {:induction false} SettleLeftover(live: Live, disk: Disk, turn: Turn)
    requires disk.current.None? && Attached(live, disk) && Ordered(live.queue.turns)
    requires turn in live.queue.turns && turn.state == Active
    ensures turn.id !in disk.turnSessions
    ensures
      var turns := SettleTurn(live.queue.turns, turn.id, CANCELLED);
      Attached(Live(live.queue.(turns := turns), None, live.compaction), disk)
  {
    hide Increasing, CompletedRounds;
    var turns, after := live.queue.turns, SettleTurn(live.queue.turns, turn.id, CANCELLED);
    var k :| 0 <= k < |turns| && turns[k] == turn;
    SameIdSameTurn(turns, k);
    RoundsUnchanged(turns, turn.id, CANCELLED);
    forall t | t in after
      ensures Leftover(disk.turnSessions, None, t)
    {
      var i :| 0 <= i < |after| && after[i] == t;
      assert turns[i] in turns;
      assert turns[i].state != Settled ==> turns[i].id == turn.id;
    }
  }

  lemma {:induction false} SettleOwned(live: Live, disk: Disk, turn: Turn, result: TurnResult)
    requires disk.current.Some? && Attached(live, disk) && Ordered(live.queue.turns)
    requires Increasing(Fold(disk.logs[disk.current.value]).turns)
    requires turn in live.queue.turns && turn.state == Active && result.Canonical()
    requires Owned(Fold(disk.logs[disk.current.value]).turns, disk.turnSessions, disk.current.value, turn)
    requires live.cancelling.Some? ==> live.cancelling == Some(turn.id)
    ensures
      var turns := SettleTurn(live.queue.turns, turn.id, result);
      Attached(Live(live.queue.(turns := turns), None, live.compaction), disk.OnSettle(turn.id, result))
  {
    var session := disk.current.value;
    var log := disk.logs[session];
    FoldSnoc(log, SettledEvent(turn.id, result));
    ResultRoundTrip(turn.id, result);
    RoundsAgree(live.queue.turns, Fold(log).turns, turn, result);
    LinksSettled(live, Fold(log).turns, disk.turnSessions, session, turn, result);
    SettledSeqs(Fold(log).turns, turn.id, result, live.queue.nextSeq);
  }

  lemma {:induction false} LinksSettled(
    live: Live, folded: seq<Turn>, sessions: map<TurnId, SessionId>, session: SessionId, turn: Turn, result: TurnResult)
    requires Increasing(live.queue.turns)
    requires forall t | t in live.queue.turns :: Linked(folded, sessions, session, live.cancelling, t)
    requires turn in live.queue.turns && Owned(folded, sessions, session, turn)
    requires live.cancelling.Some? ==> live.cancelling == Some(turn.id)
    ensures forall t | t in SettleTurn(live.queue.turns, turn.id, result) ::
              Linked(SettleTurn(folded, turn.id, result), sessions - {turn.id}, session, None, t)
  {
    var turns, after := live.queue.turns, SettleTurn(live.queue.turns, turn.id, result);
    var k :| 0 <= k < |turns| && turns[k] == turn;
    SameIdSameTurn(turns, k);
    forall t | t in after
      ensures Linked(SettleTurn(folded, turn.id, result), sessions - {turn.id}, session, None, t)
    {
      var i :| 0 <= i < |after| && after[i] == t;
      assert turns[i] in turns;
      if turns[i].id == turn.id {
        LinkedSettled(folded, sessions, session, None, turn, result);
      } else {
        LinkedBesideSettle(folded, sessions, session, live.cancelling, None, turns[i], turn.id, result);
      }
    }
  }

  lemma {:induction false} SettledSeqs(folded: seq<Turn>, id: TurnId, result: TurnResult, bound: nat)
    requires forall t | t in folded :: t.seqNo < bound
    ensures forall t | t in SettleTurn(folded, id, result) :: t.seqNo < bound
  {
    var after := SettleTurn(folded, id, result);
    forall t | t in after
      ensures t.seqNo < bound
    {
      var i :| 0 <= i < |after| && after[i] == t;
      assert folded[i] in folded;
    }
  }

  lemma {:induction false} SettleOrphan(live: Live, disk: Disk, turn: Turn, result: TurnResult)
    requires disk.current.Some? && Attached(live, disk) && Ordered(live.queue.turns)
    requires turn in live.queue.turns && turn.state == Active && result == CANCELLED
    requires turn.id !in disk.turnSessions
    requires Absent(Fold(disk.logs[disk.current.value]).turns, turn.id)
    requires live.cancelling == Some(turn.id)
    ensures
      var turns := SettleTurn(live.queue.turns, turn.id, result);
      Attached(Live(live.queue.(turns := turns), None, live.compaction), disk)
  {
    var session := disk.current.value;
    var turns := live.queue.turns;
    var k :| 0 <= k < |turns| && turns[k] == turn;
    SameIdSameTurn(turns, k);
    RoundsUnchanged(turns, turn.id, result);
    LinksOrphaned(live, Fold(disk.logs[session]).turns, disk.turnSessions, session, turn.id, result);
  }

  lemma {:induction false} LinksOrphaned(
    live: Live, folded: seq<Turn>, sessions: map<TurnId, SessionId>, session: SessionId, id: TurnId, result: TurnResult)
    requires forall t | t in live.queue.turns :: Linked(folded, sessions, session, live.cancelling, t)
    requires Absent(folded, id) && live.cancelling == Some(id) && result == CANCELLED
    ensures forall t | t in SettleTurn(live.queue.turns, id, result) :: Linked(folded, sessions, session, None, t)
  {
    var turns, after := live.queue.turns, SettleTurn(live.queue.turns, id, result);
    forall t | t in after
      ensures Linked(folded, sessions, session, None, t)
    {
      var i :| 0 <= i < |after| && after[i] == t;
      assert turns[i] in turns;
      assert Linked(folded, sessions, session, live.cancelling, turns[i]);
    }
  }

  /** A stopped pending turn leaves the queue and settles cancelled in its log. */
  lemma {:induction false} RemoveAttached(live: Live, disk: Disk, turn: Turn)
    requires Attached(live, disk) && Ordered(live.queue.turns)
    requires disk.current.Some? ==> Increasing(Fold(disk.logs[disk.current.value]).turns)
    requires turn in live.queue.turns && turn.state == Pending && turn.result.None?
    ensures disk.current.Some?
    ensures Owned(Fold(disk.logs[disk.current.value]).turns, disk.turnSessions, disk.current.value, turn)
    ensures
      var turns := Retain(live.queue.turns, OtherThan(turn.id));
      Attached(live.(queue := live.queue.(turns := turns)), disk.OnSettle(turn.id, CANCELLED))
  {
    hide Fold, CompletedRounds, SettleTurn, Retain, ResultOf;
    assert disk.current.Some?;
    var session := disk.current.value;
    var log := disk.logs[session];
    var folded := Fold(log).turns;
    assert Linked(folded, disk.turnSessions, session, live.cancelling, turn);
    FoldSnoc(log, SettledEvent(turn.id, CANCELLED));
    ResultRoundTrip(turn.id, CANCELLED);
    RoundsWithoutPending(live.queue.turns, folded, turn);
    LinksRemoved(live, folded, disk.turnSessions, session, turn.id);
    SettledSeqs(folded, turn.id, CANCELLED, live.queue.nextSeq);
  }

  lemma {:induction false} RoundsWithoutPending(turns: seq<Turn>, folded: seq<Turn>, turn: Turn)
    requires Increasing(turns) && Increasing(folded)
    requires turn in turns && turn in folded && turn.state == Pending
    ensures CompletedRounds(Retain(turns, OtherThan(turn.id))) == CompletedRounds(turns)
    ensures CompletedRounds(SettleTurn(folded, turn.id, CANCELLED)) == CompletedRounds(folded)
  {
    var k :| 0 <= k < |turns| && turns[k] == turn;
    SameIdSameTurn(turns, k);
    RoundsRetained(turns, OtherThan(turn.id));
    var m :| 0 <= m < |folded| && folded[m] == turn;
    SameIdSameTurn(folded, m);
    RoundsUnchanged(folded, turn.id, CANCELLED);
  }

  lemma {:induction false} LinksRemoved(
    live: Live, folded: seq<Turn>, sessions: map<TurnId, SessionId>, session: SessionId, id: TurnId)
    requires forall t | t in live.queue.turns :: Linked(folded, sessions, session, live.cancelling, t)
    ensures forall t | t in Retain(live.queue.turns, OtherThan(id)) ::
              Linked(SettleTurn(folded, id, CANCELLED), sessions - {id}, session, live.cancelling, t)
  {
    RetainMembers(live.queue.turns, OtherThan(id));
    forall t | t in Retain(live.queue.turns, OtherThan(id))
      ensures Linked(SettleTurn(folded, id, CANCELLED), sessions - {id}, session, live.cancelling, t)
    {
      LinkedBesideSettle(folded, sessions, session, live.cancelling, live.cancelling, t, id, CANCELLED);
    }
  }

  // ---- Enqueueing ----

  lemma {:induction false} EnsureAttached(live: Live, disk: Disk, env: Env)
    requires Attached(live, disk) && env.freshSession !in disk.logs
    ensures Attached(live, disk.EnsureSession(env))
  {
    if disk.current.None? && !env.fault.StartAppendFault? && !env.fault.StartRowFault? {
      FoldSnoc([], SessionStarted);
      assert [] + [SessionStarted] == [SessionStarted];
      assert InterruptAll([]) == [];
    }
  }

  /** The log gains an entry of a turn that is not queued, yet or at all. */
  lemma {:induction false} LogEnqueueAttached(live: Live, disk: Disk, turn: Turn)
    requires Attached(live, disk) && disk.current.Some?
    requires forall t | t in live.queue.turns :: t.id != turn.id
    requires turn.seqNo == live.queue.nextSeq && turn.state == Pending && turn.result.None?
    ensures
      var event := TurnEnqueued(turn.id, turn.seqNo, turn.prompt);
      var session := disk.current.value;
      Attached(live.(queue := live.queue.(nextSeq := live.queue.nextSeq + 1)),
               disk.(logs := Appended(disk.logs, session, event),
                      turnSessions := disk.turnSessions[turn.id := session]))
  {
    var session := disk.current.value;
    var log := disk.logs[session];
    FoldSnoc(log, TurnEnqueued(turn.id, turn.seqNo, turn.prompt));
    RoundsSnoc(Fold(log).turns, turn);
    forall t | t in live.queue.turns
      ensures Linked(Fold(log).turns + [turn], disk.turnSessions[turn.id := session], session, live.cancelling, t)
    {
      LinkedBeforeEnqueue(Fold(log).turns, disk.turnSessions, session, live.cancelling, t, turn);
    }
  }

  /** The turn itself joins the queue. */
  lemma {:induction false} PushAttached(live: Live, disk: Disk, turn: Turn)
    requires Attached(live, disk) && disk.current.Some? && turn.state != Settled
    requires turn.id in disk.turnSessions && disk.turnSessions[turn.id] == disk.current.value
    requires turn.(state := Pending) in Fold(disk.logs[disk.current.value]).turns
    ensures Attached(live.(queue := live.queue.(turns := live.queue.turns + [turn])), disk)
  {
    RoundsSnoc(live.queue.turns, turn);
  }

  /** A sequence number is used up without a turn. */
  lemma {:induction false} SkipAttached(live: Live, disk: Disk)
    requires Attached(live, disk)
    ensures Attached(live.(queue := live.queue.(nextSeq := live.queue.nextSeq + 1)), disk)
  {
  }

  // ---- Activation, cancellation, compaction, summaries ----

  lemma {:induction false} ActivateAttached(live: Live, disk: Disk)
    requires Attached(live, disk) && Shaped(live.queue) && FirstPending(live.queue.turns).Some?
    ensures Attached(live.(queue := live.queue.(turns := ActivatedNext(live.queue.turns))), disk)
  {
    var turns, after := live.queue.turns, ActivatedNext(live.queue.turns);
    var i := FirstIn(turns, Pending);
    assert turns[i] in turns;
    RoundsActivated(turns, i);
    assert disk.current.Some?;
    var session := disk.current.value;
    var folded := Fold(disk.logs[session]).turns;
    assert Linked(folded, disk.turnSessions, session, live.cancelling, turns[i]);
    forall t | t in after
      ensures Linked(folded, disk.turnSessions, session, live.cancelling, t)
    {
      var j :| 0 <= j < |after| && after[j] == t;
      assert turns[j] in turns;
      assert Linked(folded, disk.turnSessions, session, live.cancelling, turns[j]);
      assert turns[i].(state := Active).(state := Pending) == turns[i];
    }
  }

  lemma {:induction false} RoundsActivated(turns: seq<Turn>, i: nat)
    requires i < |turns| && turns[i].state == Pending
    ensures CompletedRounds(turns[i := turns[i].(state := Active)]) == CompletedRounds(turns)
  {
    var a, b := turns[..i], turns[i + 1..];
    var active := turns[i].(state := Active);
    assert turns[i := active] == a + [active] + b;
    assert turns == a + [turns[i]] + b;
    RoundsConcat(a + [active], b);
    RoundsConcat(a + [turns[i]], b);
    RoundsSnoc(a, active);
    RoundsSnoc(a, turns[i]);
  }

  /** Marking the active turn as cancelling changes no link. */
  lemma {:induction false} CancelAttached(live: Live, disk: Disk, cancelling: Option<TurnId>)
    requires Attached(live, disk)
    requires live.cancelling.Some? ==> cancelling == live.cancelling
    ensures Attached(live.(cancelling := cancelling), disk)
  {
    if disk.current.Some? {
      var session := disk.current.value;
      forall t | t in live.queue.turns
        ensures Linked(Fold(disk.logs[session]).turns, disk.turnSessions, session, cancelling, t)
      {
        assert Linked(Fold(disk.logs[session]).turns, disk.turnSessions, session, live.cancelling, t);
      }
    }
  }

  lemma {:induction false} CompactionAttached(live: Live, disk: Disk, covered: nat, summary: string)
    requires Attached(live, disk) && disk.current.Some?
    ensures Attached(live.(compaction := CompactionState(Some(summary), covered)),
                     disk.AppendToCurrent(Compacted(covered, summary)))
  {
    FoldSnoc(disk.logs[disk.current.value], Compacted(covered, summary));
  }

  lemma {:induction false} SummaryAttached(live: Live, disk: Disk, summary: string)
    requires Attached(live, disk)
    ensures Attached(live, disk.AppendToCurrent(SummaryGenerated(summary)))
  {
    if disk.current.Some? {
      FoldSnoc(disk.logs[disk.current.value], SummaryGenerated(summary));
    }
  }

  lemma {:induction false} DropPendingAttached(live: Live, disk: Disk)
    requires Attached(live, disk)
    ensures Attached(live.(queue := live.queue.(turns := Retain(live.queue.turns, NotPending))), disk)
  {
    RetainMembers(live.queue.turns, NotPending);
    RoundsRetained(live.queue.turns, NotPending);
  }

  // ---- Clear and resume ----

  /** After a clear nothing is attached, and only a cancelling active turn is left. */
  lemma {:induction false} ClearAttached(live: Live, disk: Disk)
    requires Attached(live, disk) && Ordered(live.queue.turns)
    requires forall t | t in live.queue.turns && t.state == Active :: live.cancelling == Some(t.id)
    ensures
      var turns := Retain(Retain(live.queue.turns, NotPending), NotSettled);
      Attached(Live(live.queue.(turns := turns), live.cancelling, NO_COMPACTION), disk.OnClear(live.queue.turns))
  {
    var turns := Retain(Retain(live.queue.turns, NotPending), NotSettled);
    RetainMembers(live.queue.turns, NotPending);
    RetainMembers(Retain(live.queue.turns, NotPending), NotSettled);
    assert forall i | 0 <= i < |turns| :: turns[i] in turns;
    NoRounds(turns);
    if disk.current.Some? {
      CancelledAreUnlinked(disk, live.queue.turns);
    }
  }

  lemma {:induction false} CancelledAreUnlinked(disk: Disk, turns: seq<Turn>)
    requires disk.current.Some?
    ensures disk.CancelUnsettled(turns).current == disk.current
    ensures disk.CancelUnsettled(turns).turnSessions.Keys <= disk.turnSessions.Keys
    ensures forall t | t in turns && t.state != Settled :: t.id !in disk.CancelUnsettled(turns).turnSessions
  {
    if turns != [] {
      var front, last := turns[..|turns| - 1], turns[|turns| - 1];
      CancelledAreUnlinked(disk, front);
      assert turns == front + [last];
    }
  }

  /** A resumed session is exactly what its log says. */
  lemma {:induction false} ResumeAttached(disk: Disk, session: SessionId, cancelling: Option<TurnId>)
    requires session in disk.logs
    ensures
      var restored := Restored(disk.logs[session]);
      Attached(Live(Queue(restored.turns, NextAfter(restored.turns)), cancelling, restored.compaction),
               disk.Attach(session))
  {
    var folded := Fold(disk.logs[session]).turns;
    RoundsInterrupted(folded);
    RestoredSeqs(folded);
    RestoredSettled(disk.logs[session]);
  }

  lemma {:induction false} RestoredSeqs(folded: seq<Turn>)
    ensures forall t | t in folded :: t.seqNo < NextAfter(InterruptAll(folded))
  {
    NextAfterBounds(InterruptAll(folded));
    forall t | t in folded
      ensures t.seqNo < NextAfter(InterruptAll(folded))
    {
      InterruptMembers(folded, t);
      assert Interrupted(t).seqNo == t.seqNo;
    }
  }

  /** Whatever the log holds, no restored turn is open. */
  lemma {:induction false} RestoredSettled(log: seq<LogEvent>)
    ensures forall t | t in Fold(log).turns :: t.state == if t.result.None? then Pending else Settled
    ensures forall t | t in Restored(log).turns :: t.state == Settled
  {
    if log != [] {
      RestoredSettled(log[..|log| - 1]);
      var before, after := Fold(log[..|log| - 1]).turns, Fold(log).turns;
      forall t | t in after
        ensures t.state == if t.result.None? then Pending else Settled
      {
        var i :| 0 <= i < |after| && after[i] == t;
        assert i < |before| ==> before[i] in before;
      }
    }
    forall t | t in Restored(log).turns
      ensures t.state == Settled
    {
      var i := InterruptedFrom(Fold(log).turns, t);
      assert Fold(log).turns[i] in Fold(log).turns;
    }
  }
}
