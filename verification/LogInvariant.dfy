// What every session log satisfies at every moment, one appended event at a time.
module LogInvariant {
  import opened Common
  import opened Text
  import opened Request
  import opened CompactionPlan
  import opened Turns
  import opened SessionLog
  import opened Replay
  import opened QueueShape

  predicate About(event: LogEvent, id: TurnId) {
    (event.TurnEnqueued? || event.TurnSettled?) && event.turnId == id
  }

  function SettleCount(log: seq<LogEvent>, id: TurnId): nat {
    if log == [] then 0
    else
      var last := log[|log| - 1];
      SettleCount(log[..|log| - 1], id) + if last.TurnSettled? && last.turnId == id then 1 else 0
  }

  /** Every turn the log speaks of was submitted at some time. */
  ghost predicate Mentions(log: seq<LogEvent>, ids: set<TurnId>) {
    forall i | 0 <= i < |log| :: (log[i].TurnEnqueued? || log[i].TurnSettled?) ==> log[i].turnId in ids
  }

  /** One entry a turn in increasing order; at most one settle for a turn enqueued here. */
  ghost predicate Consistent(log: seq<LogEvent>) {
    && Increasing(Fold(log).turns)
    && forall t | t in Fold(log).turns ::
         && t.state != Active && WellStated(t)
         && SettleCount(log, t.id) == if t.state == Settled then 1 else 0
  }

  /** Entries are new and larger when they are made, and open when they are settled. */
  ghost predicate Orderly(log: seq<LogEvent>) {
    log == [] ||
    (var before := Fold(log[..|log| - 1]).turns;
     && Orderly(log[..|log| - 1])
     && match log[|log| - 1]
        case TurnEnqueued(id, seqNo, _) => forall t | t in before :: t.id != id && t.seqNo < seqNo
        case TurnSettled(id, _, _, _, _, _) => forall t | t in before && t.id == id :: t.state == Pending
        case _ => true)
  }

  function Flatten(heads: seq<seq<HistoryRound>>): seq<HistoryRound> {
    if heads == [] then [] else Flatten(heads[..|heads| - 1]) + heads[|heads| - 1]
  }

  function LogRounds(log: seq<LogEvent>): seq<HistoryRound> {
    CompletedRounds(Fold(log).turns)
  }

  /** The rounds still sent verbatim. */
  function LogTail(log: seq<LogEvent>): seq<HistoryRound> {
    Uncovered(LogRounds(log), Fold(log).compaction)
  }

  /**
   * Conservation: what was ever completed is what the summaries folded in, head after
   * head, followed by what is still verbatim. The boundary is never beyond a round.
   */
  ghost predicate Conserved(log: seq<LogEvent>, heads: seq<seq<HistoryRound>>) {
    && LogRounds(log) == Flatten(heads) + LogTail(log)
    && (Fold(log).compaction.summary.Some? <==> heads != [])
    && (heads != [] ==> exists r :: r in LogRounds(log) && r.seqNo == Fold(log).compaction.coveredThroughSeq)
  }

  ghost predicate LogInv(log: seq<LogEvent>, ids: set<TurnId>, heads: seq<seq<HistoryRound>>) {
    Mentions(log, ids) && Orderly(log) && Consistent(log) && Conserved(log, heads)
  }

  /** A log only adds rounds at the end, in increasing order, and never unsettles a turn. */
  ghost predicate Extends(log: seq<LogEvent>, later: seq<LogEvent>) {
    && LogRounds(log) <= LogRounds(later)
    && forall t | t in Fold(log).turns && t.state == Settled :: t in Fold(later).turns
  }

  lemma {:induction false} OrderlySnoc(log: seq<LogEvent>, event: LogEvent)
    requires Orderly(log)
    requires event.TurnEnqueued? ==> forall t | t in Fold(log).turns :: t.id != event.turnId && t.seqNo < event.seqNo
    requires event.TurnSettled? ==> forall t | t in Fold(log).turns && t.id == event.turnId :: t.state == Pending
    ensures Orderly(log + [event])
  {
    assert (log + [event])[..|log|] == log;
  }

  lemma {:induction false} FoldSnoc(log: seq<LogEvent>, event: LogEvent)
    ensures
      var before := Fold(log);
      Fold(log + [event])
      == match event
         case TurnEnqueued(id, seqNo, prompt) =>
           before.(turns := before.turns + [Turn(id, seqNo, prompt, Pending, None)])
         case TurnSettled(id, _, _, _, _, _) => before.(turns := SettleTurn(before.turns, id, ResultOf(event)))
         case Compacted(covered, summary) => before.(compaction := CompactionState(Some(summary), covered))
         case _ => before
    ensures forall id :: SettleCount(log + [event], id)
                         == SettleCount(log, id) + if event.TurnSettled? && event.turnId == id then 1 else 0
  {
    assert (log + [event])[..|log|] == log;
  }

  /** A turn the log never speaks of has no entry and no settle. */
  lemma {:induction false} Unmentioned(log: seq<LogEvent>, id: TurnId)
    requires forall i | 0 <= i < |log| :: !About(log[i], id)
    ensures SettleCount(log, id) == 0
    ensures forall t | t in Fold(log).turns :: t.id != id
  {
    if log != [] {
      Unmentioned(log[..|log| - 1], id);
      assert !About(log[|log| - 1], id);
    }
  }

  lemma {:induction false} EntriesMentioned(log: seq<LogEvent>, ids: set<TurnId>)
    requires Mentions(log, ids)
    ensures forall t | t in Fold(log).turns :: t.id in ids
  {
    forall t | t in Fold(log).turns
      ensures t.id in ids
    {
      if t.id !in ids {
        Unmentioned(log, t.id);
      }
    }
  }

  lemma {:induction false} MentionsMore(log: seq<LogEvent>, event: LogEvent, ids: set<TurnId>, more: set<TurnId>)
    requires Mentions(log, ids) && ids <= more
    requires event.TurnEnqueued? || event.TurnSettled? ==> event.turnId in more
    ensures Mentions(log + [event], more)
  {
  }

  lemma {:induction false} InvMonotone(
      log: seq<LogEvent>, ids: set<TurnId>, more: set<TurnId>, heads: seq<seq<HistoryRound>>)
    requires LogInv(log, ids, heads) && ids <= more
    ensures LogInv(log, more, heads)
  {
  }

  lemma {:induction false} EmptyLogInv(ids: set<TurnId>)
    ensures LogInv([], ids, [])
  {
  }

  lemma {:induction false} AppendNeutral(
      log: seq<LogEvent>, event: LogEvent, ids: set<TurnId>, heads: seq<seq<HistoryRound>>)
    requires LogInv(log, ids, heads)
    requires event.SessionStarted? || event.SummaryGenerated?
    ensures LogInv(log + [event], ids, heads) && Extends(log, log + [event])
    ensures Fold(log + [event]) == Fold(log)
  {
    FoldSnoc(log, event);
    OrderlySnoc(log, event);
    MentionsMore(log, event, ids, ids);
  }

  lemma {:induction false} AppendEnqueued(
    log: seq<LogEvent>, turn: Turn, ids: set<TurnId>, heads: seq<seq<HistoryRound>>)
    requires LogInv(log, ids, heads) && turn.id !in ids
    requires turn.state == Pending && turn.result.None?
    requires forall t | t in Fold(log).turns :: t.seqNo < turn.seqNo
    ensures
      var later := log + [TurnEnqueued(turn.id, turn.seqNo, turn.prompt)];
      && LogInv(later, ids + {turn.id}, heads) && Extends(log, later)
      && Fold(later) == Fold(log).(turns := Fold(log).turns + [turn])
  {
    hide ResultOf, Fold, SettleCount, Conserved, CompletedRounds, Increasing, Orderly;
    var event := TurnEnqueued(turn.id, turn.seqNo, turn.prompt);
    var later := log + [event];
    FoldSnoc(log, event);
    MentionsMore(log, event, ids, ids + {turn.id});
    Unmentioned(log, turn.id);
    OrderlySnoc(log, event);
    EntryAdded(Fold(log).turns, turn);
    ConservedMore(log, later, [], heads);
  }

  lemma {:induction false} EntryAdded(turns: seq<Turn>, turn: Turn)
    requires Increasing(turns) && turn.state == Pending
    requires forall t | t in turns :: t.seqNo < turn.seqNo && t.id != turn.id
    ensures Increasing(turns + [turn])
    ensures CompletedRounds(turns + [turn]) == CompletedRounds(turns) + []
    ensures forall t | t in turns :: t in turns + [turn]
  {
    RoundsSnoc(turns, turn);
    assert forall i | 0 <= i < |turns| :: turns[i] in turns;
  }

  /** The only entries a settle may touch are open ones; a completed turn must be the youngest round. */
  ghost predicate MaySettle(log: seq<LogEvent>, id: TurnId, result: TurnResult) {
    && result.Canonical()
    && forall t | t in Fold(log).turns && t.id == id ::
         && t.state == Pending
         && (result.kind == Completed ==> forall r | r in LogRounds(log) :: r.seqNo < t.seqNo)
  }

  lemma {:induction false} SettledRounds(
      turns: seq<Turn>, id: TurnId, result: TurnResult) returns (more: seq<HistoryRound>)
    requires Increasing(turns) && result.Canonical()
    requires forall t | t in turns && t.id == id :: t.state == Pending
    requires result.kind == Completed ==>
      forall t, r | t in turns && t.id == id && r in CompletedRounds(turns) :: r.seqNo < t.seqNo
    ensures CompletedRounds(SettleTurn(turns, id, result)) == CompletedRounds(turns) + more
    ensures forall r, m | r in CompletedRounds(turns) && m in more :: r.seqNo < m.seqNo
  {
    more := [];
    if result.kind != Completed {
      RoundsUnchanged(turns, id, result);
    } else if k: nat :| k < |turns| && turns[k].id == id {
      assert turns[k] in turns;
      YoungestEntry(turns, k);
      RoundsGain(turns, k, result);
      more := [HistoryRound(turns[k].seqNo, turns[k].prompt, result.text.value)];
    } else {
      assert SettleTurn(turns, id, result) == turns;
    }
  }

  lemma {:induction false} YoungestEntry(turns: seq<Turn>, k: nat)
    requires Increasing(turns) && k < |turns|
    requires forall r | r in CompletedRounds(turns) :: r.seqNo < turns[k].seqNo
    ensures forall i | k < i < |turns| :: !IsRound(turns[i])
  {
    forall i | k < i < |turns|
      ensures !IsRound(turns[i])
    {
      if IsRound(turns[i]) {
        RoundIn(turns, turns[i]);
      }
    }
  }

  lemma {:induction false} FoldSettled(log: seq<LogEvent>, id: TurnId, result: TurnResult)
    requires result.Canonical()
    ensures Fold(log + [SettledEvent(id, result)]) == Fold(log).(turns := SettleTurn(Fold(log).turns, id, result))
    ensures forall other :: SettleCount(log + [SettledEvent(id, result)], other)
                            == SettleCount(log, other) + if other == id then 1 else 0
  {
    ResultRoundTrip(id, result);
    FoldSnoc(log, SettledEvent(id, result));
  }

  lemma {:induction false} SettledConsistent(log: seq<LogEvent>, id: TurnId, result: TurnResult)
    requires Consistent(log) && MaySettle(log, id, result)
    ensures Consistent(log + [SettledEvent(id, result)])
    ensures Fold(log + [SettledEvent(id, result)]) == Fold(log).(turns := SettleTurn(Fold(log).turns, id, result))
    ensures forall t | t in Fold(log).turns && t.state == Settled :: t in Fold(log + [SettledEvent(id, result)]).turns
  {
    hide ResultOf, SettledEvent, Fold, SettleCount, Increasing;
    var event := SettledEvent(id, result);
    FoldSettled(log, id, result);
    var before, after := Fold(log).turns, Fold(log + [event]).turns;
    SettledEntries(before, id, result);
    forall t | t in after
      ensures t.state != Active && WellStated(t)
      ensures SettleCount(log + [event], t.id) == if t.state == Settled then 1 else 0
    {
      var i :| 0 <= i < |after| && after[i] == t;
      assert before[i] in before;
    }
  }

  lemma {:induction false} SettledEntries(turns: seq<Turn>, id: TurnId, result: TurnResult)
    requires Increasing(turns) && forall t | t in turns && t.id == id :: t.state == Pending
    ensures Increasing(SettleTurn(turns, id, result))
    ensures forall t | t in turns && t.state == Settled :: t in SettleTurn(turns, id, result)
  {
    var after := SettleTurn(turns, id, result);
    forall t | t in turns && t.state == Settled
      ensures t in after
    {
      var i :| 0 <= i < |turns| && turns[i] == t;
      assert after[i] == t;
    }
  }

  /** A round beyond every earlier one is beyond the boundary, so it stays verbatim. */
  lemma {:induction false} ConservedMore(
    log: seq<LogEvent>, later: seq<LogEvent>, more: seq<HistoryRound>, heads: seq<seq<HistoryRound>>)
    requires Conserved(log, heads)
    requires LogRounds(later) == LogRounds(log) + more && Fold(later).compaction == Fold(log).compaction
    requires forall r, m | r in LogRounds(log) && m in more :: r.seqNo < m.seqNo
    ensures Conserved(later, heads)
  {
    hide Fold, CompletedRounds, Flatten, Uncovered;
    var compaction := Fold(log).compaction;
    UncoveredConcat(LogRounds(log), more, compaction);
    if heads != [] {
      var r :| r in LogRounds(log) && r.seqNo == compaction.coveredThroughSeq;
      assert r in LogRounds(later);
    }
    UncoveredAll(more, compaction);
    assert Flatten(heads) + LogTail(log) + more == Flatten(heads) + (LogTail(log) + more);
  }

  lemma {:induction false} EntriesIncreasing(log: seq<LogEvent>)
    requires Consistent(log)
    ensures Increasing(Fold(log).turns)
  {
  }

  lemma {:induction false} AppendSettled(
    log: seq<LogEvent>, id: TurnId, result: TurnResult, ids: set<TurnId>, heads: seq<seq<HistoryRound>>)
    requires LogInv(log, ids, heads) && id in ids && MaySettle(log, id, result)
    ensures
      var later := log + [SettledEvent(id, result)];
      && LogInv(later, ids, heads) && Extends(log, later)
      && Fold(later) == Fold(log).(turns := SettleTurn(Fold(log).turns, id, result))
  {
    hide Fold, Orderly, Consistent, Conserved;
    var later := log + [SettledEvent(id, result)];
    OrderlySnoc(log, SettledEvent(id, result));
    EntriesIncreasing(log);
    SettledConsistent(log, id, result);
    var more := SettledRounds(Fold(log).turns, id, result);
    ConservedMore(log, later, more, heads);
    MentionsMore(log, SettledEvent(id, result), ids, ids);
  }

  /** A new boundary at the end of a plan's head moves that head under the summary. */
  lemma {:induction false} ConservedAdoption(
    log: seq<LogEvent>, later: seq<LogEvent>, plan: Plan, tailBudget: nat, summary: string,
    heads: seq<seq<HistoryRound>>)
    requires Conserved(log, heads) && Ascending(LogRounds(log))
    requires PlanFor(LogRounds(log), Fold(log).compaction, tailBudget) == Some(plan)
    requires Fold(later) == Fold(log).(compaction := CompactionState(Some(summary), plan.newCoveredThroughSeq))
    ensures Conserved(later, heads + [plan.head])
    ensures LogTail(log) == plan.head + LogTail(later)
  {
    var rounds, prior := LogRounds(log), Fold(log).compaction;
    AdoptionSplitsHistory(rounds, prior, tailBudget, summary);
    SplitIsOptimal(rounds, prior, tailBudget);
    var youngest := plan.head[|plan.head| - 1];
    assert youngest in plan.head && youngest in rounds;
    FlattenSnoc(heads, plan.head);
    Associative(Flatten(heads), plan.head, LogTail(later));
  }

  lemma {:induction false} FlattenSnoc(heads: seq<seq<HistoryRound>>, head: seq<HistoryRound>)
    ensures Flatten(heads + [head]) == Flatten(heads) + head
  {
    assert (heads + [head])[..|heads|] == heads;
  }

  /** Adopting a plan made over the verbatim rounds. */
  lemma {:induction false} AppendCompacted(
    log: seq<LogEvent>, plan: Plan, tailBudget: nat, summary: string, ids: set<TurnId>, heads: seq<seq<HistoryRound>>)
    requires LogInv(log, ids, heads)
    requires PlanFor(LogTail(log), Fold(log).compaction, tailBudget) == Some(plan)
    ensures
      var later := log + [Compacted(plan.newCoveredThroughSeq, summary)];
      && LogInv(later, ids, heads + [plan.head]) && Extends(log, later)
      && Fold(later) == Fold(log).(compaction := CompactionState(Some(summary), plan.newCoveredThroughSeq))
      && LogTail(log) == plan.head + LogTail(later)
  {
    var event := Compacted(plan.newCoveredThroughSeq, summary);
    hide Orderly, SettleCount;
    OrderlySnoc(log, event);
    FoldSnoc(log, event);
    MentionsMore(log, event, ids, ids);
    RoundsAscending(Fold(log).turns);
    UncoveredIdempotent(LogRounds(log), Fold(log).compaction);
    ConservedAdoption(log, log + [event], plan, tailBudget, summary, heads);
  }

  /** Planning over the uncovered rounds or over all rounds is the same. */
  lemma {:induction false} UncoveredIdempotent(history: seq<HistoryRound>, compaction: CompactionState)
    ensures Uncovered(Uncovered(history, compaction), compaction) == Uncovered(history, compaction)
  {
    UncoveredMembers(history, compaction);
    UncoveredAll(Uncovered(history, compaction), compaction);
  }
}
