// Reading a session back from its log: restore_turns in src/backend/sessions.rs.
module Replay {
  import opened Common
  import opened Request
  import opened Turns
  import opened SessionLog
  import opened Sorting

  datatype Replayed = Replayed(turns: seq<Turn>, compaction: CompactionState)

  function RestoredResult(
    settledKind: string, text: Option<string>, finishReason: Option<string>,
    errorKind: Option<string>, message: Option<string>
  ): TurnResult {
    if settledKind == "completed" then CompletedResult(if text.Some? then text.value else "", finishReason)
    else if settledKind == "needsConfiguration" then
      NeedsConfigurationResult(if message.Some? then message.value else "")
    else if settledKind == "cancelled" then CANCELLED
    else ErrorResult(if errorKind.Some? then errorKind.value else "error",
                     if message.Some? then message.value else "turn failed")
  }

  function ResultOf(event: LogEvent): TurnResult
    requires event.TurnSettled?
  {
    RestoredResult(event.settledKind, event.text, event.finishReason, event.errorKind, event.message)
  }

  /** A result survives the trip through the log exactly when a constructor built it. */
  lemma {:induction false} ResultRoundTrip(id: TurnId, result: TurnResult)
    ensures ResultOf(SettledEvent(id, result)) == result <==> result.Canonical()
  {
    assert "completed"[0] != "needsConfiguration"[0];
    assert "completed"[1] != "cancelled"[1];
    assert "error"[0] != "cancelled"[0] && "error"[0] != "needsConfiguration"[0];
    assert "cancelled"[0] != "needsConfiguration"[0];
  }

  function SettledIf(turn: Turn, id: TurnId, result: TurnResult): Turn {
    if turn.id == id then turn.(state := Settled, result := Some(result)) else turn
  }

  function SettleTurn(turns: seq<Turn>, id: TurnId, result: TurnResult): (r: seq<Turn>)
    ensures |r| == |turns|
    ensures forall i | 0 <= i < |turns| :: r[i] == SettledIf(turns[i], id, result)
  {
    if turns == [] then []
    else SettleTurn(turns[..|turns| - 1], id, result) + [SettledIf(turns[|turns| - 1], id, result)]
  }

  /** The log read event by event, turns kept in the order they were enqueued. */
  function Fold(log: seq<LogEvent>): Replayed {
    if log == [] then Replayed([], NO_COMPACTION)
    else
      var before := Fold(log[..|log| - 1]);
      match log[|log| - 1]
      case TurnEnqueued(id, seqNo, prompt) =>
        before.(turns := before.turns + [Turn(id, seqNo, prompt, Pending, None)])
      case TurnSettled(id, _, _, _, _, _) =>
        before.(turns := SettleTurn(before.turns, id, ResultOf(log[|log| - 1])))
      case Compacted(covered, summary) => before.(compaction := CompactionState(Some(summary), covered))
      case _ => before
  }

  const INTERRUPTED := ErrorResult("interrupted", "turn interrupted before resume")

  /** A turn the log never settled was cut off. */
  function Interrupted(turn: Turn): Turn {
    if turn.result.None? then turn.(state := Settled, result := Some(INTERRUPTED)) else turn
  }

  function InterruptAll(turns: seq<Turn>): (r: seq<Turn>)
    ensures |r| == |turns|
    ensures forall i | 0 <= i < |turns| :: r[i] == Interrupted(turns[i])
  {
    if turns == [] then []
    else InterruptAll(turns[..|turns| - 1]) + [Interrupted(turns[|turns| - 1])]
  }

  /** What resuming a session gives. */
  function Restored(log: seq<LogEvent>): Replayed {
    var folded := Fold(log);
    folded.(turns := InterruptAll(folded.turns))
  }

  /** Distinct ids and increasing sequence numbers. */
  ghost predicate Increasing(turns: seq<Turn>) {
    forall i, j | 0 <= i < j < |turns| :: turns[i].seqNo < turns[j].seqNo && turns[i].id != turns[j].id
  }

  // ---- Completed rounds ----

  predicate IsRound(turn: Turn) {
    turn.state == Settled && turn.result.Some? && turn.result.value.kind == Completed && turn.result.value.text.Some?
  }

  function RoundOf(turn: Turn): HistoryRound
    requires IsRound(turn)
  {
    HistoryRound(turn.seqNo, turn.prompt, turn.result.value.text.value)
  }

  /** Prompt and reply of every completed turn, in order. */
  function CompletedRounds(turns: seq<Turn>): seq<HistoryRound> {
    if turns == [] then []
    else
      var rest := CompletedRounds(turns[..|turns| - 1]);
      var last := turns[|turns| - 1];
      if IsRound(last) then rest + [RoundOf(last)] else rest
  }

  lemma {:induction false} RoundsSnoc(turns: seq<Turn>, turn: Turn)
    ensures CompletedRounds(turns + [turn])
            == CompletedRounds(turns) + if IsRound(turn) then [RoundOf(turn)] else []
  {
    assert (turns + [turn])[..|turns|] == turns;
  }

  lemma {:induction false} RoundIn(turns: seq<Turn>, turn: Turn)
    requires turn in turns && IsRound(turn)
    ensures RoundOf(turn) in CompletedRounds(turns)
  {
    var front, last := turns[..|turns| - 1], turns[|turns| - 1];
    assert turns == front + [last];
    if turn in front {
      RoundIn(front, turn);
    }
  }

  lemma {:induction false} RoundFrom(turns: seq<Turn>, round: HistoryRound) returns (i: nat)
    requires round in CompletedRounds(turns)
    ensures i < |turns| && IsRound(turns[i]) && RoundOf(turns[i]) == round
  {
    var front := turns[..|turns| - 1];
    if round in CompletedRounds(front) {
      i := RoundFrom(front, round);
    } else {
      i := |turns| - 1;
    }
  }

  lemma {:induction false} RoundsAscending(turns: seq<Turn>)
    requires Increasing(turns)
    ensures Ascending(CompletedRounds(turns))
  {
    if turns != [] {
      var front := turns[..|turns| - 1];
      RoundsAscending(front);
      forall r | r in CompletedRounds(front)
        ensures r.seqNo < turns[|turns| - 1].seqNo
      {
        var i := RoundFrom(front, r);
        assert turns[i] == front[i];
      }
    }
  }

  /** Removing turns that are not rounds loses no round. */
  lemma {:induction false} RoundsRetained(turns: seq<Turn>, filter: Filter)
    requires forall t | t in turns && IsRound(t) :: filter.Keeps(t)
    ensures CompletedRounds(Retain(turns, filter)) == CompletedRounds(turns)
  {
    if turns != [] {
      var front, last := turns[..|turns| - 1], turns[|turns| - 1];
      assert forall t | t in front :: t in turns;
      RoundsRetained(front, filter);
      if filter.Keeps(last) {
        RoundsSnoc(Retain(front, filter), last);
      }
    }
  }

  /** Settling an open turn without a reply adds no round. */
  lemma {:induction false} RoundsUnchanged(turns: seq<Turn>, id: TurnId, result: TurnResult)
    requires forall t | t in turns && t.id == id :: !IsRound(t)
    requires result.kind != Completed
    ensures CompletedRounds(SettleTurn(turns, id, result)) == CompletedRounds(turns)
  {
    if turns != [] {
      var front, last := turns[..|turns| - 1], turns[|turns| - 1];
      assert forall t | t in front :: t in turns;
      RoundsUnchanged(front, id, result);
      assert last in turns;
      RoundsSnoc(SettleTurn(front, id, result), SettledIf(last, id, result));
    }
  }

  lemma {:induction false} RoundsConcat(a: seq<Turn>, b: seq<Turn>)
    ensures CompletedRounds(a + b) == CompletedRounds(a) + CompletedRounds(b)
  {
    if b == [] {
      assert a + b == a;
    } else {
      var n := |b| - 1;
      assert a + b == a + b[..n] + [b[n]];
      RoundsConcat(a, b[..n]);
      RoundsSnoc(a + b[..n], b[n]);
    }
  }

  lemma {:induction false} NoRounds(turns: seq<Turn>)
    requires forall i | 0 <= i < |turns| :: !IsRound(turns[i])
    ensures CompletedRounds(turns) == []
  {
    if turns != [] {
      NoRounds(turns[..|turns| - 1]);
    }
  }

  /** The rounds around one turn that no round follows. */
  lemma {:induction false} RoundsAround(turns: seq<Turn>, k: nat, turn: Turn)
    requires k < |turns|
    requires forall i | k < i < |turns| :: !IsRound(turns[i])
    ensures CompletedRounds(turns[k := turn])
            == CompletedRounds(turns[..k]) + if IsRound(turn) then [RoundOf(turn)] else []
  {
    var a, b := turns[..k], turns[k + 1..];
    assert turns[k := turn] == a + [turn] + b;
    NoRounds(b);
    RoundsConcat(a + [turn], b);
    RoundsSnoc(a, turn);
  }

  /** A completed turn with no round behind it adds its round at the end. */
  lemma {:induction false} RoundsGain(turns: seq<Turn>, k: nat, result: TurnResult)
    requires Increasing(turns)
    requires k < |turns| && !IsRound(turns[k])
    requires result.kind == Completed && result.text.Some?
    requires forall i | k < i < |turns| :: !IsRound(turns[i])
    ensures CompletedRounds(SettleTurn(turns, turns[k].id, result))
            == CompletedRounds(turns) + [HistoryRound(turns[k].seqNo, turns[k].prompt, result.text.value)]
  {
    var settled := turns[k].(state := Settled, result := Some(result));
    assert SettleTurn(turns, turns[k].id, result) == turns[k := settled];
    RoundsAround(turns, k, settled);
    assert turns[k := turns[k]] == turns;
    RoundsAround(turns, k, turns[k]);
  }

  lemma {:induction false} RoundsInterrupted(turns: seq<Turn>)
    ensures CompletedRounds(InterruptAll(turns)) == CompletedRounds(turns)
  {
    if turns != [] {
      var front, last := turns[..|turns| - 1], turns[|turns| - 1];
      RoundsInterrupted(front);
      RoundsSnoc(InterruptAll(front), Interrupted(last));
    }
  }

  // ---- The map-and-sort form of the source ----

  /** The hash map the source fills; a repeated id replaces the earlier turn. */
  function FoldMap(log: seq<LogEvent>): (byId: map<TurnId, Turn>)
    ensures KeyedById(byId)
  {
    if log == [] then map[]
    else
      var before := FoldMap(log[..|log| - 1]);
      match log[|log| - 1]
      case TurnEnqueued(id, seqNo, prompt) => before[id := Turn(id, seqNo, prompt, Pending, None)]
      case TurnSettled(id, _, _, _, _, _) =>
        if id in before then before[id := SettledIf(before[id], id, ResultOf(log[|log| - 1]))] else before
      case _ => before
  }

  ghost predicate SortedBySeq(turns: seq<Turn>) {
    forall i, j | 0 <= i < j < |turns| :: turns[i].seqNo <= turns[j].seqNo
  }

  ghost predicate DistinctIds(turns: seq<Turn>) {
    forall i, j | 0 <= i < j < |turns| :: turns[i].id != turns[j].id
  }

  /**
   * The loop over the parsed log, the interruption of open turns in the map's arbitrary
   * order, and the sort. For a log with distinct ids and increasing sequence numbers the
   * result is the fold in enqueue order.
   */
  method RestoreTurns(log: seq<LogEvent>) returns (turns: seq<Turn>, compaction: CompactionState)
    ensures compaction == Fold(log).compaction
    ensures SortedBySeq(turns) && DistinctIds(turns) && |turns| == |FoldMap(log)|
    ensures forall t :: t in turns <==> t.id in FoldMap(log) && t == Interrupted(FoldMap(log)[t.id])
    ensures Increasing(Fold(log).turns) ==> Restored(log) == Replayed(turns, compaction)
  {
    var byId: map<TurnId, Turn> := map[];
    compaction := NO_COMPACTION;
    for i := 0 to |log|
      invariant byId == FoldMap(log[..i]) && compaction == Fold(log[..i]).compaction
    {
      assert log[..i + 1][..i] == log[..i];
      match log[i] {
        case TurnEnqueued(id, seqNo, prompt) =>
          byId := byId[id := Turn(id, seqNo, prompt, Pending, None)];
        case TurnSettled(id, settledKind, text, finishReason, errorKind, message) =>
          if id in byId {
            byId := byId[id := byId[id].(
              state := Settled,
              result := Some(RestoredResult(settledKind, text, finishReason, errorKind, message)))];
          }
        case Compacted(covered, summary) =>
          compaction := CompactionState(Some(summary), covered);
        case _ =>
      }
    }
    assert log[..|log|] == log;
    turns := SortValues(byId);
    if Increasing(Fold(log).turns) {
      MapHoldsFold(log);
      SortIsEnqueueOrder(byId, Fold(log).turns, turns);
    }
  }

  ghost predicate KeyedById(byId: map<TurnId, Turn>) {
    forall id | id in byId :: byId[id].id == id
  }

  /** The turns of the map in some order, open ones interrupted, and the sort. */
  method SortValues(byId: map<TurnId, Turn>) returns (turns: seq<Turn>)
    requires KeyedById(byId)
    ensures SortedBySeq(turns) && DistinctIds(turns) && |turns| == |byId|
    ensures forall t :: t in turns <==> t.id in byId && t == Interrupted(byId[t.id])
  {
    var found: seq<Turn> := [];
    var remaining := byId.Keys;
    while remaining != {}
      invariant remaining <= byId.Keys
      invariant Distinct(found) && |found| + |remaining| == |byId|
      invariant forall t :: t in found <==> t.id in byId && t.id !in remaining && t == Interrupted(byId[t.id])
      decreases remaining
    {
      var id :| id in remaining;
      remaining := remaining - {id};
      found := found + [Interrupted(byId[id])];
    }
    turns := SortByKey(found, (turn: Turn) => turn.seqNo);
    SameMembers(found, turns);
    assert forall i | 0 <= i < |turns| :: turns[i] in turns;
  }

  lemma {:induction false} SameMembers(a: seq<Turn>, b: seq<Turn>)
    requires multiset(a) == multiset(b)
    ensures |a| == |b| && forall t :: t in a <==> t in b
  {
    assert forall t :: t in multiset(a) <==> t in a;
    assert |multiset(a)| == |a| && |multiset(b)| == |b|;
  }

  lemma {:induction false} FoldKeepsIncreasing(log: seq<LogEvent>)
    requires log != [] && Increasing(Fold(log).turns)
    ensures Increasing(Fold(log[..|log| - 1]).turns)
  {
    var before, after := Fold(log[..|log| - 1]).turns, Fold(log).turns;
    forall i, j | 0 <= i < j < |before|
      ensures before[i].seqNo < before[j].seqNo && before[i].id != before[j].id
    {
      assert after[i].seqNo == before[i].seqNo && after[j].seqNo == before[j].seqNo;
      assert after[i].id == before[i].id && after[j].id == before[j].id;
    }
  }

  /** The map holds the turns of the list, under their ids. */
  ghost predicate Holds(byId: map<TurnId, Turn>, turns: seq<Turn>) {
    && (forall i | 0 <= i < |turns| :: turns[i].id in byId && byId[turns[i].id] == turns[i])
    && (forall id | id in byId :: byId[id] in turns)
  }

  /** Without repeated ids the map holds exactly the folded turns. */
  lemma {:induction false} MapHoldsFold(log: seq<LogEvent>)
    requires Increasing(Fold(log).turns)
    ensures Holds(FoldMap(log), Fold(log).turns)
  {
    if log != [] {
      FoldKeepsIncreasing(log);
      MapHoldsFold(log[..|log| - 1]);
      var last := log[|log| - 1];
      var byId, before := FoldMap(log[..|log| - 1]), Fold(log[..|log| - 1]).turns;
      if last.TurnEnqueued? {
        HoldsMore(byId, before, Turn(last.turnId, last.seqNo, last.prompt, Pending, None));
      } else if last.TurnSettled? {
        HoldsSettled(byId, before, last.turnId, ResultOf(last));
      }
    }
  }

  lemma {:induction false} HoldsMore(byId: map<TurnId, Turn>, turns: seq<Turn>, turn: Turn)
    requires Holds(byId, turns) && KeyedById(byId) && Increasing(turns + [turn])
    ensures Holds(byId[turn.id := turn], turns + [turn])
  {
    var more := turns + [turn];
    assert more[|turns|] == turn;
    forall id | id in byId
      ensures id != turn.id && byId[id] in more
    {
      var i :| 0 <= i < |turns| && turns[i] == byId[id];
      assert more[i].id != more[|turns|].id;
    }
  }

  lemma {:induction false} HoldsSettled(byId: map<TurnId, Turn>, turns: seq<Turn>, id: TurnId, result: TurnResult)
    requires Holds(byId, turns) && KeyedById(byId)
    ensures
      var settled := if id in byId then byId[id := SettledIf(byId[id], id, result)] else byId;
      Holds(settled, SettleTurn(turns, id, result))
  {
    var settled := if id in byId then byId[id := SettledIf(byId[id], id, result)] else byId;
    var after := SettleTurn(turns, id, result);
    forall k | k in settled
      ensures settled[k] in after
    {
      var i :| 0 <= i < |turns| && turns[i] == byId[k];
      assert after[i] == settled[k];
    }
  }

  lemma {:induction false} SortIsEnqueueOrder(byId: map<TurnId, Turn>, folded: seq<Turn>, turns: seq<Turn>)
    requires Increasing(folded) && Holds(byId, folded) && KeyedById(byId)
    requires SortedBySeq(turns) && DistinctIds(turns)
    requires forall t :: t in turns <==> t.id in byId && t == Interrupted(byId[t.id])
    ensures turns == InterruptAll(folded)
  {
    ValuesInOrder(byId, folded, turns);
    InterruptedIncreasing(folded);
    SameSetSameOrder(turns, InterruptAll(folded));
  }

  lemma {:induction false} InterruptedIncreasing(turns: seq<Turn>)
    requires Increasing(turns)
    ensures Increasing(InterruptAll(turns))
  {
  }

  lemma {:induction false} ValuesInOrder(byId: map<TurnId, Turn>, folded: seq<Turn>, turns: seq<Turn>)
    requires Holds(byId, folded) && KeyedById(byId)
    requires forall t :: t in turns <==> t.id in byId && t == Interrupted(byId[t.id])
    ensures AllIn(turns, InterruptAll(folded)) && AllIn(InterruptAll(folded), turns)
  {
    var expected := InterruptAll(folded);
    forall i | 0 <= i < |turns|
      ensures turns[i] in expected
    {
      assert turns[i] in turns;
      var k :| 0 <= k < |folded| && folded[k] == byId[turns[i].id];
      assert expected[k] == turns[i];
    }
    forall i | 0 <= i < |expected|
      ensures expected[i] in turns
    {
      assert expected[i] == Interrupted(folded[i]);
    }
  }

  /** Two orders of the same turns agree when one is strictly increasing. */
  lemma {:induction false} SameSetSameOrder(a: seq<Turn>, b: seq<Turn>)
    requires SortedBySeq(a) && DistinctIds(a) && Increasing(b)
    requires AllIn(a, b) && AllIn(b, a)
    ensures a == b
  {
    if a == [] || b == [] {
      SomethingToBeIn(a, b);
      SomethingToBeIn(b, a);
    } else {
      var x, y := a[..|a| - 1], b[..|b| - 1];
      LastAgrees(a, b);
      DropLast(a, b);
      assert DistinctIds(b);
      DropLast(b, a);
      SameSetSameOrder(x, y);
      assert a == x + [a[|a| - 1]] && b == y + [b[|b| - 1]];
    }
  }

  ghost predicate AllIn(a: seq<Turn>, b: seq<Turn>) {
    forall i | 0 <= i < |a| :: a[i] in b
  }

  lemma {:induction false} SomethingToBeIn(a: seq<Turn>, b: seq<Turn>)
    ensures AllIn(a, b) && a != [] ==> b != []
  {
    if AllIn(a, b) && a != [] {
      assert a[0] in b;
    }
  }

  lemma {:induction false} LastAgrees(a: seq<Turn>, b: seq<Turn>)
    requires SortedBySeq(a) && Increasing(b) && a != [] && b != []
    requires AllIn(a, b) && AllIn(b, a)
    ensures a[|a| - 1] == b[|b| - 1]
  {
    var m, n := |a| - 1, |b| - 1;
    var i :| 0 <= i <= n && b[i] == a[m];
    var j :| 0 <= j <= m && a[j] == b[n];
    assert a[j].seqNo <= a[m].seqNo;
  }

  lemma {:induction false} DropLast(a: seq<Turn>, b: seq<Turn>)
    requires DistinctIds(a) && a != [] && b != []
    requires AllIn(a, b) && a[|a| - 1] == b[|b| - 1]
    ensures AllIn(a[..|a| - 1], b[..|b| - 1])
  {
    var m, n := |a| - 1, |b| - 1;
    forall k | 0 <= k < m
      ensures a[k] in b[..n]
    {
      var p :| 0 <= p <= n && b[p] == a[k];
      assert a[k].id != a[m].id;
      assert b[..n][p] == a[k];
    }
  }
}
