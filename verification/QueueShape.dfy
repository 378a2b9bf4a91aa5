// The shape every reachable queue has, and what keeps it.
module QueueShape {
  import opened Common
  import opened Request
  import opened Turns
  import opened Replay
  import opened LoopSpec

  /** Earlier and later turn: increasing sequence numbers; settled*, active?, pending*. */
  predicate Before(a: Turn, b: Turn) {
    a.seqNo < b.seqNo && a.id != b.id && (a.state == Settled || b.state == Pending)
  }

  ghost predicate Ordered(turns: seq<Turn>) {
    forall i, j | 0 <= i < j < |turns| :: Before(turns[i], turns[j])
  }

  /** A turn has a result exactly when it is settled, and a constructor built it. */
  predicate WellStated(turn: Turn) {
    && (turn.state == Settled <==> turn.result.Some?)
    && (turn.result.Some? ==> turn.result.value.Canonical())
  }

  ghost predicate Shaped(queue: Queue) {
    && Ordered(queue.turns)
    && (forall t | t in queue.turns :: t.seqNo < queue.nextSeq && WellStated(t))
  }

  lemma {:induction false} OrderedIncreasing(turns: seq<Turn>)
    requires Ordered(turns)
    ensures Increasing(turns)
  {
  }

  /** In a shaped queue the active turn is where the first active one is, and nowhere else. */
  lemma {:induction false} ActiveIsUnique(turns: seq<Turn>, i: nat)
    requires Ordered(turns) && i < |turns| && turns[i].state == Active
    ensures FirstIn(turns, Active) == i && ActiveId(turns) == Some(turns[i].id)
    ensures forall t | t in turns && t.state == Active :: t == turns[i]
    ensures forall j | 0 <= j < i :: turns[j].state == Settled
    ensures forall j | i < j < |turns| :: turns[j].state == Pending
  {
    var k := FirstIn(turns, Active);
    assert k == i by {
      assert Before(turns[k], turns[i]) || k == i;
    }
    assert forall j | 0 <= j < i :: Before(turns[j], turns[i]);
    assert forall j | i < j < |turns| :: Before(turns[i], turns[j]);
  }

  lemma {:induction false} NoActive(turns: seq<Turn>)
    ensures ActiveId(turns).None? <==> !HasActive(turns)
    ensures ActiveId(turns).None? <==> forall i | 0 <= i < |turns| :: turns[i].state != Active
  {
    var i := FirstIn(turns, Active);
    if i < |turns| {
      assert turns[i] in turns;
    }
  }

  lemma {:induction false} PushShaped(queue: Queue, turn: Turn)
    requires Shaped(queue)
    requires turn.seqNo == queue.nextSeq && turn.result.None? && turn.state != Settled
    requires forall t | t in queue.turns :: t.id != turn.id
    requires turn.state == Active ==> forall t | t in queue.turns :: t.state == Settled
    ensures Shaped(Queue(queue.turns + [turn], queue.nextSeq + 1))
  {
    assert forall i | 0 <= i < |queue.turns| :: queue.turns[i] in queue.turns;
  }

  lemma {:induction false} RetainOrdered(turns: seq<Turn>, filter: Filter)
    requires Ordered(turns)
    ensures Ordered(Retain(turns, filter))
  {
    if turns != [] {
      var n := |turns| - 1;
      RetainOrdered(turns[..n], filter);
      RetainMembers(turns[..n], filter);
      var kept := Retain(turns[..n], filter);
      forall i | 0 <= i < |kept|
        ensures Before(kept[i], turns[n])
      {
        assert kept[i] in turns[..n];
      }
    }
  }

  lemma {:induction false} RetainShaped(queue: Queue, filter: Filter)
    requires Shaped(queue)
    ensures Shaped(queue.(turns := Retain(queue.turns, filter)))
  {
    RetainOrdered(queue.turns, filter);
    RetainMembers(queue.turns, filter);
  }

  /** Settling by position and settling by id agree in a shaped queue. */
  lemma {:induction false} SettledActiveIsSettleTurn(turns: seq<Turn>, id: TurnId, result: TurnResult)
    requires Ordered(turns) && ActiveId(turns) == Some(id)
    ensures SettledActive(turns, id, result) == SettleTurn(turns, id, result)
  {
    var i := FirstIn(turns, Active);
    forall j | 0 <= j < |turns|
      ensures SettledActive(turns, id, result)[j] == SettleTurn(turns, id, result)[j]
    {
      if j < i {
        assert Before(turns[j], turns[i]);
      } else if i < j {
        assert Before(turns[i], turns[j]);
      }
    }
  }

  lemma {:induction false} SettleShaped(queue: Queue, id: TurnId, result: TurnResult)
    requires Shaped(queue) && ActiveId(queue.turns) == Some(id) && result.Canonical()
    ensures Shaped(queue.(turns := SettledActive(queue.turns, id, result)))
    ensures !HasActive(SettledActive(queue.turns, id, result))
  {
    var i := FirstIn(queue.turns, Active);
    ActiveIsUnique(queue.turns, i);
    var after := SettledActive(queue.turns, id, result);
    forall t | t in after
      ensures t.seqNo < queue.nextSeq && WellStated(t) && t.state != Active
    {
      var j :| 0 <= j < |after| && after[j] == t;
      assert queue.turns[j] in queue.turns;
    }
    forall j, k | 0 <= j < k < |after|
      ensures Before(after[j], after[k])
    {
      assert Before(queue.turns[j], queue.turns[k]);
    }
  }

  lemma {:induction false} ActivateShaped(queue: Queue)
    requires Shaped(queue) && !HasActive(queue.turns) && FirstPending(queue.turns).Some?
    ensures Shaped(queue.(turns := ActivatedNext(queue.turns)))
    ensures ActiveId(ActivatedNext(queue.turns)) == FirstPending(queue.turns)
  {
    var i := FirstIn(queue.turns, Pending);
    var after := ActivatedNext(queue.turns);
    forall t | t in after
      ensures t.seqNo < queue.nextSeq && WellStated(t)
    {
      var j :| 0 <= j < |after| && after[j] == t;
      assert queue.turns[j] in queue.turns;
    }
    forall j | 0 <= j < i
      ensures queue.turns[j].state == Settled
    {
      assert queue.turns[j] in queue.turns;
    }
    forall j, k | 0 <= j < k < |after|
      ensures Before(after[j], after[k])
    {
      assert Before(queue.turns[j], queue.turns[k]);
    }
    ActiveIsUnique(after, i);
  }

  /** A resumed session is a shaped queue without open turns. */
  lemma {:induction false} ResumeShaped(turns: seq<Turn>)
    requires Increasing(turns)
    requires forall t | t in turns :: t.state == Settled && WellStated(t)
    ensures Shaped(Queue(turns, NextAfter(turns)))
  {
    assert forall i | 0 <= i < |turns| :: turns[i] in turns;
    NextAfterBounds(turns);
  }

  lemma {:induction false} NextAfterBounds(turns: seq<Turn>)
    ensures forall t | t in turns :: t.seqNo < NextAfter(turns)
    ensures turns != [] ==> exists t :: t in turns && t.seqNo + 1 == NextAfter(turns)
  {
    if turns != [] {
      var front, last := turns[..|turns| - 1], turns[|turns| - 1];
      NextAfterBounds(front);
      assert turns == front + [last];
      assert last in turns;
      if front != [] {
        var t :| t in front && t.seqNo + 1 == NextAfter(front);
        assert t in turns;
      }
    }
  }

  /** What a turn is handed is the uncovered part of the completed rounds. */
  lemma {:induction false} HistoryIsUncovered(turns: seq<Turn>, compaction: CompactionState)
    ensures CompletedHistory(turns, compaction) == Uncovered(CompletedRounds(turns), compaction)
  {
    if turns != [] {
      var front, last := turns[..|turns| - 1], turns[|turns| - 1];
      HistoryIsUncovered(front, compaction);
      if IsRound(last) {
        assert CompletedRounds(turns)[..|CompletedRounds(turns)| - 1] == CompletedRounds(front);
      }
    }
  }

  /** Every completed round of a shaped queue is older than its active turn. */
  lemma {:induction false} RoundsBeforeActive(turns: seq<Turn>, i: nat)
    requires Ordered(turns) && i < |turns| && turns[i].state == Active
    ensures forall r | r in CompletedRounds(turns) :: r.seqNo < turns[i].seqNo
  {
    ActiveIsUnique(turns, i);
    forall r | r in CompletedRounds(turns)
      ensures r.seqNo < turns[i].seqNo
    {
      var k := RoundFrom(turns, r);
      assert k < i && Before(turns[k], turns[i]);
    }
  }
}
