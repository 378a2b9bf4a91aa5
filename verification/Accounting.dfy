// Where every submitted turn is: queued, ended by one event, dropped, or lost with a process.
module Accounting {
  import opened Common
  import opened Turns
  import opened Replay
  import opened QueueShape
  import opened LoopSpec

  /** The turns events have ended, in order. */
  function Ended(events: seq<ConversationEvent>): seq<TurnId> {
    if events == [] then []
    else
      var last := events[|events| - 1];
      Ended(events[..|events| - 1])
      + if last.SettledTurn? || last.TurnRemoved? then [last.turnId] else []
  }

  ghost function Open(turns: seq<Turn>): set<TurnId> {
    set t | t in turns && t.state != Settled :: t.id
  }

  ghost function PendingSet(turns: seq<Turn>): set<TurnId> {
    set t | t in turns && t.state == Pending :: t.id
  }

  ghost function ToSet(ids: seq<TurnId>): set<TurnId> {
    set id | id in ids
  }

  ghost predicate NoRepeats(ids: seq<TurnId>) {
    forall i, j | 0 <= i < j < |ids| :: ids[i] != ids[j]
  }

  /** Every submitted turn is in exactly one of four places, and none ended twice. */
  ghost predicate Accounted(
    open: set<TurnId>, ended: seq<TurnId>, dropped: set<TurnId>, lost: set<TurnId>, submitted: set<TurnId>)
  {
    && NoRepeats(ended)
    && open !! ToSet(ended) !! dropped !! lost
    && open + ToSet(ended) + dropped + lost == submitted
  }

  lemma {:induction false} EndedSnoc(events: seq<ConversationEvent>, event: ConversationEvent)
    ensures event.SettledTurn? || event.TurnRemoved? ==> Ended(events + [event]) == Ended(events) + [event.turnId]
    ensures !event.SettledTurn? && !event.TurnRemoved? ==> Ended(events + [event]) == Ended(events)
  {
    assert (events + [event])[..|events|] == events;
  }

  /** An open turn that gets its terminal event. */
  lemma {:induction false} AccountedEnd(
    open: set<TurnId>, ended: seq<TurnId>, dropped: set<TurnId>, lost: set<TurnId>, submitted: set<TurnId>, id: TurnId)
    requires Accounted(open, ended, dropped, lost, submitted) && id in open
    ensures Accounted(open - {id}, ended + [id], dropped, lost, submitted)
  {
    assert ToSet(ended + [id]) == ToSet(ended) + {id};
    forall i | 0 <= i < |ended|
      ensures ended[i] != id
    {
      assert ended[i] in ToSet(ended);
    }
  }

  lemma {:induction false} AccountedSubmit(
    open: set<TurnId>, ended: seq<TurnId>, dropped: set<TurnId>, lost: set<TurnId>, submitted: set<TurnId>, id: TurnId)
    requires Accounted(open, ended, dropped, lost, submitted) && id !in submitted
    ensures Accounted(open + {id}, ended, dropped, lost, submitted + {id})
  {
    assert id !in ToSet(ended);
  }

  lemma {:induction false} AccountedDrop(
    open: set<TurnId>, ended: seq<TurnId>, dropped: set<TurnId>, lost: set<TurnId>,
    submitted: set<TurnId>, some: set<TurnId>)
    requires Accounted(open, ended, dropped, lost, submitted) && some <= open
    ensures Accounted(open - some, ended, dropped + some, lost, submitted)
    ensures Accounted(open - some, ended, dropped, lost + some, submitted)
  {
  }

  lemma {:induction false} OpenPush(turns: seq<Turn>, turn: Turn)
    requires turn.state != Settled
    ensures Open(turns + [turn]) == Open(turns) + {turn.id}
  {
    var all := turns + [turn];
    assert turn in all;
    assert forall t | t in turns :: t in all;
  }

  lemma {:induction false} OpenSettle(turns: seq<Turn>, id: TurnId, result: TurnResult)
    requires Ordered(turns) && ActiveId(turns) == Some(id)
    ensures Open(SettledActive(turns, id, result)) == Open(turns) - {id}
    ensures id in Open(turns)
  {
    SettledActiveIsSettleTurn(turns, id, result);
    var after := SettleTurn(turns, id, result);
    var k := FirstIn(turns, Active);
    assert turns[k] in turns;
    forall x
      ensures x in Open(after) <==> x in Open(turns) - {id}
    {
      if x in Open(after) {
        var i :| 0 <= i < |after| && after[i].state != Settled && after[i].id == x;
        assert turns[i] in turns;
      }
      if x in Open(turns) - {id} {
        var i :| 0 <= i < |turns| && turns[i].state != Settled && turns[i].id == x;
        assert after[i] == turns[i] && after[i] in after;
      }
    }
  }

  lemma {:induction false} OpenActivate(turns: seq<Turn>)
    ensures Open(ActivatedNext(turns)) == Open(turns)
  {
    var after := ActivatedNext(turns);
    forall x
      ensures x in Open(after) <==> x in Open(turns)
    {
      if x in Open(after) {
        var i :| 0 <= i < |after| && after[i].state != Settled && after[i].id == x;
        assert turns[i] in turns;
      }
      if x in Open(turns) {
        var i :| 0 <= i < |turns| && turns[i].state != Settled && turns[i].id == x;
        assert after[i] in after;
      }
    }
  }

  lemma {:induction false} OpenWithout(turns: seq<Turn>, id: TurnId)
    ensures Open(Retain(turns, OtherThan(id))) == Open(turns) - {id}
  {
    RetainMembers(turns, OtherThan(id));
  }

  lemma {:induction false} OpenNotSettled(turns: seq<Turn>)
    ensures Open(Retain(turns, NotSettled)) == Open(turns)
  {
    RetainMembers(turns, NotSettled);
  }

  lemma {:induction false} OpenNotPending(turns: seq<Turn>)
    requires Ordered(turns)
    ensures Open(Retain(turns, NotPending)) == Open(turns) - PendingSet(turns)
    ensures PendingSet(turns) <= Open(turns)
  {
    RetainMembers(turns, NotPending);
    var kept := Retain(turns, NotPending);
    forall x | x in Open(kept)
      ensures x in Open(turns) - PendingSet(turns)
    {
      var i :| 0 <= i < |turns| && turns[i].state == Active && turns[i].id == x;
      forall j | 0 <= j < |turns| && turns[j].state == Pending
        ensures turns[j].id != x
      {
        assert Before(turns[i], turns[j]) || Before(turns[j], turns[i]);
      }
    }
  }
}
