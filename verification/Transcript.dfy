// Turns and the in-memory queue: src/conversation/transcript.rs.
module Turns {
  import opened Common

  type TurnId = string

  datatype TurnState = Pending | Active | Settled

  datatype SettledKind = Completed | NeedsConfiguration | Error | Cancelled

  datatype TurnResult = TurnResult(
    kind: SettledKind,
    text: Option<string>,
    finishReason: Option<string>,
    errorKind: Option<string>,
    message: Option<string>)
  {
    /** Built by one of the four constructors below. */
    predicate Canonical() {
      match kind
      case Completed => text.Some? && this == CompletedResult(text.value, finishReason)
      case NeedsConfiguration => message.Some? && this == NeedsConfigurationResult(message.value)
      case Error => errorKind.Some? && message.Some? && this == ErrorResult(errorKind.value, message.value)
      case Cancelled => this == CANCELLED
    }
  }

  function CompletedResult(text: string, finishReason: Option<string>): TurnResult {
    TurnResult(Completed, Some(text), finishReason, None, None)
  }

  function NeedsConfigurationResult(message: string): TurnResult {
    TurnResult(NeedsConfiguration, None, None, Some("needsConfiguration"), Some(message))
  }

  function ErrorResult(kind: string, message: string): TurnResult {
    TurnResult(Error, None, None, Some(kind), Some(message))
  }

  const CANCELLED := TurnResult(Cancelled, None, None, Some("cancelled"), Some("turn cancelled"))

  datatype Turn = Turn(id: TurnId, seqNo: nat, prompt: string, state: TurnState, result: Option<TurnResult>)

  /** Position of the first turn in `state`, or the length when there is none. */
  function FirstIn(turns: seq<Turn>, state: TurnState): (i: nat)
    ensures i <= |turns|
    ensures i < |turns| ==> turns[i].state == state
    ensures forall j | 0 <= j < i :: turns[j].state != state
  {
    if turns == [] || turns[0].state == state then 0 else 1 + FirstIn(turns[1..], state)
  }

  predicate HasActive(turns: seq<Turn>) {
    exists t | t in turns :: t.state == Active
  }

  function ActiveId(turns: seq<Turn>): Option<TurnId> {
    var i := FirstIn(turns, Active);
    if i < |turns| then Some(turns[i].id) else None
  }

  predicate HasUnsettled(turns: seq<Turn>) {
    exists t | t in turns :: t.state != Settled
  }

  function PendingCount(turns: seq<Turn>): nat {
    if turns == [] then 0
    else PendingCount(turns[..|turns| - 1]) + if turns[|turns| - 1].state == Pending then 1 else 0
  }

  /** Which turns a removal keeps. */
  datatype Filter = OtherThan(id: TurnId) | NotPending | NotSettled {
    predicate Keeps(turn: Turn) {
      match this
      case OtherThan(id) => turn.id != id
      case NotPending => turn.state != Pending
      case NotSettled => turn.state != Settled
    }
  }

  function Retain(turns: seq<Turn>, filter: Filter): seq<Turn> {
    if turns == [] then []
    else
      var rest := Retain(turns[..|turns| - 1], filter);
      var last := turns[|turns| - 1];
      if filter.Keeps(last) then rest + [last] else rest
  }

  /** Settles the active turn if it is `id`; otherwise nothing changes. */
  function SettledActive(turns: seq<Turn>, id: TurnId, result: TurnResult): seq<Turn> {
    var i := FirstIn(turns, Active);
    if ActiveId(turns) == Some(id) then turns[i := turns[i].(state := Settled, result := Some(result))]
    else turns
  }

  function FirstPending(turns: seq<Turn>): Option<TurnId> {
    var i := FirstIn(turns, Pending);
    if i < |turns| then Some(turns[i].id) else None
  }

  function ActivatedNext(turns: seq<Turn>): seq<Turn> {
    var i := FirstIn(turns, Pending);
    if i < |turns| then turns[i := turns[i].(state := Active)] else turns
  }

  /** The prompt of the first turn with this id, or nothing. */
  function PromptOf(turns: seq<Turn>, id: TurnId): string {
    if turns == [] then "" else if turns[0].id == id then turns[0].prompt else PromptOf(turns[1..], id)
  }

  /** Replacing a turn moves the count by the difference it makes. */
  lemma {:induction false} PendingCountUpdate(turns: seq<Turn>, i: nat, turn: Turn)
    requires i < |turns|
    ensures PendingCount(turns[i := turn]) + (if turns[i].state == Pending then 1 else 0)
            == PendingCount(turns) + if turn.state == Pending then 1 else 0
  {
    var n := |turns| - 1;
    if i == n {
      assert turns[i := turn][..n] == turns[..n];
    } else {
      assert turns[i := turn][..n] == turns[..n][i := turn];
      PendingCountUpdate(turns[..n], i, turn);
    }
  }

  lemma {:induction false} RetainMembers(turns: seq<Turn>, filter: Filter)
    ensures forall t :: t in Retain(turns, filter) <==> t in turns && filter.Keeps(t)
  {
    if turns != [] {
      var front := turns[..|turns| - 1];
      RetainMembers(front, filter);
      assert turns == front + [turns[|turns| - 1]];
    }
  }

  lemma {:induction false} RetainSnoc(turns: seq<Turn>, turn: Turn, filter: Filter)
    ensures Retain(turns + [turn], filter) == Retain(turns, filter) + if filter.Keeps(turn) then [turn] else []
  {
    assert (turns + [turn])[..|turns|] == turns;
  }

  /** One past the largest sequence number. */
  function NextAfter(turns: seq<Turn>): nat {
    if turns == [] then 0
    else
      var rest := NextAfter(turns[..|turns| - 1]);
      var last := turns[|turns| - 1];
      if rest <= last.seqNo then last.seqNo + 1 else rest
  }

  /** The value of a transcript. */
  datatype Queue = Queue(turns: seq<Turn>, nextSeq: nat)
}

module Transcript {
  import opened Common
  import opened Turns

  /** Ordered in-memory transcript of one backend process. */
  class Transcript {
    var turns: seq<Turn>
    var nextSeq: nat

    ghost function View(): Queue
      reads this
    {
      Queue(turns, nextSeq)
    }

    constructor ()
      ensures View() == Queue([], 0)
    {
      turns, nextSeq := [], 0;
    }

    method ReplaceWith(restored: seq<Turn>)
      modifies this
      ensures View() == Queue(restored, NextAfter(restored))
    {
      var next := 0;
      for i := 0 to |restored|
        invariant next == NextAfter(restored[..i])
      {
        assert restored[..i + 1][..i] == restored[..i];
        if next <= restored[i].seqNo {
          next := restored[i].seqNo + 1;
        }
      }
      assert restored[..|restored|] == restored;
      nextSeq := next;
      turns := restored;
    }

    method Push(id: TurnId, prompt: string, state: TurnState) returns (seqNo: nat)
      modifies this
      ensures seqNo == old(nextSeq)
      ensures View() == Queue(old(turns) + [Turn(id, seqNo, prompt, state, None)], old(nextSeq) + 1)
    {
      seqNo := nextSeq;
      nextSeq := nextSeq + 1;
      turns := turns + [Turn(id, seqNo, prompt, state, None)];
    }

    method FindFirst(state: TurnState) returns (i: nat)
      ensures i == FirstIn(turns, state)
    {
      i := 0;
      while i < |turns| && turns[i].state != state
        invariant i <= |turns|
        invariant forall j | 0 <= j < i :: turns[j].state != state
      {
        i := i + 1;
      }
    }

    method ActiveTurn() returns (id: Option<TurnId>)
      ensures id == ActiveId(turns)
      ensures id.Some? <==> HasActive(turns)
    {
      var i := FindFirst(Active);
      id := if i < |turns| then Some(turns[i].id) else None;
      assert i < |turns| ==> turns[i] in turns;
    }

    method SettleActive(id: TurnId, result: TurnResult) returns (settled: bool)
      modifies this
      ensures settled <==> ActiveId(old(turns)) == Some(id)
      ensures View() == old(View()).(turns := SettledActive(old(turns), id, result))
    {
      var i := FindFirst(Active);
      if i == |turns| || turns[i].id != id {
        return false;
      }
      turns := turns[i := turns[i].(state := Settled, result := Some(result))];
      return true;
    }

    method ActivateNextPending() returns (id: Option<TurnId>)
      modifies this
      ensures id == FirstPending(old(turns))
      ensures View() == old(View()).(turns := ActivatedNext(old(turns)))
    {
      var i := FindFirst(Pending);
      if i == |turns| {
        return None;
      }
      turns := turns[i := turns[i].(state := Active)];
      return Some(turns[i].id);
    }

    /** `retain`, for each of the three removals the coordinator uses. */
    method Remove(filter: Filter)
      modifies this
      ensures View() == old(View()).(turns := Retain(old(turns), filter))
    {
      var kept: seq<Turn> := [];
      for i := 0 to |turns|
        invariant turns == old(turns)
        invariant kept == Retain(turns[..i], filter)
      {
        assert turns[..i + 1][..i] == turns[..i];
        if filter.Keeps(turns[i]) {
          kept := kept + [turns[i]];
        }
      }
      assert turns[..|turns|] == turns;
      turns := kept;
    }
  }
}
