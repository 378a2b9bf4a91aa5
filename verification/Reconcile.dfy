// Crash reconciliation: reconcile_pending_operations and operation_landed in
// src/store/memory/mod.rs.
module Reconcile {
  import opened Common
  import opened MemoryModel
  import opened MemoryLog

  datatype ItemKey = ItemKey(scope: MemoryScope, scopeId: Option<string>, id: string)

  /** Metadata of one topic file as the index holds it; where the file is follows from the key. */
  datatype ItemRow = ItemRow(
    memoryType: MemoryType,
    title: string,
    active: bool,
    provenance: MemoryProvenance,
    contentHash: string)

  type ItemTable = map<ItemKey, ItemRow>

  /** One topic file as the scan lists it: what its header says, not where it lies. */
  datatype StoredMemoryItem = StoredMemoryItem(key: ItemKey, row: ItemRow)

  /** The first listed item with this key. */
  function FindItem(items: seq<StoredMemoryItem>, key: ItemKey): Option<ItemRow> {
    if items == [] then None
    else if items[0].key == key then Some(items[0].row)
    else FindItem(items[1..], key)
  }

  /** The table after upserting one listed item after the other; the last one stays. */
  function TableOf(items: seq<StoredMemoryItem>): ItemTable {
    if items == [] then map[]
    else TableOf(items[..|items| - 1])[items[|items| - 1].key := items[|items| - 1].row]
  }

  /** The recorded operation's expected result is what the topic files hold now. */
  predicate Landed(items: seq<StoredMemoryItem>, event: MemoryEvent)
    requires event.OperationStarted?
  {
    var found := FindItem(items, ItemKey(event.scope, event.scopeId, event.itemId));
    match event.op
    case Write => found.Some? && Some(found.value.contentHash) == event.resultHash
    case Forget => found.None? || !found.value.active
  }

  const RECONCILED := "reconciled: on-disk state did not match the recorded intent"

  function Terminal(items: seq<StoredMemoryItem>, event: MemoryEvent): MemoryEvent
    requires event.OperationStarted?
  {
    if Landed(items, event) then OperationApplied(event.operationId)
    else OperationFailed(event.operationId, RECONCILED)
  }

  function EndedOps(log: seq<MemoryEvent>): set<string> {
    set i | 0 <= i < |log| && (log[i].OperationApplied? || log[i].OperationFailed?) :: log[i].operationId
  }

  /** One terminal event for every intent that has none, in order. */
  function Terminals(log: seq<MemoryEvent>, ended: set<string>, items: seq<StoredMemoryItem>): seq<MemoryEvent> {
    if log == [] then []
    else
      var last := log[|log| - 1];
      Terminals(log[..|log| - 1], ended, items)
      + if last.OperationStarted? && last.operationId !in ended then [Terminal(items, last)] else []
  }

  method PendingTerminals(log: seq<MemoryEvent>, items: seq<StoredMemoryItem>) returns (terminals: seq<MemoryEvent>)
    ensures terminals == Terminals(log, EndedOps(log), items)
  {
    var resolved: set<string> := {};
    for i := 0 to |log|
      invariant resolved == EndedOps(log[..i])
    {
      EndedSnoc(log, i);
      if log[i].OperationApplied? || log[i].OperationFailed? {
        resolved := resolved + {log[i].operationId};
      }
    }
    assert log[..|log|] == log;
    terminals := [];
    for i := 0 to |log|
      invariant terminals == Terminals(log[..i], resolved, items)
    {
      assert log[..i + 1][..i] == log[..i];
      if log[i].OperationStarted? && log[i].operationId !in resolved {
        terminals := terminals + [Terminal(items, log[i])];
      }
    }
  }

  lemma {:induction false} EndedSnoc(log: seq<MemoryEvent>, i: nat)
    requires i < |log|
    ensures EndedOps(log[..i + 1])
            == EndedOps(log[..i])
               + if log[i].OperationApplied? || log[i].OperationFailed? then {log[i].operationId} else {}
  {
    var before, after := log[..i], log[..i + 1];
    forall op | op in EndedOps(before)
      ensures op in EndedOps(after)
    {
      var k :| 0 <= k < |before|
               && (before[k].OperationApplied? || before[k].OperationFailed?) && before[k].operationId == op;
      assert after[k] == before[k];
    }
    assert after[i] == log[i];
    forall op | op in EndedOps(after)
      ensures op in EndedOps(before)
              || ((log[i].OperationApplied? || log[i].OperationFailed?) && op == log[i].operationId)
    {
      var k :| 0 <= k < |after|
               && (after[k].OperationApplied? || after[k].OperationFailed?) && after[k].operationId == op;
      assert k < i ==> before[k] == after[k];
    }
  }

  // ---- Every operation ends once ----

  function Starts(log: seq<MemoryEvent>, op: string): nat {
    if log == [] then 0 else Starts(log[..|log| - 1], op) + if StartsOp(log[|log| - 1], op) then 1 else 0
  }

  function Ends(log: seq<MemoryEvent>, op: string): nat {
    if log == [] then 0 else Ends(log[..|log| - 1], op) + if EndsOp(log[|log| - 1], op) then 1 else 0
  }

  /** No operation starts twice or ends more often than it started. */
  ghost predicate Tidy(log: seq<MemoryEvent>) {
    forall op: string :: Ends(log, op) <= Starts(log, op) <= 1
  }

  /** Every operation that started has exactly one end. */
  ghost predicate Settled(log: seq<MemoryEvent>) {
    Tidy(log) && forall op: string :: Ends(log, op) == Starts(log, op)
  }

  lemma {:induction false} CountsConcat(a: seq<MemoryEvent>, b: seq<MemoryEvent>, op: string)
    ensures Starts(a + b, op) == Starts(a, op) + Starts(b, op)
    ensures Ends(a + b, op) == Ends(a, op) + Ends(b, op)
  {
    if b == [] {
      assert a + b == a;
    } else {
      CountsConcat(a, b[..|b| - 1], op);
      assert (a + b)[..|a + b| - 1] == a + b[..|b| - 1];
    }
  }

  lemma {:induction false} CountSingle(event: MemoryEvent, op: string)
    ensures Starts([event], op) == if StartsOp(event, op) then 1 else 0
    ensures Ends([event], op) == if EndsOp(event, op) then 1 else 0
  {
    assert [event][..0] == [];
  }

  predicate Neutral(event: MemoryEvent) {
    !event.OperationStarted? && !event.OperationApplied? && !event.OperationFailed?
  }

  lemma {:induction false} TidyNeutral(log: seq<MemoryEvent>, event: MemoryEvent)
    requires Tidy(log) && Neutral(event)
    ensures Tidy(log + [event])
    ensures forall op :: Starts(log + [event], op) == Starts(log, op) && Ends(log + [event], op) == Ends(log, op)
  {
    assert (log + [event])[..|log|] == log;
  }

  lemma {:induction false} TidyStart(log: seq<MemoryEvent>, event: MemoryEvent)
    requires Tidy(log) && event.OperationStarted? && Starts(log, event.operationId) == 0
    ensures Tidy(log + [event])
    ensures Starts(log + [event], event.operationId) == 1 && Ends(log + [event], event.operationId) == 0
    ensures forall op | op != event.operationId :: Starts(log + [event], op) == Starts(log, op)
  {
    assert (log + [event])[..|log|] == log;
    assert Ends(log, event.operationId) <= Starts(log, event.operationId);
  }

  lemma {:induction false} TidyEnd(log: seq<MemoryEvent>, event: MemoryEvent)
    requires Tidy(log) && (event.OperationApplied? || event.OperationFailed?)
    requires Ends(log, event.operationId) < Starts(log, event.operationId)
    ensures Tidy(log + [event])
    ensures forall op :: Starts(log + [event], op) == Starts(log, op)
  {
    assert (log + [event])[..|log|] == log;
  }

  lemma {:induction false} EndedMeansCounted(log: seq<MemoryEvent>, op: string)
    ensures op in EndedOps(log) <==> Ends(log, op) > 0
  {
    if log == [] {
    } else {
      var n := |log| - 1;
      EndedMeansCounted(log[..n], op);
      EndedSnoc(log, n);
      assert log[..n + 1] == log;
    }
  }

  lemma {:induction false} TerminalCounts(
    log: seq<MemoryEvent>, ended: set<string>, items: seq<StoredMemoryItem>, op: string)
    ensures Starts(Terminals(log, ended, items), op) == 0
    ensures Ends(Terminals(log, ended, items), op) == if op in ended then 0 else Starts(log, op)
  {
    hide Landed, Terminals;
    if log == [] {
      NoTerminals(ended, items);
    } else {
      var front, last := log[..|log| - 1], log[|log| - 1];
      assert log == front + [last];
      TerminalCounts(front, ended, items, op);
      TerminalsSnoc(front, last, ended, items);
      if last.OperationStarted? && last.operationId !in ended {
        CountsConcat(Terminals(front, ended, items), [Terminal(items, last)], op);
        CountSingle(Terminal(items, last), op);
      }
    }
  }

  lemma {:induction false} NoTerminals(ended: set<string>, items: seq<StoredMemoryItem>)
    ensures Terminals([], ended, items) == []
  {
  }

  lemma {:induction false} TerminalsSnoc(
    log: seq<MemoryEvent>, last: MemoryEvent, ended: set<string>, items: seq<StoredMemoryItem>)
    ensures last.OperationStarted? && last.operationId !in ended ==>
              Terminals(log + [last], ended, items) == Terminals(log, ended, items) + [Terminal(items, last)]
    ensures !(last.OperationStarted? && last.operationId !in ended) ==>
              Terminals(log + [last], ended, items) == Terminals(log, ended, items)
  {
    hide Landed;
    assert (log + [last])[..|log|] == log;
    assert Terminals(log, ended, items) + [] == Terminals(log, ended, items);
  }

  /** After reconciliation every started operation has exactly one terminal event. */
  lemma {:induction false} ReconcileSettles(log: seq<MemoryEvent>, items: seq<StoredMemoryItem>)
    requires Tidy(log)
    ensures Settled(log + Terminals(log, EndedOps(log), items))
  {
    var more := Terminals(log, EndedOps(log), items);
    forall op: string
      ensures Ends(log + more, op) == Starts(log + more, op) <= 1
    {
      CountsConcat(log, more, op);
      TerminalCounts(log, EndedOps(log), items, op);
      EndedMeansCounted(log, op);
      assert Ends(log, op) <= Starts(log, op) <= 1;
    }
  }

  /** A settled log has nothing to reconcile, whatever the files hold by then. */
  lemma {:induction false} SettledNeedsNothing(log: seq<MemoryEvent>, items: seq<StoredMemoryItem>)
    requires Settled(log)
    ensures Terminals(log, EndedOps(log), items) == []
  {
    forall i | 0 <= i < |log| && log[i].OperationStarted?
      ensures log[i].operationId in EndedOps(log)
    {
      StartCounted(log, i);
      EndedMeansCounted(log, log[i].operationId);
    }
    NoneTerminal(log, EndedOps(log), items);
  }

  lemma {:induction false} NoneTerminal(log: seq<MemoryEvent>, ended: set<string>, items: seq<StoredMemoryItem>)
    requires forall i | 0 <= i < |log| && log[i].OperationStarted? :: log[i].operationId in ended
    ensures Terminals(log, ended, items) == []
  {
    if log != [] {
      NoneTerminal(log[..|log| - 1], ended, items);
    }
  }

  lemma {:induction false} StartCounted(log: seq<MemoryEvent>, i: nat)
    requires i < |log| && log[i].OperationStarted?
    ensures Starts(log, log[i].operationId) > 0
  {
    if i < |log| - 1 {
      StartCounted(log[..|log| - 1], i);
    }
  }

  /** The terminal added for an operation is Applied exactly when the files hold its result. */
  lemma {:induction false} AppliedExactlyWhenLanded(log: seq<MemoryEvent>, items: seq<StoredMemoryItem>, i: nat)
    requires Tidy(log) && i < |log| && log[i].OperationStarted? && Ends(log, log[i].operationId) == 0
    ensures
      var added := Terminals(log, EndedOps(log), items);
      && (OperationApplied(log[i].operationId) in added <==> Landed(items, log[i]))
      && (OperationFailed(log[i].operationId, RECONCILED) in added <==> !Landed(items, log[i]))
  {
    EndedMeansCounted(log, log[i].operationId);
    OwnTerminal(log, EndedOps(log), items, i);
    assert Starts(log, log[i].operationId) <= 1;
    OneTerminal(log, EndedOps(log), items, log[i]);
  }

  lemma {:induction false} OwnTerminal(log: seq<MemoryEvent>, ended: set<string>, items: seq<StoredMemoryItem>, i: nat)
    requires i < |log| && log[i].OperationStarted? && log[i].operationId !in ended
    ensures Terminal(items, log[i]) in Terminals(log, ended, items)
  {
    if i < |log| - 1 {
      OwnTerminal(log[..|log| - 1], ended, items, i);
    }
  }

  /** An operation started once has no second terminal. */
  lemma {:induction false} OneTerminal(
    log: seq<MemoryEvent>, ended: set<string>, items: seq<StoredMemoryItem>, start: MemoryEvent)
    requires start.OperationStarted? && start in log && Starts(log, start.operationId) <= 1
    ensures forall t | t in Terminals(log, ended, items) && EndsOp(t, start.operationId) :: t == Terminal(items, start)
  {
    var n := |log| - 1;
    var front, last := log[..n], log[n];
    assert log == front + [last];
    if last == start {
      NotStarted(front, ended, items, start.operationId);
    } else {
      OneTerminal(front, ended, items, start);
      var i :| 0 <= i < n && front[i] == start;
      StartCounted(front, i);
    }
  }

  lemma {:induction false} NotStarted(
    log: seq<MemoryEvent>, ended: set<string>, items: seq<StoredMemoryItem>, op: string)
    requires Starts(log, op) == 0
    ensures forall t | t in Terminals(log, ended, items) :: !EndsOp(t, op)
  {
    if log != [] {
      NotStarted(log[..|log| - 1], ended, items, op);
    }
  }
}
