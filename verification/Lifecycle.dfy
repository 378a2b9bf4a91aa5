// The index tables of memory and how events change them: src/store/memory/lifecycle.rs,
// src/store/memory/items.rs and project_event in src/store/memory/mod.rs.
module Lifecycle {
  import opened Common
  import opened MemoryModel
  import opened MemoryLog

  /** One row of the inbox; the body of a proposal is never in it. */
  datatype InboxRow = InboxRow(
    status: InboxStatus,
    scope: MemoryScope,
    scopeId: Option<string>,
    targetItemId: Option<string>,
    memoryType: Option<MemoryType>,
    title: Option<string>,
    confidence: Option<real>,
    sourceSessionId: Option<string>,
    sourceTurnStart: Option<nat>,
    sourceTurnEnd: Option<nat>,
    operationId: Option<string>,
    baseHash: Option<string>,
    resultHash: Option<string>,
    reason: Option<string>,
    createdAt: int,
    updatedAt: int)

  datatype CursorRow = CursorRow(lastExtractedSeq: int, updatedAt: int)

  datatype CorrectionRow = CorrectionRow(
    scope: MemoryScope, scopeId: Option<string>, reason: Option<string>, createdAt: int)

  /** The three tables that project the event log. */
  datatype Lifecycle = Lifecycle(
    inbox: map<string, InboxRow>,
    cursors: map<string, CursorRow>,
    corrections: map<string, CorrectionRow>)

  const EMPTY := Lifecycle(map[], map[], map[])

  function FromProposal(data: InboxProposal): InboxRow {
    InboxRow(data.status, data.scope, data.scopeId, data.targetItemId, data.memoryType, data.title, data.confidence,
             data.sourceSessionId, data.sourceTurnStart, data.sourceTurnEnd, data.operationId, data.baseHash,
             data.resultHash, data.reason, data.atMs, data.atMs)
  }

  /** A row that is already there keeps where it came from and when it was made. */
  function UpsertInbox(tables: Lifecycle, id: string, row: InboxRow): Lifecycle {
    var kept :=
      if id !in tables.inbox then row
      else row.(scope := tables.inbox[id].scope, scopeId := tables.inbox[id].scopeId,
                sourceSessionId := tables.inbox[id].sourceSessionId,
                sourceTurnStart := tables.inbox[id].sourceTurnStart,
                sourceTurnEnd := tables.inbox[id].sourceTurnEnd,
                createdAt := tables.inbox[id].createdAt);
    tables.(inbox := tables.inbox[id := kept])
  }

  function SetInboxStatus(tables: Lifecycle, id: string, status: InboxStatus, at: int): Lifecycle {
    if id !in tables.inbox then tables
    else tables.(inbox := tables.inbox[id := tables.inbox[id].(status := status, updatedAt := at)])
  }

  function SetInboxTarget(tables: Lifecycle, id: string, target: string, at: int): Lifecycle {
    if id !in tables.inbox then tables
    else tables.(inbox := tables.inbox[id := tables.inbox[id].(targetItemId := Some(target), updatedAt := at)])
  }

  /** Never moves a cursor backward. */
  function UpsertCursor(tables: Lifecycle, session: string, seqNo: int, at: int): Lifecycle {
    var kept := if session in tables.cursors && seqNo < tables.cursors[session].lastExtractedSeq
                then tables.cursors[session].lastExtractedSeq else seqNo;
    tables.(cursors := tables.cursors[session := CursorRow(kept, at)])
  }

  function UpsertCorrection(tables: Lifecycle, key: string, row: CorrectionRow): Lifecycle {
    var kept := if key in tables.corrections then tables.corrections[key].(reason := row.reason) else row;
    tables.(corrections := tables.corrections[key := kept])
  }

  /** What one event does to the tables. */
  function Projected(tables: Lifecycle, event: MemoryEvent): Lifecycle {
    match event
    case InboxProposed(data) => UpsertInbox(tables, data.entryId, FromProposal(data))
    case InboxReviewed(id, status, _, at) => SetInboxStatus(tables, id, status, at)
    case InboxLinked(id, target, at) => SetInboxTarget(tables, id, target, at)
    case CorrectionRecorded(key, scope, scopeId, reason, at) =>
      UpsertCorrection(tables, key, CorrectionRow(scope, scopeId, reason, at))
    case CursorAdvanced(session, seqNo, at) => UpsertCursor(tables, session, seqNo, at)
    case _ => tables
  }

  function ReplayOnto(tables: Lifecycle, log: seq<MemoryEvent>): Lifecycle {
    if log == [] then tables else Projected(ReplayOnto(tables, log[..|log| - 1]), log[|log| - 1])
  }

  /** The tables a log stands for. */
  function Replayed(log: seq<MemoryEvent>): Lifecycle {
    ReplayOnto(EMPTY, log)
  }

  lemma {:induction false} ReplayedSnoc(log: seq<MemoryEvent>, event: MemoryEvent)
    ensures Replayed(log + [event]) == Projected(Replayed(log), event)
  {
    assert (log + [event])[..|log|] == log;
  }

  /** Two events that project alike. */
  predicate SameEffect(a: MemoryEvent, b: MemoryEvent) {
    a == b || (Silent(a) && Silent(b))
  }

  /** Events the tables do not show. */
  predicate Silent(event: MemoryEvent) {
    || event.OperationStarted? || event.OperationApplied? || event.OperationFailed?
    || event.RollbackPoint? || event.ProposalBody? || event.MemoryLoaded? || event.SensitivePurged?
  }

  lemma {:induction false} SameEffectSameTables(a: seq<MemoryEvent>, b: seq<MemoryEvent>)
    requires |a| == |b| && forall i | 0 <= i < |a| :: SameEffect(a[i], b[i])
    ensures Replayed(a) == Replayed(b)
  {
    if a != [] {
      SameEffectSameTables(a[..|a| - 1], b[..|b| - 1]);
    }
  }

  lemma {:induction false} SilentTail(log: seq<MemoryEvent>, more: seq<MemoryEvent>)
    requires forall i | 0 <= i < |more| :: Silent(more[i])
    ensures Replayed(log + more) == Replayed(log)
  {
    if more == [] {
      assert log + more == log;
    } else {
      var n := |more| - 1;
      assert log + more == log + more[..n] + [more[n]];
      SilentTail(log, more[..n]);
      ReplayedSnoc(log + more[..n], more[n]);
    }
  }

  // ---- Cursors ----

  /** The largest sequence number a log advanced the session's cursor to, or none. */
  function MaxAdvance(log: seq<MemoryEvent>, session: string): Option<int> {
    if log == [] then None
    else
      var before := MaxAdvance(log[..|log| - 1], session);
      var last := log[|log| - 1];
      if !last.CursorAdvanced? || last.sessionId != session then before
      else if before.Some? && last.lastExtractedSeq < before.value then before
      else Some(last.lastExtractedSeq)
  }

  /** A replayed cursor is the furthest it was ever advanced to, in whatever order. */
  lemma {:induction false} CursorIsFurthest(log: seq<MemoryEvent>, session: string)
    ensures session in Replayed(log).cursors <==> MaxAdvance(log, session).Some?
    ensures session in Replayed(log).cursors ==>
              Some(Replayed(log).cursors[session].lastExtractedSeq) == MaxAdvance(log, session)
    ensures forall i | 0 <= i < |log| && log[i].CursorAdvanced? && log[i].sessionId == session ::
              && MaxAdvance(log, session).Some?
              && log[i].lastExtractedSeq <= MaxAdvance(log, session).value
  {
    hide UpsertInbox, UpsertCorrection, SetInboxStatus, SetInboxTarget;
    if log != [] {
      CursorIsFurthest(log[..|log| - 1], session);
      OnlyCursors(Replayed(log[..|log| - 1]), log[|log| - 1]);
    }
  }

  lemma {:induction false} OnlyCursors(tables: Lifecycle, event: MemoryEvent)
    ensures !event.CursorAdvanced? ==> Projected(tables, event).cursors == tables.cursors
  {
  }

  // ---- Inbox and corrections ----

  predicate Proposes(event: MemoryEvent, entryId: string) {
    event.InboxProposed? && event.data.entryId == entryId
  }

  predicate Reviews(event: MemoryEvent, entryId: string) {
    event.InboxReviewed? && event.entryId == entryId
  }

  predicate Links(event: MemoryEvent, entryId: string) {
    event.InboxLinked? && event.entryId == entryId
  }

  lemma {:induction false} Stepwise(log: seq<MemoryEvent>)
    requires log != []
    ensures Replayed(log) == Projected(Replayed(log[..|log| - 1]), log[|log| - 1])
    ensures forall j | 0 <= j < |log| - 1 :: log[..|log| - 1][j] == log[j]
  {
  }

  lemma {:induction false} NeverProposed(log: seq<MemoryEvent>, entryId: string)
    requires forall j | 0 <= j < |log| :: !Proposes(log[j], entryId)
    ensures entryId !in Replayed(log).inbox
  {
    if log != [] {
      NeverProposed(log[..|log| - 1], entryId);
    }
  }

  /** Where an entry comes from and when it was made is as it was first proposed. */
  lemma {:induction false} InboxOrigin(log: seq<MemoryEvent>, entryId: string, first: nat)
    requires first < |log| && Proposes(log[first], entryId)
    requires forall j | 0 <= j < first :: !Proposes(log[j], entryId)
    ensures entryId in Replayed(log).inbox
    ensures
      var row, origin := Replayed(log).inbox[entryId], log[first].data;
      && row.scope == origin.scope && row.scopeId == origin.scopeId && row.createdAt == origin.atMs
      && row.sourceSessionId == origin.sourceSessionId
      && row.sourceTurnStart == origin.sourceTurnStart && row.sourceTurnEnd == origin.sourceTurnEnd
  {
    hide Replayed;
    Stepwise(log);
    if first == |log| - 1 {
      NeverProposed(log[..first], entryId);
    } else {
      InboxOrigin(log[..|log| - 1], entryId, first);
    }
  }

  /** Its content is that of the last proposal. */
  lemma {:induction false} InboxContent(log: seq<MemoryEvent>, entryId: string, last: nat)
    requires last < |log| && Proposes(log[last], entryId)
    requires forall j | last < j < |log| :: !Proposes(log[j], entryId)
    ensures entryId in Replayed(log).inbox
    ensures
      var row, content := Replayed(log).inbox[entryId], log[last].data;
      && row.title == content.title && row.memoryType == content.memoryType && row.confidence == content.confidence
      && row.reason == content.reason && row.operationId == content.operationId
      && row.baseHash == content.baseHash && row.resultHash == content.resultHash
  {
    hide Replayed;
    Stepwise(log);
    if last < |log| - 1 {
      InboxContent(log[..|log| - 1], entryId, last);
    }
  }

  /** Its status is the one last proposed or given by a review, whichever is later. */
  lemma {:induction false} InboxStatusIsLast(log: seq<MemoryEvent>, entryId: string, last: nat)
    requires last < |log| && entryId in Replayed(log[..last + 1]).inbox
    requires Proposes(log[last], entryId) || Reviews(log[last], entryId)
    requires forall j | last < j < |log| :: !Proposes(log[j], entryId) && !Reviews(log[j], entryId)
    ensures entryId in Replayed(log).inbox
    ensures Replayed(log).inbox[entryId].status
            == if log[last].InboxProposed? then log[last].data.status else log[last].status
  {
    hide Replayed;
    Stepwise(log);
    assert log[..|log|] == log;
    if last < |log| - 1 {
      assert log[..|log| - 1][..last + 1] == log[..last + 1];
      InboxStatusIsLast(log[..|log| - 1], entryId, last);
    } else if !Proposes(log[last], entryId) {
      NeverMissing(Replayed(log[..last]), log[last], entryId);
    }
  }

  /** It is linked to the item of the last link, or as last proposed. */
  lemma {:induction false} InboxTargetIsLast(log: seq<MemoryEvent>, entryId: string, last: nat)
    requires last < |log| && entryId in Replayed(log[..last + 1]).inbox
    requires Proposes(log[last], entryId) || Links(log[last], entryId)
    requires forall j | last < j < |log| :: !Proposes(log[j], entryId) && !Links(log[j], entryId)
    ensures entryId in Replayed(log).inbox
    ensures Replayed(log).inbox[entryId].targetItemId
            == if log[last].InboxProposed? then log[last].data.targetItemId else Some(log[last].targetItemId)
  {
    hide Replayed;
    Stepwise(log);
    assert log[..|log|] == log;
    if last < |log| - 1 {
      assert log[..|log| - 1][..last + 1] == log[..last + 1];
      InboxTargetIsLast(log[..|log| - 1], entryId, last);
    } else if !Proposes(log[last], entryId) {
      NeverMissing(Replayed(log[..last]), log[last], entryId);
    }
  }

  lemma {:induction false} NeverMissing(tables: Lifecycle, event: MemoryEvent, entryId: string)
    requires entryId in Projected(tables, event).inbox && !Proposes(event, entryId)
    ensures entryId in tables.inbox
  {
  }

  /** A correction keeps the scope and time it was first recorded with, and the last reason. */
  lemma {:induction false} CorrectionIsReplayed(log: seq<MemoryEvent>, event: MemoryEvent)
    requires event.CorrectionRecorded?
    ensures
      var before, after := Replayed(log).corrections, Replayed(log + [event]).corrections;
      && event.suppressionKey in after && after[event.suppressionKey].reason == event.reason
      && (if event.suppressionKey in before then
            && after[event.suppressionKey].scope == before[event.suppressionKey].scope
            && after[event.suppressionKey].scopeId == before[event.suppressionKey].scopeId
            && after[event.suppressionKey].createdAt == before[event.suppressionKey].createdAt
          else
            && after[event.suppressionKey].scope == event.scope && after[event.suppressionKey].scopeId == event.scopeId
            && after[event.suppressionKey].createdAt == event.atMs)
      && forall key | key != event.suppressionKey :: key in after <==> key in before
  {
    ReplayedSnoc(log, event);
  }
}
