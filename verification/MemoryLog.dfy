// The lifecycle log of memory: src/memory/event_log.rs. Events that only matter for crash
// recovery carry no clock reading here.
module MemoryLog {
  import opened Common
  import opened MemoryModel

  datatype MemoryOp = Write | Forget

  datatype InboxStatus = Candidate | ActiveAudit | Approved | Rejected | Stale | Undone | Failed

  datatype InboxProposal = InboxProposal(
    entryId: string,
    status: InboxStatus,
    scope: MemoryScope,
    scopeId: Option<string>,
    targetItemId: Option<string>,
    memoryType: Option<MemoryType>,
    title: Option<string>,
    confidence: Option<real>,
    sourceSessionId: Option<string>,
    sourceTurnStart: Option<nat>,
    sourceTurnEnd: Option<nat>,
    operationId: Option<string>,
    baseHash: Option<string>,
    resultHash: Option<string>,
    reason: Option<string>,
    atMs: int)

  datatype MemoryEvent =
    | OperationStarted(
        operationId: string, itemId: string, scope: MemoryScope, scopeId: Option<string>, op: MemoryOp,
        baseHash: Option<string>, resultHash: Option<string>)
    | OperationApplied(operationId: string)
    | OperationFailed(operationId: string, failure: string)
    | InboxProposed(data: InboxProposal)
    | InboxReviewed(entryId: string, status: InboxStatus, reason: Option<string>, atMs: int)
    | InboxLinked(entryId: string, targetItemId: string, atMs: int)
    | RollbackPoint(
        operationId: string, itemId: string, scope: MemoryScope, scopeId: Option<string>, memoryType: MemoryType,
        title: string, body: string, active: bool)
    | CorrectionRecorded(
        suppressionKey: string, scope: MemoryScope, scopeId: Option<string>, reason: Option<string>, atMs: int)
    | ProposalBody(entryId: string, body: string)
    | CursorAdvanced(sessionId: string, lastExtractedSeq: int, atMs: int)
    | MemoryLoaded(loadReason: string)
    | SensitivePurged(itemId: string)

  /** The intent of an operation, or its end. */
  predicate StartsOp(event: MemoryEvent, operation: string) {
    event.OperationStarted? && event.operationId == operation
  }

  predicate EndsOp(event: MemoryEvent, operation: string) {
    (event.OperationApplied? || event.OperationFailed?) && event.operationId == operation
  }

  /** The latest proposed body recorded for an inbox entry. */
  function LatestBody(log: seq<MemoryEvent>, entryId: string): Option<string> {
    if log == [] then None
    else
      var last := log[|log| - 1];
      if last.ProposalBody? && last.entryId == entryId then Some(last.body)
      else LatestBody(log[..|log| - 1], entryId)
  }

  /** It is the body of the last event for the entry, if there is any. */
  lemma {:induction false} LatestIsLast(log: seq<MemoryEvent>, entryId: string, body: string)
    ensures LatestBody(log, entryId) == Some(body) <==>
            exists i :: 0 <= i < |log| && log[i] == ProposalBody(entryId, body)
                        && forall j | i < j < |log| :: !(log[j].ProposalBody? && log[j].entryId == entryId)
    ensures LatestBody(log, entryId) == None <==>
            forall i | 0 <= i < |log| :: !(log[i].ProposalBody? && log[i].entryId == entryId)
  {
    if log != [] {
      var front, last := log[..|log| - 1], log[|log| - 1];
      LatestIsLast(front, entryId, body);
      assert forall i | 0 <= i < |front| :: front[i] == log[i];
    }
  }

  /** The backward search of the source. */
  method LatestProposalBody(log: seq<MemoryEvent>, entryId: string) returns (body: Option<string>)
    ensures body == LatestBody(log, entryId)
  {
    var i := |log|;
    assert log[..|log|] == log;
    while i > 0
      invariant 0 <= i <= |log|
      invariant LatestBody(log, entryId) == LatestBody(log[..i], entryId)
    {
      i := i - 1;
      assert log[..i + 1][..i] == log[..i];
      if log[i].ProposalBody? && log[i].entryId == entryId {
        return Some(log[i].body);
      }
    }
    body := None;
  }
}
