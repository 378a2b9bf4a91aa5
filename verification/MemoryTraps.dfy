// What a sensitive purge does not reach: redact_purged in src/memory/inbox.rs leaves the
// proposals that led to an item.
module MemoryTraps {
  import opened Common
  import opened MemoryModel
  import opened MemoryLog
  import opened Lifecycle
  import opened Corpus
  import opened Reconcile
  import opened TopicFiles
  import opened Redaction
  import opened MemoryService

  /** Where the proposal of a recorded outcome stands in the log. */
  lemma {:induction false} ProposalStands(
    setup: Setup, before: MemoryState, later: MemoryState, session: string, covered: nat, outcome: ExtractionOutcome,
    call: Call, failure: Option<MemoryError>)
    requires outcome.ActiveUpdate? && !setup.Dropped(outcome) && failure.None?
    requires setup.Activated(setup.Proposed(before, session, covered, outcome, call), later,
                             call.entryId, call, failure)
    ensures |before.log| < |later.log|
    ensures later.log[|before.log|] == InboxProposed(setup.ProposalData(session, covered, outcome, call))
  {
    hide Setup.ProposalOf, Setup.ProposalData, Setup.PriorSnapshot, Setup.WriteEvents, Setup.WriteError, FileOf;
    var middle := setup.Proposed(before, session, covered, outcome, call);
    assert middle.log[|before.log|] == InboxProposed(setup.ProposalData(session, covered, outcome, call));
  }

  lemma {:induction false} RewrittenAt(log: seq<MemoryEvent>, itemId: string, entries: set<string>, i: nat)
    requires i < |log| && log[i].InboxProposed?
    ensures (RedactAll(log, itemId, entries) + [SensitivePurged(itemId)])[i] == log[i]
  {
    assert RedactAll(log, itemId, entries)[i] == RedactPurged(log[i], itemId, entries);
  }

  /**
   * A run of the service: a confident update becomes an item, and the item is purged. File
   * and text are gone, and the title the worker proposed is still in the log and in the
   * inbox, under an entry linked to the item.
   */
  method TitleOutlivesPurge(service: MemoryService, session: string, title: string, body: string, call: Call)
    requires service.Valid() && service.Fresh(call.operation) && call.entryId !in service.store.inbox
    requires ValidId(call.itemId) && !call.fault && service.setup.Refusal(title, body).None?
    modifies service.disk, service.store
    ensures service.Valid() && ItemKey(UserScope, None, call.itemId) !in service.disk.files
    ensures
      && call.entryId in LinkedEntries(service.store.inbox, call.itemId)
      && service.store.inbox[call.entryId].title == Some(title)
      && exists event :: event in service.disk.log && event.InboxProposed?
                         && event.data.entryId == call.entryId && event.data.title == Some(title)
  {
    hide ItemRows, InPlace, Replayed, Tidy, SelfHashed, Format.Faithful, Setup.Activated, Setup.Refusal, ValidId;
    var setup := service.setup;
    var outcome := ActiveUpdate(MemoryProposal(UserScope, Project, title, body, 1.0));
    NotDropped(setup, title, body);
    ghost var before := service.View();
    var recorded := service.RecordExtractionOutcome(session, 0, outcome, call);
    ghost var failure := if recorded.Err? then Some(recorded.error) else None;
    ghost var middle := service.View();
    BecomesItem(setup, before, middle, session, outcome, call, failure);
    ProposalStands(setup, before, middle, session, 0, outcome, call, failure);
    RewrittenAt(middle.log, call.itemId, LinkedEntries(middle.tables.inbox, call.itemId), |before.log|);
    var purged := service.Purge(UserScope, None, call.itemId, false);
    assert service.disk.log[|before.log|] in service.disk.log;
  }

  lemma {:induction false} NotDropped(setup: Setup, title: string, body: string)
    requires setup.Refusal(title, body).None?
    ensures !setup.Dropped(ActiveUpdate(MemoryProposal(UserScope, Project, title, body, 1.0)))
  {
  }

  lemma {:induction false} BecomesItem(
    setup: Setup, before: MemoryState, later: MemoryState, session: string, outcome: ExtractionOutcome, call: Call,
    failure: Option<MemoryError>)
    requires outcome.ActiveUpdate? && !setup.Dropped(outcome) && call.entryId !in before.tables.inbox
    requires setup.format.Faithful() && ValidId(call.itemId) && !call.fault && outcome.proposal.scope == UserScope
    requires setup.Refusal(outcome.proposal.title, outcome.proposal.body).None?
    requires setup.Activated(setup.Proposed(before, session, 0, outcome, call), later, call.entryId, call, failure)
    ensures failure.None? && call.entryId in LinkedEntries(later.tables.inbox, call.itemId)
    ensures later.tables.inbox[call.entryId].title == Some(outcome.proposal.title)
  {
    UpdateBecomesItem(setup, before, later, session, 0, outcome, call, failure);
    KeepsTitle(setup, before, later, session, outcome, call, failure);
  }

  lemma {:induction false} KeepsTitle(
    setup: Setup, before: MemoryState, later: MemoryState, session: string, outcome: ExtractionOutcome, call: Call,
    failure: Option<MemoryError>)
    requires outcome.ActiveUpdate? && !setup.Dropped(outcome) && call.entryId !in before.tables.inbox
    requires setup.Activated(setup.Proposed(before, session, 0, outcome, call), later, call.entryId, call, failure)
    ensures call.entryId in later.tables.inbox
    ensures later.tables.inbox[call.entryId].title == Some(outcome.proposal.title)
  {
    hide Setup.ProposalOf, Setup.PriorSnapshot, Setup.WriteEvents, Setup.WriteError, FileOf;
  }
}
