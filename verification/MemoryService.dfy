// The memory service: src/memory/index.rs and src/memory/inbox.rs. Every operation writes
// the truth, files and log, and updates the index beside it; the index always equals the
// rebuild. Fresh ids, the clock and failing writes come in as parameters.
module MemoryService {
  import opened Common
  import opened Text
  import opened MemoryModel
  import opened MemoryLog
  import opened Lifecycle
  import opened Corpus
  import opened Reconcile
  import opened TopicFiles
  import opened MemoryStore
  import opened Redaction
  import opened Utf8Text
  import Eligible

  const MAX_TITLE_BYTES := 400
  const MAX_BODY_BYTES := 32 * 1024

  /** Length in UTF-8. */
  function ByteLength(text: string): nat {
    if text == "" then 0
    else
      var code := text[|text| - 1] as int;
      ByteLength(text[..|text| - 1])
      + if code < 0x80 then 1 else if code < 0x800 then 2 else if code < 0x1_0000 then 3 else 4
  }

  /** Files and log on disk, and the tables beside them. */
  datatype MemoryState = MemoryState(files: Files, log: seq<MemoryEvent>, tables: Lifecycle)

  datatype InboxAction = Approve | Reject | MarkStale

  function StatusFor(action: InboxAction): InboxStatus {
    match action
    case Approve => Approved
    case Reject => Rejected
    case MarkStale => Stale
  }

  datatype MemoryProposal = MemoryProposal(
    scope: MemoryScope, memoryType: MemoryType, title: string, body: string, confidence: real)

  datatype ExtractionOutcome =
    | NoOp
    | CandidateOutcome(proposal: MemoryProposal)
    | ActiveUpdate(proposal: MemoryProposal)
    | BlockedOutcome
    | FailedOutcome(reason: string)

  /** What one call gets from its surroundings: new ids, the clock, and whether the file write fails. */
  datatype Call = Call(operation: string, itemId: string, entryId: string, now: int, fault: bool)

  /** Fixed settings: renderings and hash, the secret scan, the suppression key, and the workspace. */
  datatype Setup = Setup(
    format: Format,
    blocked: string -> bool,
    suppressionKey: (MemoryScope, Option<string>, Option<MemoryType>, string) -> string,
    repoScopeId: Option<string>,
    sessionId: Option<string>,
    known: set<(MemoryScope, string)>)
  {
    function Resolve(scope: MemoryScope, scopeId: Option<string>): Result<Option<string>, MemoryError> {
      if scope == UserScope then Ok(None)
      else if scopeId.Some? then
        (if (scope, scopeId.value) in known then Ok(scopeId) else Err(ScopeAmbiguous))
      else
        var own := if scope == RepoScope then repoScopeId else sessionId;
        if own.Some? then Ok(own) else Err(ScopeAmbiguous)
    }

    /** The entries linked to the item at this very place, not to a namesake in another scope. */
    function OwnEntries(inbox: map<string, InboxRow>, key: ItemKey): set<string> {
      set entry | entry in inbox && inbox[entry].targetItemId == Some(key.id) && inbox[entry].scope == key.scope
                  && Resolve(key.scope, inbox[entry].scopeId) == Ok(key.scopeId)
    }

    predicate Blocks(title: string, body: string) {
      blocked(title) || blocked(body)
    }

    /** Why a title and body are refused before anything is written. */
    function Refusal(title: string, body: string): Option<MemoryError> {
      if !ValidTitle(title) then Some(InvalidTitle)
      else if ByteLength(title) > MAX_TITLE_BYTES || ByteLength(body) > MAX_BODY_BYTES then Some(PayloadTooLarge)
      else if Blocks(title, body) then Some(BlockedSensitive)
      else None
    }

    /** Why the write primitive fails; nothing is on disk then. */
    function WriteError(item: MemoryItem, fault: bool): Option<MemoryError> {
      if Blocks(item.title, item.body) then Some(BlockedSensitive)
      else if !ValidId(item.id) then Some(InvalidId)
      else if !ValidTitle(item.title) then Some(InvalidTitle)
      else if fault then Some(Io)
      else None
    }

    /** Intent and terminal event of one write. */
    function WriteEvents(operation: string, item: MemoryItem, ok: bool): seq<MemoryEvent> {
      [WriteIntent(format, operation, item),
       if ok then OperationApplied(operation) else OperationFailed(operation, "memory write failed")]
    }

    function StoredOf(item: MemoryItem): StoredMemoryItem {
      StoredMemoryItem(KeyOf(item), RowOf(Hashed(format, item)))
    }

    /** Files, log and answer after persisting `item`. */
    ghost predicate Wrote(
      files: Files, log: seq<MemoryEvent>, laterFiles: Files, laterLog: seq<MemoryEvent>,
      operation: string, item: MemoryItem, fault: bool, result: Result<StoredMemoryItem, MemoryError>)
    {
      var error := WriteError(item, fault);
      && result == (if error.Some? then Err(error.value) else Ok(StoredOf(item)))
      && laterFiles == (if error.Some? then files else files[KeyOf(item) := FileOf(format, item)])
      && laterLog == log + WriteEvents(operation, item, error.None?)
    }

    /** Outcomes that record nothing: none, blocked, or shaped like a secret. */
    predicate Dropped(outcome: ExtractionOutcome) {
      || outcome.NoOp? || outcome.BlockedOutcome?
      || ((outcome.CandidateOutcome? || outcome.ActiveUpdate?) && Blocks(outcome.proposal.title, outcome.proposal.body))
    }

    function ProposalData(session: string, covered: nat, outcome: ExtractionOutcome, call: Call): InboxProposal
      requires !Dropped(outcome)
    {
      if outcome.FailedOutcome? then
        InboxProposal(call.entryId, Failed, UserScope, None, None, None, None, None, Some(session), None, Some(covered),
                      None, None, None, Some(outcome.reason), call.now)
      else
        var proposal := outcome.proposal;
        InboxProposal(call.entryId, if outcome.ActiveUpdate? then ActiveAudit else Candidate, proposal.scope, None,
                      None, Some(proposal.memoryType), Some(proposal.title), Some(proposal.confidence), Some(session),
                      None, Some(covered), None, None, None, None, call.now)
    }

    lemma {:induction false} ProposalDataEntry(session: string, covered: nat, outcome: ExtractionOutcome, call: Call)
      requires !Dropped(outcome)
      ensures ProposalData(session, covered, outcome, call).entryId == call.entryId
    {
    }

    /** The entry, and the body of the proposal behind it. */
    function OutcomeEvents(session: string, covered: nat, outcome: ExtractionOutcome, call: Call): seq<MemoryEvent>
      requires !Dropped(outcome)
    {
      [InboxProposed(ProposalData(session, covered, outcome, call))]
      + if outcome.FailedOutcome? then [] else [ProposalBody(call.entryId, outcome.proposal.body)]
    }

    /** The review, and for a rejected entry with a title the correction. */
    function ReviewEvents(entryId: string, entry: InboxRow, action: InboxAction, now: int): seq<MemoryEvent> {
      [InboxReviewed(entryId, StatusFor(action), None, now)]
      + if action == Reject && entry.title.Some? then
          [CorrectionRecorded(suppressionKey(entry.scope, entry.scopeId, entry.memoryType, entry.title.value),
                              entry.scope, entry.scopeId, Some("rejected candidate"), now)]
        else []
    }

    /** What an inbox entry proposes, or why it cannot be activated. */
    function ProposalOf(
        inbox: map<string, InboxRow>, log: seq<MemoryEvent>, entryId: string): Result<Proposal, MemoryError> {
      if entryId !in inbox then Err(NotFound)
      else
        var entry, body := inbox[entryId], LatestBody(log, entryId);
        if body.None? || entry.memoryType.None? || entry.title.None? then Err(NotFound)
        else if Refusal(entry.title.value, body.value).Some? then Err(Refusal(entry.title.value, body.value).value)
        else
          match Resolve(entry.scope, entry.scopeId)
          case Err(error) => Err(error)
          case Ok(resolved) => Ok(Proposal(entry, entry.memoryType.value, entry.title.value, body.value, resolved))
    }

    /** The snapshot taken of the item a proposal replaces, if it can be read. */
    function PriorSnapshot(files: Files, proposal: Proposal, operation: string): seq<MemoryEvent> {
      if proposal.entry.targetItemId.None? then []
      else
        match ReadItem(format, files,
                       ItemKey(proposal.entry.scope, proposal.resolved, proposal.entry.targetItemId.value))
        case Err(_) => []
        case Ok(prior) => [Snapshot(operation, prior, proposal.resolved)]
    }

    /**
     * Before and after an activation: nothing changed when the entry cannot be activated;
     * snapshot, intent and failure when the write fails; otherwise the new item, linked.
     */
    ghost predicate Activated(
      before: MemoryState, later: MemoryState, entryId: string, call: Call, failure: Option<MemoryError>)
    {
      match ProposalOf(before.tables.inbox, before.log, entryId)
      case Err(error) => failure == Some(error) && later == before
      case Ok(proposal) =>
        var item := proposal.Item(call.itemId, call.now);
        var error := WriteError(item, call.fault);
        var log := before.log + PriorSnapshot(before.files, proposal, call.operation)
                   + WriteEvents(call.operation, item, error.None?);
        && failure == error
        && later == if error.Some? then before.(log := log)
                    else MemoryState(before.files[KeyOf(item) := FileOf(format, item)],
                                     log + [InboxLinked(entryId, item.id, call.now)],
                                     SetInboxTarget(before.tables, entryId, item.id, call.now))
    }

    /** After an extraction outcome was put in the inbox. */
    function Proposed(
        before: MemoryState, session: string, covered: nat, outcome: ExtractionOutcome, call: Call): MemoryState
      requires !Dropped(outcome)
    {
      var data := ProposalData(session, covered, outcome, call);
      MemoryState(before.files, before.log + OutcomeEvents(session, covered, outcome, call),
                  UpsertInbox(before.tables, call.entryId, FromProposal(data)))
    }

    /**
     * Before and after recording an outcome. An entry that cannot be activated stays in the
     * inbox, and the caller is told of none.
     */
    ghost predicate Recorded(
      before: MemoryState, later: MemoryState, session: string, covered: nat, outcome: ExtractionOutcome, call: Call,
      created: bool)
    {
      if Dropped(outcome) then later == before && !created
      else if outcome.ActiveUpdate? then
        exists failure ::
          && Activated(Proposed(before, session, covered, outcome, call), later, call.entryId, call, failure)
          && (created <==> failure.None?)
      else later == Proposed(before, session, covered, outcome, call) && created
    }

    /** Recording, and then the cursor. */
    ghost predicate Extracted(
      before: MemoryState, later: MemoryState, session: string, covered: nat, outcome: ExtractionOutcome, call: Call,
      created: bool)
    {
      exists middle ::
        && Recorded(before, middle, session, covered, outcome, call, created)
        && later == MemoryState(middle.files, middle.log + [CursorAdvanced(session, covered, call.now)],
                                UpsertCursor(middle.tables, session, covered, call.now))
    }

    /** Before and after a review that needs no activation. */
    ghost predicate Reviewed(
      before: MemoryState, later: MemoryState, entryId: string, entry: InboxRow, action: InboxAction, now: int)
    {
      && later.files == before.files
      && later.log == before.log + ReviewEvents(entryId, entry, action, now)
      && entryId in later.tables.inbox && later.tables.inbox[entryId].status == StatusFor(action)
    }
  }

  /** Everything an activation works with. */
  datatype Proposal = Proposal(
    entry: InboxRow, memoryType: MemoryType, title: string, body: string, resolved: Option<string>)
  {
    function Item(newId: string, now: int): MemoryItem {
      var id := if entry.targetItemId.Some? then entry.targetItemId.value else newId;
      MemoryItem(id, entry.scope, resolved, memoryType, title, body, true,
                 MemoryProvenance(Extraction, entry.sourceSessionId, entry.sourceTurnStart,
                                  entry.sourceTurnEnd, now, now),
                 "")
    }
  }

  // ---- Keeping the log tidy ----

  /** An event that starts and ends nothing moves the tables by its own effect. */
  lemma {:induction false} Appending(log: seq<MemoryEvent>, event: MemoryEvent)
    requires Tidy(log) && Neutral(event)
    ensures Tidy(log + [event]) && Replayed(log + [event]) == Projected(Replayed(log), event)
    ensures forall op :: Starts(log + [event], op) == Starts(log, op)
  {
    TidyNeutral(log, event);
    ReplayedSnoc(log, event);
  }

  /** How the log says an operation ended. */
  ghost predicate EndsAs(log: seq<MemoryEvent>, operation: string, applied: bool) {
    && (OperationApplied(operation) in log <==> applied)
    && ((exists reason :: OperationFailed(operation, reason) in log) <==> !applied)
  }

  lemma {:induction false} NotEnded(log: seq<MemoryEvent>, operation: string)
    requires Ends(log, operation) == 0
    ensures forall event | event in log :: !EndsOp(event, operation)
  {
    if log != [] {
      NotEnded(log[..|log| - 1], operation);
      assert log == log[..|log| - 1] + [log[|log| - 1]];
    }
  }

  lemma {:induction false} EndsWithOne(log: seq<MemoryEvent>, intent: MemoryEvent, end: MemoryEvent, operation: string)
    requires Ends(log, operation) == 0 && !EndsOp(intent, operation)
    requires end == OperationApplied(operation) || (end.OperationFailed? && end.operationId == operation)
    ensures EndsAs(log + [intent, end], operation, end.OperationApplied?)
  {
    var more := log + [intent, end];
    NotEnded(log, operation);
    assert forall event :: event in more <==> event in log || event == intent || event == end;
    assert end.OperationFailed? ==> OperationFailed(operation, end.failure) in more;
  }

  /**
   * A write that was attempted tells the truth: its terminal event is Applied exactly when it
   * succeeded, and then the file reads as the item. A failed write leaves every file alone. A
   * rebuild right afterwards would say the same, unless the earlier file was the item already
   * or could be mistaken for it.
   */
  lemma {:induction false} WriteTellsTruth(
    setup: Setup, files: Files, log: seq<MemoryEvent>, laterFiles: Files, laterLog: seq<MemoryEvent>,
    operation: string, item: MemoryItem, fault: bool, result: Result<StoredMemoryItem, MemoryError>)
    requires setup.Wrote(files, log, laterFiles, laterLog, operation, item, fault, result)
    requires setup.format.Faithful() && InPlace(setup.format, files) && Tidy(log) && Starts(log, operation) == 0
    ensures EndsAs(laterLog, operation, result.Ok?)
    ensures result.Err? ==> laterFiles == files
    ensures Holds(setup.format, laterFiles, item) <==> result.Ok? || Holds(setup.format, files, item)
    ensures forall listing | IsListing(laterFiles, listing) ::
              Landed(Scanned(setup.format, laterFiles, listing), WriteIntent(setup.format, operation, item))
              <==> result.Ok? || Holds(setup.format, files, item) || Mistakable(setup.format, files, item)
  {
    hide ParsedItem, SerializeItem, Scanned, FindItem, InPlace, Tidy, EndsAs;
    TidyFresh(log, operation);
    var error := setup.WriteError(item, fault);
    var intent := WriteIntent(setup.format, operation, item);
    EndsWithOne(log, intent, setup.WriteEvents(operation, item, error.None?)[1], operation);
    if result.Ok? {
      WriteIsSerialized(setup, item, fault);
      TopicFileRoundTrip(setup.format, item);
      WriteKeeps(setup.format, files, item);
    }
    forall listing | IsListing(laterFiles, listing)
      ensures Landed(Scanned(setup.format, laterFiles, listing), intent)
              <==> result.Ok? || Holds(setup.format, files, item) || Mistakable(setup.format, files, item)
    {
      ListingDoesNotMatter(setup.format, laterFiles, listing);
      assert FindItem(Scanned(setup.format, laterFiles, listing), KeyOf(item))
          == RowAt(setup.format, laterFiles, KeyOf(item));
    }
  }

  lemma {:induction false} TidyFresh(log: seq<MemoryEvent>, operation: string)
    requires Tidy(log) && Starts(log, operation) == 0
    ensures Ends(log, operation) == 0
  {
  }

  lemma {:induction false} EndsStay(log: seq<MemoryEvent>, event: MemoryEvent, operation: string, applied: bool)
    requires EndsAs(log, operation, applied) && Neutral(event)
    ensures EndsAs(log + [event], operation, applied)
  {
    assert forall e :: e in log + [event] <==> e in log || e == event;
  }

  /** A file that holds the item gives it back. */
  lemma {:induction false} HoldsReads(format: Format, files: Files, item: MemoryItem)
    requires Holds(format, files, item) && ValidId(item.id)
    ensures ReadItem(format, files, KeyOf(item)) == Ok(Hashed(format, item))
  {
    hide ParsedItem;
  }

  lemma {:induction false} ReadInPlace(format: Format, files: Files, key: ItemKey)
    requires InPlace(format, files) && ReadItem(format, files, key).Ok?
    ensures ValidId(key.id) && KeyOf(ReadItem(format, files, key).value) == key
  {
    hide ParsedItem;
  }

  /** What is forgotten can be restored: the snapshot holds all of it. */
  lemma {:induction false} ForgetKeepsPrior(
    format: Format, files: Files, log: seq<MemoryEvent>, key: ItemKey, operation: string)
    requires InPlace(format, files)
    ensures
      var prior := ReadItem(format, files, key);
      prior.Ok? ==>
        RollbackPoint(operation, key.id, key.scope, key.scopeId, prior.value.memoryType, prior.value.title,
                      prior.value.body, prior.value.active) in log + ForgetEvents(format, files, key, operation)
  {
    hide ReadItem, ForgetIntent;
    if ReadItem(format, files, key).Ok? {
      ReadInPlace(format, files, key);
      assert ForgetEvents(format, files, key, operation)[0] in log + ForgetEvents(format, files, key, operation);
    }
  }

  /** The item reads as this title, body and type, and is live. */
  predicate ReadsAs(
    format: Format, files: Files, key: ItemKey, memoryType: MemoryType, title: string, body: string,
    source: MemorySource)
  {
    var read := ReadItem(format, files, key);
    && read.Ok? && read.value.title == title && read.value.body == body && read.value.memoryType == memoryType
    && read.value.active && read.value.provenance.source == source
  }

  /**
   * An activated entry is an item with the entry's title and type and the body last proposed,
   * under the id it was linked to or a new one, and it is linked to it. The log tells whether
   * the write succeeded.
   */
  lemma {:induction false} ActivatedReads(
    setup: Setup, before: MemoryState, later: MemoryState, entryId: string, call: Call, failure: Option<MemoryError>)
    requires setup.Activated(before, later, entryId, call, failure)
    requires setup.format.Faithful() && Tidy(before.log) && Starts(before.log, call.operation) == 0
    ensures failure.None? ==>
      var entry, body := before.tables.inbox[entryId], LatestBody(before.log, entryId);
      && entryId in before.tables.inbox && entry.title.Some? && entry.memoryType.Some? && body.Some?
      && setup.Resolve(entry.scope, entry.scopeId).Ok?
      && var id := if entry.targetItemId.Some? then entry.targetItemId.value else call.itemId;
      && ReadsAs(setup.format, later.files, ItemKey(entry.scope, setup.Resolve(entry.scope, entry.scopeId).value, id),
                 entry.memoryType.value, entry.title.value, body.value, Extraction)
      && entryId in later.tables.inbox && later.tables.inbox[entryId].targetItemId == Some(id)
    ensures setup.ProposalOf(before.tables.inbox, before.log, entryId).Ok? ==>
      var entry := before.tables.inbox[entryId];
      && EndsAs(later.log, call.operation, failure.None?)
      && (entry.targetItemId.Some? ==>
            var place := setup.Resolve(entry.scope, entry.scopeId).value;
            var prior := ReadItem(setup.format, before.files, ItemKey(entry.scope, place, entry.targetItemId.value));
            prior.Ok? ==>
              RollbackPoint(call.operation, prior.value.id, prior.value.scope, place, prior.value.memoryType,
                            prior.value.title, prior.value.body, prior.value.active) in later.log)
  {
    hide ParsedItem, ByteLength, ValidId, ValidTitle, Setup.Blocks, Setup.Resolve, EndsAs, Tidy, LatestBody;
    var planned := setup.ProposalOf(before.tables.inbox, before.log, entryId);
    if planned.Ok? {
      var item := planned.value.Item(call.itemId, call.now);
      var error := setup.WriteError(item, call.fault);
      var snapshot := setup.PriorSnapshot(before.files, planned.value, call.operation);
      TidyFresh(before.log, call.operation);
      SnapshotsEndNothing(before.log, snapshot, call.operation);
      var end := setup.WriteEvents(call.operation, item, error.None?)[1];
      EndsWithOne(before.log + snapshot, WriteIntent(setup.format, call.operation, item), end, call.operation);
      if error.None? {
        TopicFileRoundTrip(setup.format, item);
        EndsStay(before.log + snapshot + setup.WriteEvents(call.operation, item, true),
                 InboxLinked(entryId, item.id, call.now), call.operation, true);
      }
    }
  }

  lemma {:induction false} SnapshotsEndNothing(log: seq<MemoryEvent>, snapshot: seq<MemoryEvent>, operation: string)
    requires |snapshot| <= 1 && forall event | event in snapshot :: event.RollbackPoint?
    ensures Ends(log + snapshot, operation) == Ends(log, operation)
  {
    if snapshot == [] {
      assert log + snapshot == log;
    } else {
      assert (log + snapshot)[..|log|] == log && snapshot[0] in snapshot;
    }
  }

  // ---- Keeping secrets out ----

  /** What this event holds was let through by the scan. */
  predicate CleanEvent(blocked: string -> bool, event: MemoryEvent) {
    match event
    case RollbackPoint(_, _, _, _, _, title, body, _) => !blocked(title) && !blocked(body)
    case ProposalBody(_, body) => !blocked(body)
    case InboxProposed(data) => data.title.Some? ==> !blocked(data.title.value)
    case _ => true
  }

  ghost predicate CleanLog(blocked: string -> bool, log: seq<MemoryEvent>) {
    forall event | event in log :: CleanEvent(blocked, event)
  }

  ghost predicate CleanFiles(setup: Setup, files: Files) {
    forall key | key in files && ParsedItem(setup.format, files[key]).Ok? ::
      && !setup.blocked(ParsedItem(setup.format, files[key]).value.title)
      && !setup.blocked(ParsedItem(setup.format, files[key]).value.body)
  }

  lemma {:induction false} CleanMore(blocked: string -> bool, log: seq<MemoryEvent>, more: seq<MemoryEvent>)
    requires CleanLog(blocked, log) && CleanLog(blocked, more)
    ensures CleanLog(blocked, log + more)
  {
  }

  lemma {:induction false} CleanWrite(
    setup: Setup, files: Files, log: seq<MemoryEvent>, laterFiles: Files, laterLog: seq<MemoryEvent>,
    operation: string, item: MemoryItem, fault: bool, result: Result<StoredMemoryItem, MemoryError>)
    requires setup.Wrote(files, log, laterFiles, laterLog, operation, item, fault, result)
    requires setup.format.Faithful() && CleanFiles(setup, files) && CleanLog(setup.blocked, log)
    ensures CleanFiles(setup, laterFiles) && CleanLog(setup.blocked, laterLog)
  {
    hide ParsedItem, SerializeItem;
    if result.Ok? {
      WriteIsSerialized(setup, item, fault);
      TopicFileRoundTrip(setup.format, item);
    }
  }

  lemma {:induction false} CleanSnapshot(
    setup: Setup, files: Files, key: ItemKey, operation: string, scopeId: Option<string>)
    requires CleanFiles(setup, files) && ReadItem(setup.format, files, key).Ok?
    ensures CleanLog(setup.blocked, [Snapshot(operation, ReadItem(setup.format, files, key).value, scopeId)])
  {
    hide ParsedItem;
  }

  lemma {:induction false} ProposalIsClean(
    setup: Setup, session: string, covered: nat, outcome: ExtractionOutcome, call: Call)
    requires !setup.Dropped(outcome)
    ensures CleanEvent(setup.blocked, InboxProposed(setup.ProposalData(session, covered, outcome, call)))
    ensures !outcome.FailedOutcome? ==> CleanEvent(setup.blocked, ProposalBody(call.entryId, outcome.proposal.body))
  {
  }

  lemma {:induction false} CleanEnd(blocked: string -> bool, log: seq<MemoryEvent>, event: MemoryEvent)
    requires CleanLog(blocked, log) && (event.InboxLinked? || event.OperationApplied?)
    ensures CleanLog(blocked, log + [event])
  {
  }

  lemma {:induction false} CleanRemoval(setup: Setup, files: Files, key: ItemKey)
    requires CleanFiles(setup, files)
    ensures CleanFiles(setup, files - {key})
  {
    hide ParsedItem;
  }

  lemma {:induction false} CleanRewrite(setup: Setup, log: seq<MemoryEvent>, itemId: string, entries: set<string>)
    requires CleanLog(setup.blocked, log) && !setup.blocked(REDACTED)
    ensures CleanLog(setup.blocked, RedactAll(log, itemId, entries) + [SensitivePurged(itemId)])
  {
    var later := RedactAll(log, itemId, entries);
    forall event | event in later
      ensures CleanEvent(setup.blocked, event)
    {
      var i :| 0 <= i < |later| && later[i] == event;
      assert log[i] in log && event == RedactPurged(log[i], itemId, entries);
    }
  }

  /** Why a text may not be written, each reason exactly. */
  lemma {:induction false} RefusedExactly(setup: Setup, title: string, body: string)
    ensures
      var refusal := setup.Refusal(title, body);
      var fits := ByteLength(title) <= MAX_TITLE_BYTES && ByteLength(body) <= MAX_BODY_BYTES;
      && (refusal == Some(InvalidTitle) <==> !ValidTitle(title))
      && (refusal == Some(PayloadTooLarge) <==> ValidTitle(title) && !fits)
      && (refusal == Some(BlockedSensitive)
          <==> ValidTitle(title) && fits && (setup.blocked(title) || setup.blocked(body)))
      && (refusal == None <==> ValidTitle(title) && fits && !setup.blocked(title) && !setup.blocked(body))
  {
    hide ByteLength, ValidTitle;
  }

  /**
   * Where an item goes. User scope has no scope id; a given id must be known; without one it is
   * the workspace's repository or the running session, if there is one.
   */
  lemma {:induction false} ResolvesTo(setup: Setup, scope: MemoryScope, scopeId: Option<string>, place: Option<string>)
    ensures setup.Resolve(scope, scopeId) == Ok(place) <==>
      match scope
      case UserScope => place == None
      case RepoScope =>
        place.Some? && if scopeId.Some? then place == scopeId && (RepoScope, place.value) in setup.known
                       else place == setup.repoScopeId
      case SessionScope =>
        place.Some? && if scopeId.Some? then place == scopeId && (SessionScope, place.value) in setup.known
                       else place == setup.sessionId
    ensures setup.Resolve(scope, scopeId).Err? ==> setup.Resolve(scope, scopeId).error == ScopeAmbiguous
  {
  }

  /** The size that is limited is that of the UTF-8 encoding. */
  lemma {:induction false} ByteLengthIsEncoded(text: string)
    ensures ByteLength(text) == |Encode(text)|
  {
    if text != "" {
      var front, last := text[..|text| - 1], text[|text| - 1..];
      assert text == front + last && last[1..] == "" && Encode("") == [];
      ByteLengthIsEncoded(front);
      EncodeConcat(front, last);
    }
  }

  class MemoryService {
    const setup: Setup
    const disk: MemoryDisk
    const store: MemoryStore

    /** The index equals the rebuild from files and log, and every operation ends at most once. */
    ghost predicate Valid()
      reads disk, store
    {
      && setup.format.Faithful()
      && InPlace(setup.format, disk.files)
      && store.items == ItemRows(setup.format, disk.files)
      && store.View() == Replayed(disk.log)
      && Tidy(disk.log)
    }

    ghost function View(): MemoryState
      reads disk, store
    {
      MemoryState(disk.files, disk.log, store.View())
    }

    /** The call's operation id was never used. */
    ghost predicate Fresh(operation: string)
      reads disk
    {
      Starts(disk.log, operation) == 0
    }

    /** Opens whatever is there; Reload makes the index right. */
    constructor (setup: Setup, disk: MemoryDisk, store: MemoryStore)
      ensures this.setup == setup && this.disk == disk && this.store == store
    {
      this.setup, this.disk, this.store := setup, disk, store;
    }

    /** Every readable file carries the hash of its own content. */
    ghost predicate OwnHashes()
      reads disk
    {
      SelfHashed(setup.format, disk.files)
    }

    /** No readable file, snapshot or proposal holds what the scan blocks. */
    ghost predicate Clean()
      reads disk
    {
      CleanFiles(setup, disk.files) && CleanLog(setup.blocked, disk.log)
    }

    /** Appends an event the tables do not show. */
    method Note(event: MemoryEvent)
      requires Valid() && Silent(event) && Tidy(disk.log + [event])
      modifies disk`log
      ensures Valid() && disk.log == old(disk.log) + [event]
      ensures old(Clean()) && CleanEvent(setup.blocked, event) ==> Clean()
    {
      hide InPlace, ItemRows, Tidy, Replayed, Format.Faithful, CleanFiles, CleanEvent;
      ReplayedSnoc(disk.log, event);
      disk.Append(event);
    }

    /** Intent, atomic write, terminal event, index row, in this order. */
    method Persist(
        operation: string, item: MemoryItem, fault: bool) returns (result: Result<StoredMemoryItem, MemoryError>)
      requires Valid() && Fresh(operation)
      modifies disk, store
      ensures Valid()
      ensures old(OwnHashes()) ==> OwnHashes()
      ensures old(Clean()) ==> Clean()
      ensures setup.Wrote(old(disk.files), old(disk.log), disk.files, disk.log, operation, item, fault, result)
      ensures EndsAs(disk.log, operation, result.Ok?)
      ensures Holds(setup.format, disk.files, item) <==> result.Ok? || Holds(setup.format, old(disk.files), item)
      ensures result.Ok? ==> result.value.key in store.items && store.items[result.value.key] == result.value.row
      ensures store.View() == old(store.View())
    {
      hide ItemRows, InPlace, Replayed, Tidy, SelfHashed, SerializeItem, ParsedItem, Format.Faithful,
           ValidTitle, ValidId, Setup.Blocks, EndsAs, CleanFiles, CleanLog;
      var intent := WriteIntent(setup.format, operation, item);
      TidyStart(disk.log, intent);
      Note(intent);
      var error := setup.WriteError(item, fault);
      if error.Some? {
        TidyEnd(disk.log, OperationFailed(operation, "memory write failed"));
        Note(OperationFailed(operation, "memory write failed"));
        result := Err(error.value);
        WriteTellsTruth(setup, old(disk.files), old(disk.log), disk.files, disk.log, operation, item, fault, result);
        StaysClean(old(disk.files), old(disk.log), operation, item, fault, result);
        return;
      }
      TidyEnd(disk.log, OperationApplied(operation));
      WriteIsSerialized(setup, item, fault);
      WriteKeeps(setup.format, disk.files, item);
      if OwnHashes() {
        WriteKeepsHashes(setup.format, disk.files, item);
      }
      disk.files := disk.files[KeyOf(item) := FileOf(setup.format, item)];
      disk.Append(OperationApplied(operation));
      ReplayedSnoc(old(disk.log) + [intent], OperationApplied(operation));
      store.UpsertMemoryItem(KeyOf(item), RowOf(Hashed(setup.format, item)));
      result := Ok(setup.StoredOf(item));
      WriteTellsTruth(setup, old(disk.files), old(disk.log), disk.files, disk.log, operation, item, fault, result);
      StaysClean(old(disk.files), old(disk.log), operation, item, fault, result);
    }

    lemma {:induction false} StaysClean(
      files: Files, log: seq<MemoryEvent>, operation: string, item: MemoryItem, fault: bool,
      result: Result<StoredMemoryItem, MemoryError>)
      requires setup.format.Faithful()
      requires setup.Wrote(files, log, disk.files, disk.log, operation, item, fault, result)
      ensures CleanFiles(setup, files) && CleanLog(setup.blocked, log) ==> Clean()
    {
      hide Setup.Wrote, CleanFiles, CleanLog, Format.Faithful;
      if CleanFiles(setup, files) && CleanLog(setup.blocked, log) {
        CleanWrite(setup, files, log, disk.files, disk.log, operation, item, fault, result);
      }
    }

    /** Adds an active item; a refused one leaves no trace. */
    method Add(
      scope: MemoryScope, scopeId: Option<string>, memoryType: MemoryType, title: string, body: string, call: Call)
      returns (result: Result<StoredMemoryItem, MemoryError>)
      requires Valid() && Fresh(call.operation)
      modifies disk, store
      ensures Valid()
      ensures old(OwnHashes()) ==> OwnHashes()
      ensures old(Clean()) ==> Clean()
      ensures
        var refusal, resolved := setup.Refusal(title, body), setup.Resolve(scope, scopeId);
        if refusal.Some? || resolved.Err? then
          && result == Err(if refusal.Some? then refusal.value else resolved.error)
          && unchanged(disk) && unchanged(store)
        else
          var item := MemoryItem(call.itemId, scope, resolved.value, memoryType, title, body, true,
                                 MemoryProvenance(Manual, setup.sessionId, None, None, call.now, call.now), "");
          setup.Wrote(old(disk.files), old(disk.log), disk.files, disk.log, call.operation, item, call.fault, result)
      ensures result == Err(InvalidTitle) <==> !ValidTitle(title)
      ensures result == Err(PayloadTooLarge)
              <==> ValidTitle(title) && (ByteLength(title) > MAX_TITLE_BYTES || ByteLength(body) > MAX_BODY_BYTES)
      ensures result == Err(BlockedSensitive)
              <==> && ValidTitle(title) && ByteLength(title) <= MAX_TITLE_BYTES && ByteLength(body) <= MAX_BODY_BYTES
                   && (setup.blocked(title) || setup.blocked(body))
      ensures setup.Refusal(title, body).None? && setup.Resolve(scope, scopeId).Ok? ==>
                EndsAs(disk.log, call.operation, result.Ok?)
      ensures result.Ok? ==>
        && setup.Resolve(scope, scopeId).Ok?
        && ReadsAs(setup.format, disk.files, ItemKey(scope, setup.Resolve(scope, scopeId).value, call.itemId),
                   memoryType, title, body, Manual)
    {
      hide ItemRows, InPlace, Replayed, Tidy, SelfHashed, Format.Faithful, ValidTitle, ValidId, Holds, ReadItem,
           ByteLength, EndsAs, CleanFiles, CleanLog, FileOf, Setup.Refusal;
      RefusedExactly(setup, title, body);
      var refusal := setup.Refusal(title, body);
      if refusal.Some? {
        return Err(refusal.value);
      }
      var resolved := setup.Resolve(scope, scopeId);
      if resolved.Err? {
        return Err(resolved.error);
      }
      var provenance := MemoryProvenance(Manual, setup.sessionId, None, None, call.now, call.now);
      var item := MemoryItem(call.itemId, scope, resolved.value, memoryType, title, body, true, provenance, "");
      result := Persist(call.operation, item, call.fault);
      if result.Ok? {
        HoldsReads(setup.format, disk.files, item);
      }
    }

    /** Edits title or body behind a snapshot of what was there; a refused edit leaves no trace. */
    method Edit(
      scope: MemoryScope, scopeId: Option<string>, id: string, title: Option<string>, body: Option<string>, call: Call)
      returns (result: Result<StoredMemoryItem, MemoryError>)
      requires Valid() && Fresh(call.operation)
      modifies disk, store
      ensures Valid()
      ensures old(OwnHashes()) ==> OwnHashes()
      ensures old(Clean()) ==> Clean()
      ensures
        var resolved := setup.Resolve(scope, scopeId);
        resolved.Err? ==> result == Err(resolved.error) && unchanged(disk) && unchanged(store)
      ensures
        var resolved := setup.Resolve(scope, scopeId);
        resolved.Ok? ==>
          match ReadItem(setup.format, old(disk.files), ItemKey(scope, resolved.value, id))
          case Err(error) => result == Err(error) && unchanged(disk) && unchanged(store)
          case Ok(prior) =>
            var item := prior.(title := if title.Some? then title.value else prior.title,
                               body := if body.Some? then body.value else prior.body,
                               provenance := prior.provenance.(updatedAtMs := call.now));
            var refusal := setup.Refusal(item.title, item.body);
            if refusal.Some? then result == Err(refusal.value) && unchanged(disk) && unchanged(store)
            else setup.Wrote(old(disk.files), old(disk.log) + [Snapshot(call.operation, prior, resolved.value)],
                             disk.files, disk.log, call.operation, item, call.fault, result)
      ensures setup.Resolve(scope, scopeId).Ok? ==>
        var key := ItemKey(scope, setup.Resolve(scope, scopeId).value, id);
        match ReadItem(setup.format, old(disk.files), key)
        case Err(_) => true
        case Ok(prior) =>
          var newTitle := if title.Some? then title.value else prior.title;
          var newBody := if body.Some? then body.value else prior.body;
          && (result == Err(BlockedSensitive)
              <==> && ValidTitle(newTitle)
                   && ByteLength(newTitle) <= MAX_TITLE_BYTES && ByteLength(newBody) <= MAX_BODY_BYTES
                   && (setup.blocked(newTitle) || setup.blocked(newBody)))
          && (setup.Refusal(newTitle, newBody).None? ==>
                && EndsAs(disk.log, call.operation, result.Ok?)
                && RollbackPoint(call.operation, id, scope, key.scopeId, prior.memoryType, prior.title, prior.body,
                                 prior.active) in disk.log)
          && (result.Ok? ==>
                var read := ReadItem(setup.format, disk.files, key);
                && read.Ok? && read.value.title == newTitle && read.value.body == newBody
                && read.value.memoryType == prior.memoryType && read.value.active == prior.active
                && read.value.provenance == prior.provenance.(updatedAtMs := call.now))
    {
      hide ItemRows, InPlace, Replayed, Tidy, SelfHashed, Format.Faithful, ValidTitle, ValidId, ReadItem, Holds,
           ByteLength, EndsAs, CleanFiles, CleanLog, FileOf, Setup.Refusal, Setup.Resolve, Setup.WriteEvents;
      var resolved := setup.Resolve(scope, scopeId);
      if resolved.Err? {
        return Err(resolved.error);
      }
      var read := ReadItem(setup.format, disk.files, ItemKey(scope, resolved.value, id));
      if read.Err? {
        return Err(read.error);
      }
      var prior := read.value;
      var item := prior;
      if title.Some? {
        item := item.(title := title.value);
      }
      if body.Some? {
        item := item.(body := body.value);
      }
      RefusedExactly(setup, item.title, item.body);
      var refusal := setup.Refusal(item.title, item.body);
      if refusal.Some? {
        return Err(refusal.value);
      }
      item := item.(provenance := item.provenance.(updatedAtMs := call.now));
      ReadInPlace(setup.format, disk.files, ItemKey(scope, resolved.value, id));
      SnapshotIsClean(ItemKey(scope, resolved.value, id), call.operation, resolved.value);
      TidyNeutral(disk.log, Snapshot(call.operation, prior, resolved.value));
      Note(Snapshot(call.operation, prior, resolved.value));
      ghost var snapshot := disk.log[|disk.log| - 1];
      assert snapshot in disk.log;
      result := Persist(call.operation, item, call.fault);
      if result.Ok? {
        HoldsReads(setup.format, disk.files, item);
      }
    }

    lemma {:induction false} SnapshotIsClean(key: ItemKey, operation: string, scopeId: Option<string>)
      requires ReadItem(setup.format, disk.files, key).Ok?
      ensures Clean() ==>
                CleanEvent(setup.blocked, Snapshot(operation, ReadItem(setup.format, disk.files, key).value, scopeId))
    {
      hide ReadItem, CleanFiles;
      if Clean() {
        CleanSnapshot(setup, disk.files, key, operation, scopeId);
        assert Snapshot(operation, ReadItem(setup.format, disk.files, key).value, scopeId)
            in [Snapshot(operation, ReadItem(setup.format, disk.files, key).value, scopeId)];
      }
    }

    method AnnounceForget(key: ItemKey, operation: string)
      requires Valid() && Fresh(operation)
      modifies disk`log
      ensures Valid() && Starts(disk.log, operation) == 1 && Ends(disk.log, operation) == 0
      ensures disk.log == old(disk.log) + ForgetEvents(setup.format, disk.files, key, operation)
      ensures old(Clean()) ==> Clean()
    {
      hide ItemRows, InPlace, Replayed, Tidy, SelfHashed, Format.Faithful, ReadItem, CleanFiles;
      var prior := ReadItem(setup.format, disk.files, key);
      var snapshot := if prior.Ok? then [Snapshot(operation, prior.value, key.scopeId)] else [];
      if prior.Ok? {
        SnapshotIsClean(key, operation, key.scopeId);
        TidyNeutral(disk.log, Snapshot(operation, prior.value, key.scopeId));
        Note(Snapshot(operation, prior.value, key.scopeId));
      }
      assert disk.log == old(disk.log) + snapshot;
      var intent := ForgetIntent(setup.format, disk.files, key, operation);
      TidyStart(disk.log, intent);
      Note(intent);
      Associative(old(disk.log), snapshot, [intent]);
    }

    /**
     * Removes the topic file and its row. An id no file can have, or a failing removal,
     * leaves the intent without a terminal event for the next rebuild to settle.
     */
    method ForgetItem(scope: MemoryScope, scopeId: Option<string>, id: string, call: Call)
      returns (result: Result<bool, MemoryError>)
      requires Valid() && Fresh(call.operation)
      modifies disk, store
      ensures Valid()
      ensures old(OwnHashes()) ==> OwnHashes()
      ensures old(Clean()) ==> Clean()
      ensures
        var resolved := setup.Resolve(scope, scopeId);
        resolved.Err? ==> result == Err(resolved.error) && unchanged(disk) && unchanged(store)
      ensures
        var resolved := setup.Resolve(scope, scopeId);
        resolved.Ok? ==>
          var key := ItemKey(scope, resolved.value, id);
          var log := old(disk.log) + ForgetEvents(setup.format, old(disk.files), key, call.operation);
          if !ValidId(id) || call.fault then
            && result == Err(if !ValidId(id) then InvalidId else Io)
            && disk.files == old(disk.files) && disk.log == log
          else
            && result == Ok(key in old(disk.files))
            && disk.files == old(disk.files) - {key} && disk.log == log + [OperationApplied(call.operation)]
      ensures setup.Resolve(scope, scopeId).Ok? ==>
        var place := setup.Resolve(scope, scopeId).value;
        var prior := ReadItem(setup.format, old(disk.files), ItemKey(scope, place, id));
        && (OperationApplied(call.operation) in disk.log <==> result.Ok?)
        && (prior.Ok? ==> RollbackPoint(call.operation, id, scope, place, prior.value.memoryType, prior.value.title,
                                        prior.value.body, prior.value.active) in disk.log)
    {
      hide ItemRows, InPlace, Replayed, Tidy, SelfHashed, Format.Faithful, ValidTitle, ValidId, ReadItem, Setup.Resolve,
           CleanFiles, CleanLog, ForgetEvents;
      var resolved := setup.Resolve(scope, scopeId);
      if resolved.Err? {
        return Err(resolved.error);
      }
      var key := ItemKey(scope, resolved.value, id);
      ForgetKeepsPrior(setup.format, disk.files, disk.log, key, call.operation);
      AnnounceForget(key, call.operation);
      NotEnded(disk.log, call.operation);
      if !ValidId(id) {
        return Err(InvalidId);
      }
      if call.fault {
        return Err(Io);
      }
      result := Ok(key in disk.files);
      RemoveKeeps(setup.format, disk.files, key);
      RemoveKeepsHashes(setup.format, disk.files, key);
      disk.files := disk.files - {key};
      TidyEnd(disk.log, OperationApplied(call.operation));
      ReplayedSnoc(disk.log, OperationApplied(call.operation));
      if old(Clean()) {
        CleanRemoval(setup, old(disk.files), key);
        CleanEnd(setup.blocked, disk.log, OperationApplied(call.operation));
      }
      disk.Append(OperationApplied(call.operation));
      store.DeleteMemoryItem(key);
    }

    method TakeSnapshot(proposal: Proposal, operation: string)
      requires Valid()
      modifies disk`log
      ensures Valid() && disk.log == old(disk.log) + setup.PriorSnapshot(disk.files, proposal, operation)
      ensures Fresh(operation) == old(Fresh(operation))
      ensures old(Clean()) ==> Clean()
    {
      hide ItemRows, InPlace, Replayed, Tidy, SelfHashed, Format.Faithful, ReadItem, CleanFiles, CleanEvent;
      var snapshot := setup.PriorSnapshot(disk.files, proposal, operation);
      if snapshot != [] {
        SnapshotIsClean(ItemKey(proposal.entry.scope, proposal.resolved, proposal.entry.targetItemId.value), operation,
                        proposal.resolved);
        TidyNeutral(disk.log, snapshot[0]);
        Note(snapshot[0]);
      }
      assert disk.log == old(disk.log) + snapshot;
    }

    /** Turns a proposal into a live item behind a snapshot of what it replaces, and links the two. */
    method ActivateInboxEntry(entryId: string, call: Call) returns (result: Result<StoredMemoryItem, MemoryError>)
      requires Valid() && Fresh(call.operation)
      modifies disk, store
      ensures Valid()
      ensures old(OwnHashes()) ==> OwnHashes()
      ensures old(Clean()) ==> Clean()
      ensures setup.Activated(old(View()), View(), entryId, call, if result.Err? then Some(result.error) else None)
      ensures store.cursors == old(store.cursors)
    {
      hide ItemRows, InPlace, Replayed, Tidy, SelfHashed, Format.Faithful, ValidTitle, ValidId, ReadItem,
           Setup.WriteError, Setup.WriteEvents, LatestBody, Setup.Resolve, Setup.Refusal, Setup.ProposalOf,
           Setup.PriorSnapshot, CleanFiles, CleanLog, EndsAs, Holds;
      var planned := setup.ProposalOf(store.inbox, disk.log, entryId);
      if planned.Err? {
        return Err(planned.error);
      }
      var proposal := planned.value;
      var item := proposal.Item(call.itemId, call.now);
      TakeSnapshot(proposal, call.operation);
      result := Persist(call.operation, item, call.fault);
      if result.Err? {
        return;
      }
      var link := InboxLinked(entryId, item.id, call.now);
      Appending(disk.log, link);
      if Clean() {
        CleanEnd(setup.blocked, disk.log, link);
      }
      disk.Append(link);
      store.SetTarget(entryId, item.id, call.now);
    }

    /**
     * A review. Approving a candidate with a recorded body first turns it into an item, and
     * goes no further when that fails. Rejecting also records a correction.
     */
    method InboxApply(entryId: string, action: InboxAction, call: Call) returns (result: Result<InboxRow, MemoryError>)
      requires Valid() && Fresh(call.operation)
      modifies disk, store
      ensures Valid()
      ensures old(OwnHashes()) ==> OwnHashes()
      ensures old(Clean()) ==> Clean()
      ensures entryId !in old(store.inbox) ==> result == Err(NotFound) && unchanged(disk) && unchanged(store)
      ensures result.Ok? ==>
        && entryId in store.inbox && result.value == store.inbox[entryId]
        && match action
           case Approve => result.value.status == Approved
           case Reject => result.value.status == Rejected
           case MarkStale => result.value.status == Stale
      ensures result.Ok? && action == Reject && old(store.inbox)[entryId].title.Some? ==>
        var entry := old(store.inbox)[entryId];
        var key := setup.suppressionKey(entry.scope, entry.scopeId, entry.memoryType, entry.title.value);
        && key in store.corrections
        && CorrectionRecorded(key, entry.scope, entry.scopeId, Some("rejected candidate"), call.now) in disk.log
      ensures entryId in old(store.inbox) ==>
        var entry := old(store.inbox)[entryId];
        if action == Approve && entry.status == Candidate && LatestBody(old(disk.log), entryId).Some? then
          exists middle: MemoryState, failure ::
            && setup.Activated(old(View()), middle, entryId, call, failure)
            && if failure.Some? then result == Err(failure.value) && View() == middle
               else result.Ok? && setup.Reviewed(middle, View(), entryId, entry, action, call.now)
        else result.Ok? && setup.Reviewed(old(View()), View(), entryId, entry, action, call.now)
    {
      hide ItemRows, InPlace, Replayed, Tidy, SelfHashed, Format.Faithful, Setup.WriteError, Setup.WriteEvents,
           LatestBody, Setup.Resolve, Setup.Refusal, Setup.PriorSnapshot;
      if entryId !in store.inbox {
        return Err(NotFound);
      }
      var entry := store.inbox[entryId];
      var recorded := LatestProposalBody(disk.log, entryId);
      if action == Approve && entry.status == Candidate && recorded.Some? {
        var activated := ActivateInboxEntry(entryId, call);
        if activated.Err? {
          assert setup.Activated(old(View()), View(), entryId, call, Some(activated.error));
          return Err(activated.error);
        }
      }
      ghost var middle := View();
      MarkReviewed(entryId, entry, action, call.now);
      result := Ok(store.inbox[entryId]);
      assert setup.Reviewed(middle, View(), entryId, entry, action, call.now);
    }

    method MarkReviewed(entryId: string, entry: InboxRow, action: InboxAction, now: int)
      requires Valid() && entryId in store.inbox
      modifies disk`log, store
      ensures Valid()
      ensures disk.log == old(disk.log) + setup.ReviewEvents(entryId, entry, action, now)
      ensures store.inbox
              == old(store.inbox)[entryId := old(store.inbox)[entryId].(status := StatusFor(action), updatedAt := now)]
      ensures old(Clean()) ==> Clean()
      ensures action == Reject && entry.title.Some? ==>
        var key := setup.suppressionKey(entry.scope, entry.scopeId, entry.memoryType, entry.title.value);
        && key in store.corrections
        && CorrectionRecorded(key, entry.scope, entry.scopeId, Some("rejected candidate"), now) in disk.log
    {
      hide CleanFiles, ItemRows, InPlace, Replayed, Tidy, SelfHashed, Format.Faithful;
      var review := InboxReviewed(entryId, StatusFor(action), None, now);
      Appending(disk.log, review);
      disk.Append(review);
      store.SetStatus(entryId, StatusFor(action), now);
      if action == Reject && entry.title.Some? {
        var key := setup.suppressionKey(entry.scope, entry.scopeId, entry.memoryType, entry.title.value);
        var correction := CorrectionRecorded(key, entry.scope, entry.scopeId, Some("rejected candidate"), now);
        Appending(disk.log, correction);
        disk.Append(correction);
        store.UpsertMemoryCorrection(key, CorrectionRow(entry.scope, entry.scopeId, Some("rejected candidate"), now));
      }
    }

    /**
     * Records what an extraction produced: nothing for an empty or secret-shaped outcome,
     * otherwise an inbox entry without body, the body in the log alone, and for a confident
     * update the item itself.
     */
    method RecordExtractionOutcome(session: string, covered: nat, outcome: ExtractionOutcome, call: Call)
      returns (result: Result<Option<string>, MemoryError>)
      requires Valid() && Fresh(call.operation)
      modifies disk, store
      ensures Valid()
      ensures old(OwnHashes()) ==> OwnHashes()
      ensures old(Clean()) ==> Clean()
      ensures setup.Dropped(outcome) ==> result == Ok(None) && unchanged(disk) && unchanged(store)
      ensures result == Ok(None) <==>
        match outcome
        case NoOp => true
        case BlockedOutcome => true
        case FailedOutcome(_) => false
        case CandidateOutcome(proposal) => setup.blocked(proposal.title) || setup.blocked(proposal.body)
        case ActiveUpdate(proposal) => setup.blocked(proposal.title) || setup.blocked(proposal.body)
      ensures !setup.Dropped(outcome) ==>
        var proposed := setup.Proposed(old(View()), session, covered, outcome, call);
        if outcome.ActiveUpdate? then
          && setup.Activated(proposed, View(), call.entryId, call, if result.Err? then Some(result.error) else None)
          && (result.Ok? ==> result == Ok(Some(call.entryId)))
        else result == Ok(Some(call.entryId)) && View() == proposed
      ensures store.cursors == old(store.cursors)
    {
      hide Setup.Activated, Setup.Proposed, Setup.ProposalData;
      hide SelfHashed, ItemRows, InPlace, Replayed, Tidy, Format.Faithful;
      if setup.Dropped(outcome) {
        return Ok(None);
      }
      Propose(session, covered, outcome, call);
      if outcome.ActiveUpdate? {
        var activated := ActivateInboxEntry(call.entryId, call);
        if activated.Err? {
          return Err(activated.error);
        }
      }
      result := Ok(Some(call.entryId));
    }

    /** The entry without its body, then the body in the log alone. */
    method Propose(session: string, covered: nat, outcome: ExtractionOutcome, call: Call)
      requires Valid() && Fresh(call.operation) && !setup.Dropped(outcome)
      modifies disk, store
      ensures Valid() && Fresh(call.operation) && disk.files == old(disk.files)
      ensures View() == setup.Proposed(old(View()), session, covered, outcome, call)
      ensures store.cursors == old(store.cursors)
      ensures old(Clean()) ==> Clean()
    {
      hide ItemRows, InPlace, Replayed, Tidy, SelfHashed, Format.Faithful, Setup.ProposalData, CleanFiles;
      var data := setup.ProposalData(session, covered, outcome, call);
      setup.ProposalDataEntry(session, covered, outcome, call);
      ProposalIsClean(setup, session, covered, outcome, call);
      Appending(disk.log, InboxProposed(data));
      disk.Append(InboxProposed(data));
      store.UpsertInboxEntry(call.entryId, FromProposal(data));
      if !outcome.FailedOutcome? {
        TidyNeutral(disk.log, ProposalBody(call.entryId, outcome.proposal.body));
        Note(ProposalBody(call.entryId, outcome.proposal.body));
      }
      assert disk.log == old(disk.log) + setup.OutcomeEvents(session, covered, outcome, call);
    }

    /** Moves a session's cursor, and never back. */
    method AdvanceCursor(session: string, lastExtractedSeq: nat, now: int)
      requires Valid()
      modifies disk`log, store
      ensures Valid()
      ensures
        var seqNo := if lastExtractedSeq <= Eligible.I64_MAX then lastExtractedSeq else Eligible.I64_MAX;
        && disk.log == old(disk.log) + [CursorAdvanced(session, seqNo, now)]
        && store.View() == UpsertCursor(old(store.View()), session, seqNo, now)
      ensures old(Clean()) ==> Clean()
    {
      hide CleanFiles, ItemRows, InPlace, Replayed, Tidy, SelfHashed, Format.Faithful;
      var seqNo := if lastExtractedSeq <= Eligible.I64_MAX then lastExtractedSeq else Eligible.I64_MAX;
      Appending(disk.log, CursorAdvanced(session, seqNo, now));
      disk.Append(CursorAdvanced(session, seqNo, now));
      store.UpsertMemoryCursor(session, seqNo, now);
    }

    /**
     * Removes an item and its content from the log. The log keeps its length and order up to
     * the tombstone, no snapshot of the item and no linked proposal body holds content, and the
     * tables stay as they were. Titles of linked proposals stay, and snapshots and proposals of
     * another item with the same id lose their content too.
     */
    method Purge(scope: MemoryScope, scopeId: Option<string>, id: string, fault: bool)
      returns (result: Result<bool, MemoryError>)
      requires Valid()
      modifies disk, store
      ensures Valid()
      ensures old(OwnHashes()) ==> OwnHashes()
      ensures old(Clean()) && !setup.blocked(REDACTED) ==> Clean()
      ensures
        var resolved := setup.Resolve(scope, scopeId);
        if resolved.Err? || !ValidId(id) || fault then
          && result == Err(if resolved.Err? then resolved.error else if !ValidId(id) then InvalidId else Io)
          && unchanged(disk) && unchanged(store)
        else
          var key := ItemKey(scope, resolved.value, id);
          var entries := LinkedEntries(old(store.inbox), id);
          && result == Ok(key in old(disk.files))
          && disk.files == old(disk.files) - {key}
          && store.View() == old(store.View())
          && disk.log == RedactAll(old(disk.log), id, entries) + [SensitivePurged(id)]
          && (forall i | 0 <= i < |disk.log| :: !HoldsContent(disk.log[i], id, entries))
          && var own := setup.OwnEntries(old(store.inbox), key);
          forall i | 0 <= i < |old(disk.log)| ::
            disk.log[i] != old(disk.log)[i]
            <==> OwnContent(old(disk.log)[i], key, own) || NamesakeContent(old(disk.log)[i], key, own, entries)
    {
      hide ItemRows, InPlace, Replayed, Tidy, SelfHashed, Format.Faithful, ValidId, Setup.Resolve, OwnContent,
           NamesakeContent, RedactPurged, CleanFiles, CleanLog;
      var resolved := setup.Resolve(scope, scopeId);
      if resolved.Err? {
        return Err(resolved.error);
      }
      var entries := LinkedEntries(store.inbox, id);
      if !ValidId(id) {
        return Err(InvalidId);
      }
      if fault {
        return Err(Io);
      }
      var key := ItemKey(scope, resolved.value, id);
      result := Ok(key in disk.files);
      RemoveKeeps(setup.format, disk.files, key);
      RemoveKeepsHashes(setup.format, disk.files, key);
      disk.files := disk.files - {key};
      store.DeleteMemoryItem(key);
      RewriteIsSafe(disk.log, id, entries);
      RewriteReachesNamesakes(disk.log, key, setup.OwnEntries(store.inbox, key), entries);
      if CleanFiles(setup, old(disk.files)) && CleanLog(setup.blocked, disk.log) && !setup.blocked(REDACTED) {
        CleanRemoval(setup, old(disk.files), key);
        CleanRewrite(setup, disk.log, id, entries);
      }
      RewriteTidy(disk.log, id, entries);
      var rewritten := Rewrite(disk.log, id, entries);
      disk.log := rewritten;
      TidyNeutral(disk.log, SensitivePurged(id));
      Note(SensitivePurged(id));
    }

    /** What a crash at any moment leaves intact: files in their place, operations ended at most once. */
    ghost predicate Recoverable()
      reads disk
    {
      setup.format.Faithful() && InPlace(setup.format, disk.files) && Tidy(disk.log)
    }

    /**
     * Rebuilds the index, whatever state it was in, from the files in the order they are
     * listed and from the log. Where files and log are recoverable, the index is right
     * afterwards. Every started operation then has exactly one terminal event; an index that
     * was right is unchanged, and a log that was settled too.
     */
    method Reload() returns (ghost listing: seq<ItemKey>)
      modifies disk`log, store
      ensures disk.files == old(disk.files) && IsListing(disk.files, listing)
      ensures
        var scanned := Scanned(setup.format, disk.files, listing);
        && disk.log == old(disk.log) + Terminals(old(disk.log), EndedOps(old(disk.log)), scanned)
        && store.items == TableOf(scanned)
      ensures store.View() == Replayed(old(disk.log)) == Replayed(disk.log)
      ensures Tidy(old(disk.log)) ==> Settled(disk.log)
      ensures old(Recoverable()) ==> Valid()
      ensures old(Valid()) ==> store.items == old(store.items) && store.View() == old(store.View())
      ensures Settled(old(disk.log)) ==> disk.log == old(disk.log)
    {
      hide ItemRows, InPlace, Tidy, Settled, Format.Faithful, Scanned, TableOf;
      listing := store.ReindexMemoryFromFiles(setup.format, disk);
      ghost var scanned := Scanned(setup.format, disk.files, listing);
      ghost var log := old(disk.log);
      TerminalsSilent(log, EndedOps(log), scanned);
      SilentTail(log, Terminals(log, EndedOps(log), scanned));
      if Tidy(log) {
        ReconcileSettles(log, scanned);
        SettledIsTidy(disk.log);
      }
      if Settled(log) {
        SettledNeedsNothing(log, scanned);
      }
    }
  }

  /**
   * A crash inside a write, between its intent and its terminal event, before or after the
   * file was replaced, leaves what a rebuild needs.
   */
  lemma {:induction false} InterruptedWriteIsRecoverable(
    setup: Setup, files: Files, log: seq<MemoryEvent>, operation: string, item: MemoryItem, written: bool)
    requires setup.format.Faithful() && InPlace(setup.format, files) && Tidy(log) && Starts(log, operation) == 0
    requires setup.WriteError(item, false).None?
    ensures Tidy(log + [WriteIntent(setup.format, operation, item)])
    ensures InPlace(setup.format, AfterWrite(setup.format, files, item, written))
    ensures SelfHashed(setup.format, files) ==> SelfHashed(setup.format, AfterWrite(setup.format, files, item, written))
  {
    hide SerializeItem, ParsedItem;
    TidyStart(log, WriteIntent(setup.format, operation, item));
    WriteIsSerialized(setup, item, false);
    WriteKeeps(setup.format, files, item);
    if SelfHashed(setup.format, files) {
      WriteKeepsHashes(setup.format, files, item);
    }
  }

  /** So does a crash inside a forget, before or after the file was removed. */
  lemma {:induction false} InterruptedForgetIsRecoverable(
    format: Format, files: Files, log: seq<MemoryEvent>, operation: string, key: ItemKey, removed: bool)
    requires InPlace(format, files) && Tidy(log) && Starts(log, operation) == 0
    ensures Tidy(log + ForgetEvents(format, files, key, operation))
    ensures InPlace(format, AfterRemoval(files, key, removed))
    ensures SelfHashed(format, files) ==> SelfHashed(format, AfterRemoval(files, key, removed))
  {
    hide ParsedItem, Tidy, ReadItem;
    RemoveKeeps(format, files, key);
    var prior := ReadItem(format, files, key);
    var intent := ForgetIntent(format, files, key, operation);
    if prior.Ok? {
      var snapshot := Snapshot(operation, prior.value, key.scopeId);
      TidyNeutral(log, snapshot);
      TidyStart(log + [snapshot], intent);
      Associative(log, [snapshot], [intent]);
    } else {
      TidyStart(log, intent);
      assert [] + [intent] == [intent];
    }
  }

  lemma {:induction false} WriteIsSerialized(setup: Setup, item: MemoryItem, fault: bool)
    requires setup.WriteError(item, fault).None?
    ensures SerializeItem(setup.format, item) == Ok(FileOf(setup.format, item))
  {
  }

  /**
   * A confident update recorded under a new entry becomes an item with the title, body and
   * type its worker proposed, provided they may be written and the scope is known.
   */
  lemma {:induction false} UpdateBecomesItem(
    setup: Setup, before: MemoryState, later: MemoryState, session: string, covered: nat, outcome: ExtractionOutcome,
    call: Call, failure: Option<MemoryError>)
    requires outcome.ActiveUpdate? && !setup.Dropped(outcome) && call.entryId !in before.tables.inbox
    requires setup.format.Faithful() && ValidId(call.itemId) && !call.fault
    requires setup.Refusal(outcome.proposal.title, outcome.proposal.body).None?
    requires setup.Resolve(outcome.proposal.scope, None).Ok?
    requires setup.Activated(setup.Proposed(before, session, covered, outcome, call), later,
                             call.entryId, call, failure)
    ensures failure.None?
    ensures
      var key := ItemKey(outcome.proposal.scope, setup.Resolve(outcome.proposal.scope, None).value, call.itemId);
      var read := ReadItem(setup.format, later.files, key);
      && read.Ok? && read.value.title == outcome.proposal.title && read.value.body == outcome.proposal.body
      && read.value.memoryType == outcome.proposal.memoryType && read.value.active
      && read.value.provenance == MemoryProvenance(Extraction, Some(session), None, Some(covered), call.now, call.now)
      && call.entryId in later.tables.inbox && later.tables.inbox[call.entryId].targetItemId == Some(call.itemId)
  {
    hide ParsedItem, ByteLength, ValidId, ValidTitle, Setup.Blocks, Setup.Resolve;
    var middle := setup.Proposed(before, session, covered, outcome, call);
    assert middle.log[|middle.log| - 1] == ProposalBody(call.entryId, outcome.proposal.body);
    var proposal := setup.ProposalOf(middle.tables.inbox, middle.log, call.entryId);
    assert proposal.Ok?;
    TopicFileRoundTrip(setup.format, proposal.value.Item(call.itemId, call.now));
  }

  /** What the inbox says of an outcome recorded under a new entry id, and the body in the log. */
  lemma {:induction false} RecordedRow(
    setup: Setup, before: MemoryState, session: string, covered: nat, outcome: ExtractionOutcome, call: Call)
    requires !setup.Dropped(outcome) && call.entryId !in before.tables.inbox
    ensures
      var later := setup.Proposed(before, session, covered, outcome, call);
      && call.entryId in later.tables.inbox
      && var row := later.tables.inbox[call.entryId];
      && row.sourceSessionId == Some(session) && row.sourceTurnEnd == Some(covered) && row.sourceTurnStart == None
      && row.targetItemId == None && row.createdAt == call.now && row.updatedAt == call.now
      && match outcome
         case FailedOutcome(reason) => row.status == Failed && row.reason == Some(reason) && row.title == None
         case CandidateOutcome(proposal) => row.status == Candidate && RowOfProposal(row, proposal)
         case ActiveUpdate(proposal) => row.status == ActiveAudit && RowOfProposal(row, proposal)
    ensures !outcome.FailedOutcome? ==>
              LatestBody(setup.Proposed(before, session, covered, outcome, call).log, call.entryId)
              == Some(outcome.proposal.body)
  {
    hide LatestBody;
    if !outcome.FailedOutcome? {
      LastBody(before.log + [InboxProposed(setup.ProposalData(session, covered, outcome, call))], call.entryId,
               outcome.proposal.body);
      Associative(before.log, [InboxProposed(setup.ProposalData(session, covered, outcome, call))],
                  [ProposalBody(call.entryId, outcome.proposal.body)]);
    }
  }

  lemma {:induction false} LastBody(log: seq<MemoryEvent>, entryId: string, body: string)
    ensures LatestBody(log + [ProposalBody(entryId, body)], entryId) == Some(body)
  {
  }

  /** Scope, type, title and confidence as proposed; the body is never in the inbox. */
  predicate RowOfProposal(row: InboxRow, proposal: MemoryProposal) {
    && row.scope == proposal.scope && row.memoryType == Some(proposal.memoryType)
    && row.title == Some(proposal.title) && row.confidence == Some(proposal.confidence) && row.reason == None
  }

  /**
   * Under a new entry id, whatever is not dropped is in the inbox afterwards. A run reports an
   * entry only if, for a confident update, the item could be written as well.
   */
  lemma {:induction false} ReportedExactly(
    setup: Setup, before: MemoryState, later: MemoryState, session: string, covered: nat, outcome: ExtractionOutcome,
    call: Call, created: bool)
    requires setup.Recorded(before, later, session, covered, outcome, call, created)
    requires call.entryId !in before.tables.inbox
    ensures call.entryId in later.tables.inbox <==> !setup.Dropped(outcome)
    ensures created <==>
              && !setup.Dropped(outcome)
              && (outcome.ActiveUpdate? ==>
                    && setup.Refusal(outcome.proposal.title, outcome.proposal.body).None?
                    && setup.Resolve(outcome.proposal.scope, None).Ok?
                    && ValidId(call.itemId) && !call.fault)
  {
    hide ByteLength, ValidId, ValidTitle, Setup.Resolve, Setup.PriorSnapshot, Setup.WriteEvents, FileOf;
    if !setup.Dropped(outcome) {
      var middle := setup.Proposed(before, session, covered, outcome, call);
      if outcome.ActiveUpdate? {
        assert middle.log[|middle.log| - 1] == ProposalBody(call.entryId, outcome.proposal.body);
      }
    }
  }

  lemma {:induction false} SettledIsTidy(log: seq<MemoryEvent>)
    requires Settled(log)
    ensures Tidy(log)
  {
  }

  lemma {:induction false} RewriteTidy(log: seq<MemoryEvent>, itemId: string, entries: set<string>)
    requires Tidy(log)
    ensures Tidy(RedactAll(log, itemId, entries))
  {
    RewriteIsSafe(log, itemId, entries);
  }
}
