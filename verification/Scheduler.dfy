// One extraction run: run_session, run_inner, claim and release in src/memory/scheduler.rs.
module Scheduler {
  import opened Request
  import opened SessionLog
  import opened LogInvariant
  import opened Lifecycle
  import opened Reconcile
  import opened TopicFiles
  import opened MemoryService
  import opened Eligible
  import Delivery

  datatype ExtractionRun =
    | Coalesced
    | NoEligibleTurns
    | Ran(outcome: string, coveredThroughSeq: nat, createdInbox: bool)

  function OutcomeLabel(outcome: ExtractionOutcome): string {
    match outcome
    case NoOp => "noop"
    case CandidateOutcome(_) => "candidate"
    case ActiveUpdate(_) => "active_update"
    case BlockedOutcome => "blocked_sensitive"
    case FailedOutcome(_) => "failed"
  }

  /** The label names the outcome. */
  lemma {:induction false} LabelsName(outcome: ExtractionOutcome)
    ensures OutcomeLabel(outcome) == "noop" <==> outcome.NoOp?
    ensures OutcomeLabel(outcome) == "candidate" <==> outcome.CandidateOutcome?
    ensures OutcomeLabel(outcome) == "active_update" <==> outcome.ActiveUpdate?
    ensures OutcomeLabel(outcome) == "blocked_sensitive" <==> outcome.BlockedOutcome?
    ensures OutcomeLabel(outcome) == "failed" <==> outcome.FailedOutcome?
  {
    assert |"noop"| == 4 && |"failed"| == 6 && |"candidate"| == 9 && |"active_update"| == 13;
  }

  /** The session's cursor row, or -1. */
  function CursorOf(cursors: map<string, CursorRow>, session: string): int {
    if session in cursors then cursors[session].lastExtractedSeq else -1
  }

  method MaxSeq(rounds: seq<HistoryRound>) returns (max: nat)
    requires rounds != []
    ensures exists r :: r in rounds && r.seqNo == max
    ensures forall r | r in rounds :: r.seqNo <= max
  {
    max := rounds[0].seqNo;
    for i := 1 to |rounds|
      invariant exists r :: r in rounds && r.seqNo == max
      invariant forall j | 0 <= j < i :: rounds[j].seqNo <= max
    {
      if rounds[i].seqNo > max {
        max := rounds[i].seqNo;
        assert rounds[i] in rounds;
      }
    }
  }

  class ExtractionScheduler {
    var inFlight: set<string>

    constructor ()
      ensures inFlight == {}
    {
      inFlight := {};
    }

    method Claim(session: string) returns (claimed: bool)
      modifies this
      ensures claimed <==> session !in old(inFlight)
      ensures inFlight == old(inFlight) + {session}
    {
      claimed := session !in inFlight;
      inFlight := inFlight + {session};
    }

    method Release(session: string)
      modifies this
      ensures inFlight == old(inFlight) - {session}
    {
      inFlight := inFlight - {session};
    }

    /**
     * Over a log as the coordinator writes it, a run hands exactly the completed rounds
     * beyond the cursor to the extractor and moves the cursor onto the last of them,
     * whatever came of it. A session that is in flight is left alone.
     */
    method RunSession(
      service: MemoryService, session: string, log: seq<LogEvent>,
      extract: seq<HistoryRound> -> ExtractionOutcome, call: Call)
      returns (run: ExtractionRun)
      requires service.Valid() && service.Fresh(call.operation)
      modifies this, service.disk, service.store
      ensures service.Valid() && inFlight == old(inFlight)
      ensures session in old(inFlight) ==> run == Coalesced && unchanged(service.disk) && unchanged(service.store)
      ensures session !in old(inFlight) && Orderly(log) ==>
        var batch := After(LogRounds(log), CursorOf(old(service.store.cursors), session));
        if batch == [] then
          run == NoEligibleTurns && unchanged(service.disk) && unchanged(service.store)
        else
          && run.Ran? && run.outcome == OutcomeLabel(extract(batch))
          && run.coveredThroughSeq == batch[|batch| - 1].seqNo
          && CursorOf(service.store.cursors, session) == batch[|batch| - 1].seqNo
          && service.setup.Extracted(old(service.View()), service.View(), session, batch[|batch| - 1].seqNo,
                                     extract(batch), call, run.createdInbox)
      ensures forall other | other != session ::
        CursorOf(service.store.cursors, other) == CursorOf(old(service.store.cursors), other)
    {
      var claimed := Claim(session);
      if !claimed {
        assert inFlight == old(inFlight);
        return Coalesced;
      }
      run := RunInner(service, session, log, extract, call);
      Release(session);
      assert inFlight == old(inFlight);
    }

    method RunInner(
      service: MemoryService, session: string, log: seq<LogEvent>,
      extract: seq<HistoryRound> -> ExtractionOutcome, call: Call)
      returns (run: ExtractionRun)
      requires service.Valid() && service.Fresh(call.operation)
      modifies service.disk, service.store
      ensures service.Valid()
      ensures Orderly(log) ==>
        var batch := After(LogRounds(log), CursorOf(old(service.store.cursors), session));
        if batch == [] then
          run == NoEligibleTurns && unchanged(service.disk) && unchanged(service.store)
        else
          && run.Ran? && run.outcome == OutcomeLabel(extract(batch))
          && run.coveredThroughSeq == batch[|batch| - 1].seqNo
          && CursorOf(service.store.cursors, session) == batch[|batch| - 1].seqNo
          && service.setup.Extracted(old(service.View()), service.View(), session, batch[|batch| - 1].seqNo,
                                     extract(batch), call, run.createdInbox)
      ensures forall other | other != session ::
        CursorOf(service.store.cursors, other) == CursorOf(old(service.store.cursors), other)
    {
      hide Orderly, LogRounds, After, Sorted, Gathered, Setup.Activated, Setup.Proposed, Setup.Dropped;
      hide ItemRows, InPlace, Replayed, Tidy, SelfHashed, CleanFiles, CleanLog, OutcomeLabel;
      var cursor := CursorOf(service.store.cursors, session);
      var rounds := EligibleRounds(log, cursor);
      if rounds == [] {
        return NoEligibleTurns;
      }
      var maxSeq := MaxSeq(rounds);
      MaxIsLast(rounds, maxSeq);
      var outcome := extract(rounds);
      var recorded := service.RecordExtractionOutcome(session, maxSeq, outcome, call);
      ghost var middle := service.View();
      service.AdvanceCursor(session, maxSeq, call.now);
      run := Ran(OutcomeLabel(outcome), maxSeq, recorded.Ok? && recorded.value.Some?);
      EligibleBounds(log, cursor, rounds);
      assert service.setup.Recorded(old(service.View()), middle, session, maxSeq, outcome, call, run.createdInbox);
    }
  }

  lemma {:induction false} MaxIsLast(rounds: seq<HistoryRound>, max: nat)
    requires Sorted(rounds) && rounds != []
    requires exists r :: r in rounds && r.seqNo == max
    requires forall r | r in rounds :: r.seqNo <= max
    ensures max == rounds[|rounds| - 1].seqNo
  {
    var r :| r in rounds && r.seqNo == max;
    var i :| 0 <= i < |rounds| && rounds[i] == r;
    assert rounds[|rounds| - 1] in rounds;
  }

  /** What is eligible lies beyond the cursor and within what a cursor holds. */
  lemma {:induction false} EligibleBounds(log: seq<LogEvent>, cursor: int, rounds: seq<HistoryRound>)
    requires Orderly(log) ==> rounds == After(LogRounds(log), cursor)
    ensures Orderly(log) ==> forall r | r in rounds :: IsAfter(r.seqNo, cursor)
  {
    if Orderly(log) {
      AfterMembers(LogRounds(log), cursor);
    }
  }

  /** The cursor rows of the index move as the delivery model says. */
  lemma {:induction false} CursorMovesAsModelled(
      tables: Lifecycle, session: string, seqNo: nat, at: int, cursors: map<string, int>)
    requires forall other :: CursorOf(tables.cursors, other) == Delivery.CursorAt(cursors, other)
    ensures forall other :: CursorOf(UpsertCursor(tables, session, seqNo, at).cursors, other)
                            == Delivery.CursorAt(Delivery.Advanced(cursors, session, seqNo), other)
  {
    assert CursorOf(tables.cursors, session) == Delivery.CursorAt(cursors, session);
    forall other: string
      ensures CursorOf(UpsertCursor(tables, session, seqNo, at).cursors, other)
              == Delivery.CursorAt(Delivery.Advanced(cursors, session, seqNo), other)
    {
      assert CursorOf(tables.cursors, other) == Delivery.CursorAt(cursors, other);
    }
  }
}
