// Extraction runs interleaved with the coordinator: run_session and run_inner of
// src/memory/scheduler.rs as steps, over every run of both.
module Delivery {
  import opened Common
  import opened Request
  import opened Turns
  import opened SessionLog
  import opened Replay
  import opened LogInvariant
  import opened World
  import opened WorldSteps
  import opened Eligible

  /** How far the run in flight for a session has come. */
  datatype Stage =
    | Claimed
    | CursorRead(cursor: int)
    | Extracting(batch: seq<HistoryRound>)

  /**
   * The coordinator, the cursor rows, the runs in flight, what each session's extractor was
   * given so far, and the sessions whose run was cut off by the end of a process.
   */
  datatype Pipeline = Pipeline(
    world: World,
    cursors: map<SessionId, int>,
    running: map<SessionId, Stage>,
    batches: map<SessionId, seq<seq<HistoryRound>>>,
    cut: set<SessionId>)

  datatype Move =
    | Coordinate(action: Action)
    | Claim(session: SessionId)
    | ReadCursor(session: SessionId)
    | Gather(session: SessionId)
    | Finish(session: SessionId)

  const FRESH := Pipeline(START, map[], map[], map[], {})

  function CursorAt(cursors: map<SessionId, int>, session: SessionId): int {
    if session in cursors then cursors[session] else -1
  }

  ghost function RoundsAt(p: Pipeline, session: SessionId): seq<HistoryRound> {
    if session in p.world.Logs() then LogRounds(p.world.Logs()[session]) else []
  }

  function BatchesAt(p: Pipeline, session: SessionId): seq<seq<HistoryRound>> {
    HeadsAt(p.batches, session)
  }

  function StageAt(p: Pipeline, session: SessionId): Option<Stage> {
    if session in p.running then Some(p.running[session]) else None
  }

  /** A cursor row never moves back. */
  function Advanced(cursors: map<SessionId, int>, session: SessionId, seqNo: nat): map<SessionId, int> {
    var cursor := CursorAt(cursors, session);
    cursors[session := if cursor < seqNo then seqNo else cursor]
  }

  ghost predicate Possible(p: Pipeline, move: Move) {
    match move
    case Coordinate(action) => Legal(p.world, action)
    case Claim(_) => true
    case ReadCursor(session) => StageAt(p, session) == Some(Claimed)
    case Gather(session) => session in p.running && p.running[session].CursorRead?
    case Finish(session) =>
      session in p.running && p.running[session].Extracting? && p.running[session].batch != []
  }

  ghost function Moved(p: Pipeline, move: Move): Pipeline
    requires Possible(p, move)
  {
    match move
    case Coordinate(action) =>
      var later := p.(world := Step(p.world, action));
      if !action.Restart? then later
      else later.(running := map[],
                  cut := p.cut + set session | session in p.running && p.running[session].Extracting?)
    case Claim(session) => if session in p.running then p else p.(running := p.running[session := Claimed])
    case ReadCursor(session) => p.(running := p.running[session := CursorRead(CursorAt(p.cursors, session))])
    case Gather(session) =>
      var rounds := After(RoundsAt(p, session), p.running[session].cursor);
      if rounds == [] then p.(running := p.running - {session})
      else p.(running := p.running[session := Extracting(rounds)],
              batches := p.batches[session := BatchesAt(p, session) + [rounds]])
    case Finish(session) =>
      var batch := p.running[session].batch;
      p.(cursors := Advanced(p.cursors, session, batch[|batch| - 1].seqNo), running := p.running - {session})
  }

  ghost predicate PossibleRun(p: Pipeline, moves: seq<Move>)
    decreases |moves|
  {
    moves == [] || (Possible(p, moves[0]) && PossibleRun(Moved(p, moves[0]), moves[1..]))
  }

  ghost function AfterMoves(p: Pipeline, moves: seq<Move>): Pipeline
    requires PossibleRun(p, moves)
    decreases |moves|
  {
    if moves == [] then p else AfterMoves(Moved(p, moves[0]), moves[1..])
  }

  // ---- The invariant ----

  ghost predicate StandsOn(rounds: seq<HistoryRound>, cursor: int) {
    cursor < 0 || exists r :: r in rounds && r.seqNo == cursor
  }

  /** What the extractor was given is every completed round up to the cursor, or up to the batch in work. */
  ghost predicate Served(
      rounds: seq<HistoryRound>, cursor: int, stage: Option<Stage>, batches: seq<seq<HistoryRound>>) {
    && Ascending(rounds)
    && StandsOn(rounds, cursor)
    && (stage.Some? && stage.value.CursorRead? ==> stage.value.cursor == cursor)
    && if stage.Some? && stage.value.Extracting? then
         var batch := stage.value.batch;
         && batch != []
         && batch[|batch| - 1] in rounds
         && cursor < batch[|batch| - 1].seqNo
         && batch <= After(rounds, cursor)
         && UpTo(rounds, batch[|batch| - 1].seqNo) == UpTo(rounds, cursor) + batch == Flatten(batches)
       else UpTo(rounds, cursor) == Flatten(batches)
  }

  ghost predicate ServedAt(p: Pipeline, session: SessionId) {
    Served(RoundsAt(p, session), CursorAt(p.cursors, session), StageAt(p, session), BatchesAt(p, session))
  }

  ghost predicate PipelineInv(p: Pipeline) {
    Inv(p.world) && forall session :: session !in p.cut ==> ServedAt(p, session)
  }

  lemma {:induction false} NothingServed()
    ensures PipelineInv(FRESH)
  {
    hide Inv;
    StartInv();
    forall session: SessionId
      ensures ServedAt(FRESH, session)
    {
      assert RoundsAt(FRESH, session) == [] && BatchesAt(FRESH, session) == [];
    }
  }

  /** New rounds lie beyond the cursor, so what was served still is everything up to it. */
  lemma {:induction false} ServedMore(
    rounds: seq<HistoryRound>, more: seq<HistoryRound>, cursor: int, stage: Option<Stage>,
    batches: seq<seq<HistoryRound>>)
    requires Served(rounds, cursor, stage, batches) && Ascending(rounds + more)
    ensures Served(rounds + more, cursor, stage, batches)
  {
    hide UpTo, After, Flatten, Ascending;
    UpToStays(rounds, more, cursor);
    if stage.Some? && stage.value.Extracting? {
      var batch := stage.value.batch;
      UpToStays(rounds, more, batch[|batch| - 1].seqNo);
      AfterConcat(rounds, more, cursor);
    }
  }

  lemma {:induction false} RoundsGrow(p: Pipeline, action: Action, session: SessionId)
    requires Inv(p.world) && Legal(p.world, action)
    ensures Inv(Step(p.world, action))
    ensures
      var later := p.(world := Step(p.world, action));
      RoundsAt(p, session) <= RoundsAt(later, session) && Ascending(RoundsAt(later, session))
  {
    hide Core, Step, Fold, Legal;
    StepKeeps(p.world, action);
    var later := Step(p.world, action);
    if session in later.Logs() {
      LogKept(later, session);
      LogAscending(later.Logs()[session], later.submitted.Keys, HeadsAt(later.heads, session));
    }
  }

  lemma {:induction false} LogAscending(log: seq<LogEvent>, ids: set<TurnId>, heads: seq<seq<HistoryRound>>)
    requires LogInv(log, ids, heads)
    ensures Ascending(LogRounds(log))
  {
    RoundsAscending(Fold(log).turns);
  }

  lemma {:induction false} CoordinateServes(p: Pipeline, action: Action, session: SessionId)
    requires Inv(p.world) && Legal(p.world, action) && ServedAt(p, session)
    ensures ServedAt(p.(world := Step(p.world, action)), session)
  {
    hide Inv, Legal, Step, Served;
    var later := p.(world := Step(p.world, action));
    RoundsGrow(p, action, session);
    var rounds, grown := RoundsAt(p, session), RoundsAt(later, session);
    assert grown == rounds + grown[|rounds|..];
    ServedMore(rounds, grown[|rounds|..], CursorAt(p.cursors, session), StageAt(p, session), BatchesAt(p, session));
  }

  /** A run that is not extracting may vanish without a trace. */
  lemma {:induction false} RunForgotten(
    rounds: seq<HistoryRound>, cursor: int, stage: Option<Stage>, batches: seq<seq<HistoryRound>>)
    requires Served(rounds, cursor, stage, batches) && (stage.None? || !stage.value.Extracting?)
    ensures Served(rounds, cursor, None, batches) && Served(rounds, cursor, Some(Claimed), batches)
    ensures Served(rounds, cursor, Some(CursorRead(cursor)), batches)
  {
  }

  lemma {:induction false} BatchGathered(rounds: seq<HistoryRound>, cursor: int, batches: seq<seq<HistoryRound>>)
    requires Served(rounds, cursor, Some(CursorRead(cursor)), batches) && After(rounds, cursor) != []
    ensures Served(rounds, cursor, Some(Extracting(After(rounds, cursor))), batches + [After(rounds, cursor)])
  {
    hide UpTo, After, Flatten;
    UpToAdvances(rounds, cursor);
    FlattenSnoc(batches, After(rounds, cursor));
  }

  lemma {:induction false} BatchFinished(
    rounds: seq<HistoryRound>, cursor: int, batch: seq<HistoryRound>, batches: seq<seq<HistoryRound>>)
    requires Served(rounds, cursor, Some(Extracting(batch)), batches)
    ensures Served(rounds, batch[|batch| - 1].seqNo, None, batches)
  {
  }

  lemma {:induction false} CoordinateKeeps(p: Pipeline, action: Action)
    requires PipelineInv(p) && Legal(p.world, action)
    ensures PipelineInv(Moved(p, Coordinate(action)))
  {
    hide Inv, Legal, Step, Served;
    RoundsGrow(p, action, "");
    var later := Moved(p, Coordinate(action));
    forall session | session !in later.cut
      ensures ServedAt(later, session)
    {
      CoordinateServes(p, action, session);
      if action.Restart? {
        RunForgotten(RoundsAt(later, session), CursorAt(p.cursors, session),
                      StageAt(p, session), BatchesAt(p, session));
      }
    }
  }

  /** A scheduler step, seen from the session it is for. */
  lemma {:induction false} OwnStep(p: Pipeline, move: Move)
    requires !move.Coordinate? && Possible(p, move) && ServedAt(p, move.session)
    ensures ServedAt(Moved(p, move), move.session)
  {
    hide Served;
    var session := move.session;
    var rounds, cursor := RoundsAt(p, session), CursorAt(p.cursors, session);
    var stage, batches := StageAt(p, session), BatchesAt(p, session);
    StageIsCurrent(rounds, cursor, stage, batches);
    if move.Finish? {
      BatchFinished(rounds, cursor, stage.value.batch, batches);
    } else if stage.None? || !stage.value.Extracting? {
      RunForgotten(rounds, cursor, stage, batches);
      if move.Gather? && After(rounds, cursor) != [] {
        BatchGathered(rounds, cursor, batches);
      }
    }
  }

  lemma {:induction false} StageIsCurrent(
    rounds: seq<HistoryRound>, cursor: int, stage: Option<Stage>, batches: seq<seq<HistoryRound>>)
    requires Served(rounds, cursor, stage, batches)
    ensures stage.Some? && stage.value.CursorRead? ==> stage.value.cursor == cursor
    ensures stage.Some? && stage.value.Extracting? ==>
              stage.value.batch != [] && cursor < stage.value.batch[|stage.value.batch| - 1].seqNo
  {
  }

  lemma {:induction false} OtherSession(p: Pipeline, move: Move, session: SessionId)
    requires !move.Coordinate? && Possible(p, move) && session != move.session && ServedAt(p, session)
    ensures ServedAt(Moved(p, move), session)
  {
    hide Served;
  }

  lemma {:induction false} MoveKeeps(p: Pipeline, move: Move)
    requires PipelineInv(p) && Possible(p, move)
    ensures PipelineInv(Moved(p, move))
  {
    hide Inv, ServedAt;
    if move.Coordinate? {
      CoordinateKeeps(p, move.action);
    } else {
      var later := Moved(p, move);
      forall session | session !in later.cut
        ensures ServedAt(later, session)
      {
        if session == move.session {
          OwnStep(p, move);
        } else {
          OtherSession(p, move, session);
        }
      }
    }
  }

  lemma {:induction false} MovesKeep(p: Pipeline, moves: seq<Move>)
    requires PipelineInv(p) && PossibleRun(p, moves)
    ensures PipelineInv(AfterMoves(p, moves))
    decreases |moves|
  {
    hide PipelineInv, Moved;
    if moves != [] {
      MoveKeeps(p, moves[0]);
      MovesKeep(Moved(p, moves[0]), moves[1..]);
    }
  }

  /**
   * Over any interleaving of the coordinator with extraction runs, a session whose run was
   * never cut off by the end of a process has handed every completed round up to its cursor,
   * or up to the batch in work, to the extractor exactly once and in order: the batches,
   * one after the other, are strictly ascending and are those rounds.
   */
  lemma {:induction false} ExactlyOnce(moves: seq<Move>, session: SessionId)
    requires PossibleRun(FRESH, moves) && session !in AfterMoves(FRESH, moves).cut
    ensures
      var p := AfterMoves(FRESH, moves);
      var working := session in p.running && p.running[session].Extracting? && p.running[session].batch != [];
      var high := if working then p.running[session].batch[|p.running[session].batch| - 1].seqNo
                  else CursorAt(p.cursors, session);
      && Flatten(BatchesAt(p, session)) == UpTo(RoundsAt(p, session), high)
      && Ascending(Flatten(BatchesAt(p, session)))
  {
    hide Inv, AfterMoves, PossibleRun, UpTo, Flatten, Ascending;
    var p := AfterMoves(FRESH, moves);
    NothingServed();
    MovesKeep(FRESH, moves);
    assert ServedAt(p, session);
    var working := session in p.running && p.running[session].Extracting? && p.running[session].batch != [];
    var high := if working then p.running[session].batch[|p.running[session].batch| - 1].seqNo
                else CursorAt(p.cursors, session);
    UpToAscending(RoundsAt(p, session), high);
  }

  lemma {:induction false} UpToAscending(rounds: seq<HistoryRound>, cursor: int)
    requires Ascending(rounds)
    ensures Ascending(UpTo(rounds, cursor)) && forall r | r in UpTo(rounds, cursor) :: r in rounds
  {
    if rounds != [] {
      AscendingFront(rounds);
      UpToAscending(rounds[..|rounds| - 1], cursor);
      assert rounds == rounds[..|rounds| - 1] + [rounds[|rounds| - 1]];
    }
  }

  /**
   * The exception: when the process ends while a batch is in work, the cursor has not moved
   * and the next run gathers the same rounds again, before any newer one.
   */
  lemma {:induction false} CutRunRepeats(moves: seq<Move>, session: SessionId)
    requires PossibleRun(FRESH, moves)
    ensures Possible(AfterMoves(FRESH, moves), Coordinate(Restart))
    ensures
      var p := AfterMoves(FRESH, moves);
      var later := Moved(p, Coordinate(Restart));
      session !in p.cut && session in p.running && p.running[session].Extracting? ==>
        && session in later.cut && session !in later.running
        && CursorAt(later.cursors, session) == CursorAt(p.cursors, session)
        && p.running[session].batch != []
        && p.running[session].batch <= After(RoundsAt(later, session), CursorAt(later.cursors, session))
  {
    hide Inv, Ascending, After, UpTo, AfterMoves, PossibleRun, Flatten, WorkerPlan;
    var p := AfterMoves(FRESH, moves);
    NothingServed();
    MovesKeep(FRESH, moves);
    if session !in p.cut {
      assert ServedAt(p, session);
    }
  }

  // ---- Every session, cut or not ----

  ghost predicate Among(some: seq<HistoryRound>, rounds: seq<HistoryRound>) {
    forall r | r in some :: r in rounds
  }

  /** Every round up to the cursor, or up to the batch in work, was handed over, and nothing else was. */
  ghost predicate Delivered(
      rounds: seq<HistoryRound>, cursor: int, stage: Option<Stage>, batches: seq<seq<HistoryRound>>) {
    && Ascending(rounds) && StandsOn(rounds, cursor)
    && Among(Flatten(batches), rounds)
    && Among(UpTo(rounds, cursor), Flatten(batches))
    && (stage.Some? && stage.value.CursorRead? ==> stage.value.cursor == cursor)
    && (stage.Some? && stage.value.Extracting? ==>
          var batch := stage.value.batch;
          && batch != [] && batch[|batch| - 1] in rounds && cursor < batch[|batch| - 1].seqNo
          && Among(UpTo(rounds, batch[|batch| - 1].seqNo), Flatten(batches)))
  }

  ghost predicate DeliveredAt(p: Pipeline, session: SessionId) {
    Delivered(RoundsAt(p, session), CursorAt(p.cursors, session), StageAt(p, session), BatchesAt(p, session))
  }

  lemma {:induction false} DeliveredMore(
    rounds: seq<HistoryRound>, more: seq<HistoryRound>, cursor: int, stage: Option<Stage>,
    batches: seq<seq<HistoryRound>>)
    requires Delivered(rounds, cursor, stage, batches) && Ascending(rounds + more)
    ensures Delivered(rounds + more, cursor, stage, batches) && Delivered(rounds + more, cursor, None, batches)
  {
    hide UpTo, Flatten, Ascending;
    UpToStays(rounds, more, cursor);
    if stage.Some? && stage.value.Extracting? {
      UpToStays(rounds, more, stage.value.batch[|stage.value.batch| - 1].seqNo);
    }
  }

  lemma {:induction false} BatchDelivered(rounds: seq<HistoryRound>, cursor: int, batches: seq<seq<HistoryRound>>)
    requires Delivered(rounds, cursor, Some(CursorRead(cursor)), batches) && After(rounds, cursor) != []
    ensures Delivered(rounds, cursor, Some(Extracting(After(rounds, cursor))), batches + [After(rounds, cursor)])
  {
    hide UpTo, After, Flatten;
    UpToAdvances(rounds, cursor);
    FlattenSnoc(batches, After(rounds, cursor));
    AfterMembers(rounds, cursor);
  }

  /** A scheduler step, seen from the session it is for. */
  lemma {:induction false} OwnDelivery(p: Pipeline, move: Move)
    requires !move.Coordinate? && Possible(p, move) && DeliveredAt(p, move.session)
    ensures DeliveredAt(Moved(p, move), move.session)
  {
    hide UpTo, After, Flatten, Ascending;
    var session := move.session;
    var rounds, cursor := RoundsAt(p, session), CursorAt(p.cursors, session);
    if move.Gather? && After(rounds, cursor) != [] {
      BatchDelivered(rounds, cursor, BatchesAt(p, session));
    }
  }

  lemma {:induction false} OtherDelivery(p: Pipeline, move: Move, session: SessionId)
    requires !move.Coordinate? && Possible(p, move) && session != move.session && DeliveredAt(p, session)
    ensures DeliveredAt(Moved(p, move), session)
  {
    hide Delivered;
  }

  lemma {:induction false} CoordinateDelivers(p: Pipeline, action: Action, session: SessionId)
    requires Inv(p.world) && Legal(p.world, action) && DeliveredAt(p, session)
    ensures DeliveredAt(Moved(p, Coordinate(action)), session)
  {
    hide Inv, Legal, Step, Delivered;
    var later := p.(world := Step(p.world, action));
    RoundsGrow(p, action, session);
    var rounds, grown := RoundsAt(p, session), RoundsAt(later, session);
    assert grown == rounds + grown[|rounds|..];
    DeliveredMore(rounds, grown[|rounds|..], CursorAt(p.cursors, session), StageAt(p, session), BatchesAt(p, session));
  }

  lemma {:induction false} DeliveredOnRuns(p: Pipeline, moves: seq<Move>, session: SessionId)
    requires Inv(p.world) && DeliveredAt(p, session) && PossibleRun(p, moves)
    ensures DeliveredAt(AfterMoves(p, moves), session)
    decreases |moves|
  {
    hide Inv, DeliveredAt, Step;
    if moves != [] {
      if moves[0].Coordinate? {
        StepKeeps(p.world, moves[0].action);
        CoordinateDelivers(p, moves[0].action, session);
      } else if session == moves[0].session {
        OwnDelivery(p, moves[0]);
      } else {
        OtherDelivery(p, moves[0], session);
      }
      DeliveredOnRuns(Moved(p, moves[0]), moves[1..], session);
    }
  }

  /**
   * For every session, whether or not a run of it was cut off: each completed round up to its
   * cursor was handed to the extractor, and nothing but completed rounds of it ever was.
   */
  lemma {:induction false} AtLeastOnce(moves: seq<Move>, session: SessionId)
    requires PossibleRun(FRESH, moves)
    ensures
      var p := AfterMoves(FRESH, moves);
      && (forall r | r in RoundsAt(p, session) && r.seqNo <= CursorAt(p.cursors, session) ::
            r in Flatten(BatchesAt(p, session)))
      && forall r | r in Flatten(BatchesAt(p, session)) :: r in RoundsAt(p, session)
  {
    hide Inv, AfterMoves, PossibleRun, Flatten, Ascending;
    var p := AfterMoves(FRESH, moves);
    StartInv();
    NothingDelivered(session);
    DeliveredOnRuns(FRESH, moves, session);
    UpToMembers(RoundsAt(p, session), CursorAt(p.cursors, session));
  }

  lemma {:induction false} NothingDelivered(session: SessionId)
    ensures DeliveredAt(FRESH, session)
  {
    assert RoundsAt(FRESH, session) == [] && BatchesAt(FRESH, session) == [];
  }

  lemma {:induction false} UpToMembers(rounds: seq<HistoryRound>, cursor: int)
    ensures forall r :: r in UpTo(rounds, cursor) <==> r in rounds && r.seqNo <= cursor
  {
    if rounds != [] {
      UpToMembers(rounds[..|rounds| - 1], cursor);
      assert rounds == rounds[..|rounds| - 1] + [rounds[|rounds| - 1]];
    }
  }
}
