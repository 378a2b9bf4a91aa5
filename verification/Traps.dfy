// Where plausible claims about the coordinator fail, with the exact extent of each failure.
module Traps {
  import opened Common
  import opened Request
  import opened Turns
  import opened SessionLog
  import opened Replay
  import opened LoopSpec
  import opened QueueShape
  import opened LogInvariant
  import opened Accounting
  import opened Attachment
  import opened World
  import opened WorldSteps

  // ---- A clear may settle a turn in a log that never enqueued it ----

  lemma {:induction false} CancelUnsettledCounts(disk: Disk, turns: seq<Turn>, id: TurnId)
    requires disk.current.Some? && disk.current.value in disk.logs && Increasing(turns)
    ensures disk.CancelUnsettled(turns).current == disk.current
    ensures disk.current.value in disk.CancelUnsettled(turns).logs
    ensures SettleCount(disk.CancelUnsettled(turns).logs[disk.current.value], id)
            == SettleCount(disk.logs[disk.current.value], id)
               + if exists t :: t in turns && t.id == id && t.state != Settled then 1 else 0
    decreases |turns|
  {
    if turns != [] {
      var front, last := turns[..|turns| - 1], turns[|turns| - 1];
      assert turns == front + [last];
      CancelUnsettledCounts(disk, front, id);
      var before := disk.CancelUnsettled(front);
      FoldSnoc(before.logs[disk.current.value], SettledEvent(last.id, CANCELLED));
      if last.id == id {
        forall t | t in front
          ensures t.id != id
        {
          var i :| 0 <= i < |front| && front[i] == t;
          assert turns[i] == t && turns[|turns| - 1] == last;
        }
      }
    }
  }

  /**
   * A clear settles every open turn in the attached log, whether or not that log ever
   * enqueued it. The settle is a stray one exactly for the abandoned turn of an earlier
   * session; it changes nothing that is read back.
   */
  lemma {:induction false} ClearSettlesInAttachedLog(w: World, session: SessionId, turn: Turn)
    requires Inv(w) && w.loop.disk.current == Some(session) && turn in w.Turns() && turn.state != Settled
    ensures
      var log := w.Logs()[session];
      var later := ClearSession(w.loop).disk.logs;
      && session in later
      && SettleCount(later[session], turn.id) == SettleCount(log, turn.id) + 1
      && (Absent(Fold(log).turns, turn.id) <==> turn.id !in w.loop.disk.turnSessions)
      && (turn.id !in w.loop.disk.turnSessions ==> turn.state == Active && w.loop.cancelling == Some(turn.id))
  {
    hide LogsKept, ConfigsKept, StoppedKept, Accounted, DoomKept, Fold, CompletedRounds;
    CoreOrdered(w);
    OrderedIncreasing(w.Turns());
    CancelUnsettledCounts(w.loop.disk, w.Turns(), turn.id);
    assert Linked(Fold(w.Logs()[session]).turns, w.loop.disk.turnSessions, session, w.loop.cancelling, turn);
  }

  const FIRST := Do(Enqueue("a", "p", Some("c")), Env("s1", NoFault))
  const SECOND := Do(Enqueue("b", "q", Some("c")), Env("s2", NoFault))
  const CLEARED := Do(Clear, Env("", NoFault))

  const TURN_A := Turn("a", 0, "p", Active, None)
  const TURN_B := Turn("b", 1, "q", Pending, None)

  const A_ENQUEUED := TurnEnqueued("a", 0, "p")
  const B_ENQUEUED := TurnEnqueued("b", 1, "q")

  lemma {:induction false} StartedWithConfig(s: Loop, id: TurnId)
    requires id in s.configs && s.configs[id].Some?
    ensures
      var later := StartActive(s, id);
      later.queue == s.queue && later.disk == s.disk && later.IsShuttingDown() == s.IsShuttingDown()
  {
  }

  lemma {:induction false} FirstLog(disk: Disk)
    requires disk == Disk(None, map[], map[])
    ensures disk.EnqueueSucceeds(FIRST.env)
    ensures disk.OnEnqueue("a", 0, "p", FIRST.env)
            == Disk(Some("s1"), map["a" := "s1"], map["s1" := [SessionStarted, A_ENQUEUED]])
  {
    assert [] + [SessionStarted] == [SessionStarted];
    assert [SessionStarted] + [A_ENQUEUED] == [SessionStarted, A_ENQUEUED];
  }

  lemma {:induction false} EnqueueFirst(s: Loop)
    requires s.queue == Queue([], 0) && s.disk == Disk(None, map[], map[]) && !s.IsShuttingDown()
    ensures
      var later := Handle(s, FIRST.command, FIRST.env);
      && later.queue == Queue([TURN_A], 1)
      && later.disk == Disk(Some("s1"), map["a" := "s1"], map["s1" := [SessionStarted, A_ENQUEUED]])
      && !later.IsShuttingDown()
  {
    hide Submit, StartActive, Disk.OnEnqueue, Disk.EnqueueSucceeds;
    FirstLog(s.disk);
    SubmitFields(s, "a", "p", Some("c"), FIRST.env);
    StartedWithConfig(Submit(s, "a", "p", Some("c"), FIRST.env), "a");
    assert !HasActive([]);
    assert [] + [TURN_A] == [TURN_A];
  }

  lemma {:induction false} FirstStep()
    ensures Legal(START, FIRST)
    ensures
      var s := Handle(START.loop, FIRST.command, FIRST.env);
      && s.queue == Queue([TURN_A], 1)
      && s.disk == Disk(Some("s1"), map["a" := "s1"], map["s1" := [SessionStarted, A_ENQUEUED]])
      && !s.IsShuttingDown()
  {
    hide Handle;
    EnqueueFirst(START.loop);
  }

  lemma {:induction false} RetainOne(turn: Turn, filter: Filter)
    requires filter.Keeps(turn)
    ensures Retain([turn], filter) == [turn]
  {
    assert [turn][..0] == [];
    assert [] + [turn] == [turn];
  }

  lemma {:induction false} CancelSnoc(disk: Disk, front: seq<Turn>, last: Turn)
    requires disk.current.Some? && last.state != Settled
    ensures disk.CancelUnsettled([]) == disk
    ensures
      var before := disk.CancelUnsettled(front);
      disk.CancelUnsettled(front + [last])
      == before.(logs := Appended(before.logs, disk.current.value, SettledEvent(last.id, CANCELLED)),
                 turnSessions := before.turnSessions - {last.id})
  {
    assert (front + [last])[..|front|] == front;
  }

  lemma {:induction false} ClearWithOne(s: Loop)
    requires s.queue == Queue([TURN_A], 1)
    requires s.disk == Disk(Some("s1"), map["a" := "s1"], map["s1" := [SessionStarted, A_ENQUEUED]])
    ensures
      var later := ClearSession(s);
      && later.queue == s.queue && later.disk.current == None && later.disk.turnSessions == map[]
      && "s2" !in later.disk.logs && later.IsShuttingDown() == s.IsShuttingDown()
  {
    hide Disk.CancelUnsettled, Retain;
    RetainOne(TURN_A, NotPending);
    RetainOne(TURN_A, NotSettled);
    CancelSnoc(s.disk, [], TURN_A);
    assert [] + [TURN_A] == [TURN_A];
  }

  lemma {:induction false} EnqueueBehind(s: Loop)
    requires s.queue == Queue([TURN_A], 1) && !s.IsShuttingDown()
    requires s.disk.current == None && s.disk.turnSessions == map[] && "s2" !in s.disk.logs
    ensures
      var later := Handle(s, SECOND.command, SECOND.env);
      && later.queue.turns == [TURN_A, TURN_B]
      && later.disk == Disk(Some("s2"), map["b" := "s2"], s.disk.logs["s2" := [SessionStarted, B_ENQUEUED]])
  {
    assert TURN_A in [TURN_A];
    assert HasActive([TURN_A]);
    assert PromptOf([TURN_A, TURN_B], "b") == "q";
    assert [TURN_A] + [TURN_B] == [TURN_A, TURN_B];
    assert [TURN_A, TURN_B][1..] == [TURN_B];
    assert [] + [SessionStarted] == [SessionStarted];
    assert [SessionStarted] + [B_ENQUEUED] == [SessionStarted, B_ENQUEUED];
  }

  lemma {:induction false} ClearWithBoth(s: Loop)
    requires s.queue.turns == [TURN_A, TURN_B] && s.disk.current == Some("s2")
    requires "s2" in s.disk.logs && s.disk.logs["s2"] == [SessionStarted, B_ENQUEUED]
    ensures "s2" in ClearSession(s).disk.logs
    ensures ClearSession(s).disk.logs["s2"]
            == [SessionStarted, B_ENQUEUED, SettledEvent("a", CANCELLED), SettledEvent("b", CANCELLED)]
  {
    hide Disk.CancelUnsettled, Retain;
    CancelSnoc(s.disk, [], TURN_A);
    CancelSnoc(s.disk, [TURN_A], TURN_B);
    assert [] + [TURN_A] == [TURN_A] && [TURN_A] + [TURN_B] == [TURN_A, TURN_B];
    assert [SessionStarted, B_ENQUEUED] + [SettledEvent("a", CANCELLED)] + [SettledEvent("b", CANCELLED)]
        == [SessionStarted, B_ENQUEUED, SettledEvent("a", CANCELLED), SettledEvent("b", CANCELLED)];
  }

  /** A run of the real thing: two clears, with the first turn's worker still not done. */
  lemma {:induction false} TwoClearsStraySettle()
    ensures Legal(START, FIRST)
    ensures Legal(Step(START, FIRST), CLEARED)
    ensures Legal(Step(Step(START, FIRST), CLEARED), SECOND)
    ensures
      var w := Step(Step(Step(START, FIRST), CLEARED), SECOND);
      var logs := Step(w, CLEARED).Logs();
      && "s2" in logs
      && logs["s2"] == [SessionStarted, B_ENQUEUED, SettledEvent("a", CANCELLED), SettledEvent("b", CANCELLED)]
  {
    hide ClearSession, EnqueueTurn, StoppedBy, PendingSet;
    FirstStep();
    var first := Step(START, FIRST);
    ClearWithOne(first.loop);
    var cleared := Step(first, CLEARED);
    assert cleared.submitted.Keys == {"a"};
    EnqueueBehind(cleared.loop);
    ClearWithBoth(Step(cleared, SECOND).loop);
  }

  // ---- A submission that was refused comes back with its session ----

  const REFUSED := Do(Enqueue("a", "p", Some("c")), Env("s1", EnqueueRowFault))
  const A_INTERRUPTED := Turn("a", 0, "p", Settled, Some(INTERRUPTED))
  const RESUMED := Do(ResumeSession("s1", [A_INTERRUPTED], NO_COMPACTION), Env("", NoFault))

  lemma {:induction false} RefusedLog(disk: Disk)
    requires disk == Disk(None, map[], map[])
    ensures !disk.EnqueueSucceeds(REFUSED.env)
    ensures disk.OnEnqueue("a", 0, "p", REFUSED.env).logs == map["s1" := [SessionStarted, A_ENQUEUED]]
  {
    assert [] + [SessionStarted] == [SessionStarted];
    assert [SessionStarted] + [A_ENQUEUED] == [SessionStarted, A_ENQUEUED];
  }

  lemma {:induction false} RefusedRestored()
    ensures Restored([SessionStarted, A_ENQUEUED]) == Replayed([A_INTERRUPTED], NO_COMPACTION)
  {
    var turn := Turn("a", 0, "p", Pending, None);
    assert [] + [SessionStarted] == [SessionStarted] && [SessionStarted] + [A_ENQUEUED] == [SessionStarted, A_ENQUEUED];
    FoldSnoc([], SessionStarted);
    FoldSnoc([SessionStarted], A_ENQUEUED);
    assert [] + [turn] == [turn] && InterruptAll([turn])[0] == A_INTERRUPTED;
  }

  /** A run of two commands: the refused turn left the queue, and a resume puts it back. */
  lemma {:induction false} RefusedTurnComesBack()
    ensures Legal(START, REFUSED)
    ensures
      var w := Step(START, REFUSED);
      && w.Turns() == []
      && w.loop.events == [SettledTurn("a", ErrorResult("sessionPersistence", "could not update session row"))]
      && Legal(w, RESUMED) && Step(w, RESUMED).Turns() == [A_INTERRUPTED]
  {
    hide Submit, StartActive, Restored, Disk.OnEnqueue, Disk.EnqueueSucceeds;
    RefusedLog(START.loop.disk);
    SubmitFields(START.loop, "a", "p", Some("c"), REFUSED.env);
    RefusedRestored();
  }
}
