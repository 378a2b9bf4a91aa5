// Which rounds an extraction run considers: eligible_rounds in src/memory/scheduler.rs.
module Eligible {
  import opened Common
  import opened Request
  import opened Turns
  import opened SessionLog
  import opened Replay
  import opened LogInvariant
  import opened Sorting

  const I64_MAX := 0x7fff_ffff_ffff_ffff

  /** Beyond the cursor, and not beyond what a cursor can hold. */
  predicate IsAfter(seqNo: nat, cursor: int) {
    seqNo <= I64_MAX && cursor < seqNo
  }

  function After(rounds: seq<HistoryRound>, cursor: int): seq<HistoryRound> {
    if rounds == [] then []
    else
      var last := rounds[|rounds| - 1];
      After(rounds[..|rounds| - 1], cursor) + if IsAfter(last.seqNo, cursor) then [last] else []
  }

  function UpTo(rounds: seq<HistoryRound>, cursor: int): seq<HistoryRound> {
    if rounds == [] then []
    else
      var last := rounds[|rounds| - 1];
      UpTo(rounds[..|rounds| - 1], cursor) + if last.seqNo <= cursor then [last] else []
  }

  /** The enqueued turns not yet completed, and the rounds found so far. */
  datatype Gathering = Gathering(enqueued: map<TurnId, (nat, string)>, rounds: seq<HistoryRound>)

  function Gathered(log: seq<LogEvent>, cursor: int): Gathering {
    if log == [] then Gathering(map[], [])
    else
      var before := Gathered(log[..|log| - 1], cursor);
      match log[|log| - 1]
      case TurnEnqueued(id, seqNo, prompt) => before.(enqueued := before.enqueued[id := (seqNo, prompt)])
      case TurnSettled(id, kind, text, _, _, _) =>
        if kind != "completed" || id !in before.enqueued then before
        else
          var (seqNo, prompt) := before.enqueued[id];
          Gathering(before.enqueued - {id},
                    before.rounds +
                      if IsAfter(seqNo, cursor) then [HistoryRound(seqNo, prompt, TextOrEmpty(text))] else [])
      case _ => before
  }

  function TextOrEmpty(text: Option<string>): string {
    if text.Some? then text.value else ""
  }

  ghost predicate Sorted(rounds: seq<HistoryRound>) {
    forall i, j | 0 <= i < j < |rounds| :: rounds[i].seqNo <= rounds[j].seqNo
  }

  /**
   * The loop over the log and the sort. Over a log as the coordinator writes it, the
   * result is exactly the completed rounds beyond the cursor, in order.
   */
  method EligibleRounds(log: seq<LogEvent>, cursor: int) returns (rounds: seq<HistoryRound>)
    ensures Sorted(rounds) && multiset(rounds) == multiset(Gathered(log, cursor).rounds)
    ensures Orderly(log) ==> rounds == After(LogRounds(log), cursor)
  {
    var enqueued: map<TurnId, (nat, string)> := map[];
    var found: seq<HistoryRound> := [];
    for i := 0 to |log|
      invariant Gathering(enqueued, found) == Gathered(log[..i], cursor)
    {
      assert log[..i + 1][..i] == log[..i];
      match log[i] {
        case TurnEnqueued(id, seqNo, prompt) =>
          enqueued := enqueued[id := (seqNo, prompt)];
        case TurnSettled(id, kind, text, _, _, _) =>
          if kind == "completed" && id in enqueued {
            var (seqNo, prompt) := enqueued[id];
            enqueued := enqueued - {id};
            if IsAfter(seqNo, cursor) {
              found := found + [HistoryRound(seqNo, prompt, TextOrEmpty(text))];
            }
          }
        case _ =>
      }
    }
    assert log[..|log|] == log;
    rounds := SortByKey(found, (round: HistoryRound) => round.seqNo);
    if Orderly(log) {
      GatheredAreRounds(log, cursor);
      OrderlyIncreasing(log);
      RoundsAscending(Fold(log).turns);
      AfterAscending(LogRounds(log), cursor);
      SortedIsAscending(rounds, After(LogRounds(log), cursor));
    }
  }

  lemma {:induction false} LastCount<A>(a: seq<A>)
    requires a != []
    ensures a == a[..|a| - 1] + [a[|a| - 1]]
    ensures multiset(a) == multiset(a[..|a| - 1]) + multiset{a[|a| - 1]}
  {
    assert a == a[..|a| - 1] + [a[|a| - 1]];
  }

  lemma {:induction false} MiddleCount<A>(a: seq<A>, middle: seq<A>, b: seq<A>)
    ensures multiset(a + middle + b) == multiset(a + b + middle)
  {
  }

  // ---- What is gathered ----

  lemma {:induction false} OrderlyIncreasing(log: seq<LogEvent>)
    requires Orderly(log)
    ensures Increasing(Fold(log).turns)
  {
    hide ResultOf;
    if log != [] {
      OrderlyIncreasing(log[..|log| - 1]);
      var before := Fold(log[..|log| - 1]).turns;
      assert forall i | 0 <= i < |before| :: before[i] in before;
    }
  }

  /** The map knows every open entry, and nothing that has no entry. */
  ghost predicate Tracks(turns: seq<Turn>, enqueued: map<TurnId, (nat, string)>) {
    && (forall t | t in turns && t.state == Pending :: t.id in enqueued && enqueued[t.id] == (t.seqNo, t.prompt))
    && forall id | id in enqueued :: exists t :: t in turns && t.id == id
  }

  lemma {:induction false} GatheredAreRounds(log: seq<LogEvent>, cursor: int)
    requires Orderly(log)
    ensures Tracks(Fold(log).turns, Gathered(log, cursor).enqueued)
    ensures multiset(Gathered(log, cursor).rounds) == multiset(After(LogRounds(log), cursor))
  {
    hide Tracks, After, ResultOf;
    if log == [] {
      NothingGathered(cursor);
    } else {
      var front, last := log[..|log| - 1], log[|log| - 1];
      GatheredAreRounds(front, cursor);
      OrderlyIncreasing(front);
      var turns, before := Fold(front).turns, Gathered(front, cursor);
      if last.TurnEnqueued? {
        TrackEnqueued(turns, before.enqueued, Turn(last.turnId, last.seqNo, last.prompt, Pending, None));
      } else if last.TurnSettled? {
        GatherSettled(turns, before.enqueued, last, cursor);
      }
    }
  }

  lemma {:induction false} NothingGathered(cursor: int)
    ensures Tracks([], map[]) && After([], cursor) == []
  {
  }

  lemma {:induction false} TrackEnqueued(turns: seq<Turn>, enqueued: map<TurnId, (nat, string)>, turn: Turn)
    requires Tracks(turns, enqueued) && turn.state == Pending && forall t | t in turns :: t.id != turn.id
    ensures Tracks(turns + [turn], enqueued[turn.id := (turn.seqNo, turn.prompt)])
    ensures CompletedRounds(turns + [turn]) == CompletedRounds(turns)
  {
    RoundsSnoc(turns, turn);
    var more := turns + [turn];
    assert turn in more && forall t | t in turns :: t in more;
  }

  /** A settle, seen by the fold and by the gathering. */
  lemma {:induction false} GatherSettled(
      turns: seq<Turn>, enqueued: map<TurnId, (nat, string)>, event: LogEvent, cursor: int)
    requires event.TurnSettled? && Tracks(turns, enqueued) && Increasing(turns)
    requires forall t | t in turns && t.id == event.turnId :: t.state == Pending
    ensures
      var id := event.turnId;
      var after := SettleTurn(turns, id, ResultOf(event));
      if event.settledKind != "completed" || id !in enqueued then
        && Tracks(after, enqueued) && CompletedRounds(after) == CompletedRounds(turns)
      else
        && Tracks(after, enqueued - {id})
        && multiset(After(CompletedRounds(after), cursor))
           == multiset(After(CompletedRounds(turns), cursor)
                       + if IsAfter(enqueued[id].0, cursor)
                         then [HistoryRound(enqueued[id].0, enqueued[id].1, TextOrEmpty(event.text))] else [])
  {
    hide CompletedRounds, After, Increasing;
    var id, result := event.turnId, ResultOf(event);
    TrackSettled(turns, enqueued, id, result);
    if event.settledKind != "completed" {
      RoundsUnchanged(turns, id, result);
    } else if id in enqueued {
      var k := EntryOf(turns, enqueued, id);
      GainedRound(turns, k, result, cursor);
    } else {
      NoEntry(turns, enqueued, id, result);
    }
  }

  lemma {:induction false} EntryOf(turns: seq<Turn>, enqueued: map<TurnId, (nat, string)>, id: TurnId) returns (k: nat)
    requires Tracks(turns, enqueued) && id in enqueued
    requires forall t | t in turns && t.id == id :: t.state == Pending
    ensures k < |turns| && turns[k].id == id && turns[k].state == Pending
    ensures enqueued[id] == (turns[k].seqNo, turns[k].prompt)
  {
    var t :| t in turns && t.id == id;
    k :| 0 <= k < |turns| && turns[k] == t;
  }

  lemma {:induction false} NoEntry(
      turns: seq<Turn>, enqueued: map<TurnId, (nat, string)>, id: TurnId, result: TurnResult)
    requires Tracks(turns, enqueued) && id !in enqueued
    requires forall t | t in turns && t.id == id :: t.state == Pending
    ensures SettleTurn(turns, id, result) == turns
  {
    assert forall i | 0 <= i < |turns| :: turns[i] in turns;
  }

  lemma {:induction false} TrackSettled(
      turns: seq<Turn>, enqueued: map<TurnId, (nat, string)>, id: TurnId, result: TurnResult)
    requires Tracks(turns, enqueued)
    ensures Tracks(SettleTurn(turns, id, result), enqueued)
    ensures Tracks(SettleTurn(turns, id, result), enqueued - {id})
  {
    hide SettleTurn, FirstIn;
    var after := SettleTurn(turns, id, result);
    OpenAfterSettle(turns, id, result);
    forall other | other in enqueued
      ensures exists t :: t in after && t.id == other
    {
      var u :| u in turns && u.id == other;
      StillListed(turns, id, result, u);
    }
  }

  lemma {:induction false} OpenAfterSettle(turns: seq<Turn>, id: TurnId, result: TurnResult)
    ensures forall t | t in SettleTurn(turns, id, result) && t.state == Pending :: t in turns && t.id != id
  {
    var after := SettleTurn(turns, id, result);
    forall t | t in after && t.state == Pending
      ensures t in turns && t.id != id
    {
      var i :| 0 <= i < |after| && after[i] == t;
      assert turns[i] in turns;
    }
  }

  lemma {:induction false} StillListed(turns: seq<Turn>, id: TurnId, result: TurnResult, turn: Turn)
    requires turn in turns
    ensures exists t :: t in SettleTurn(turns, id, result) && t.id == turn.id
  {
    var after := SettleTurn(turns, id, result);
    var i :| 0 <= i < |turns| && turns[i] == turn;
    assert after[i] in after;
  }

  /** A completed entry adds its round where it stands in the list. */
  lemma {:induction false} GainedRound(turns: seq<Turn>, k: nat, result: TurnResult, cursor: int)
    requires Increasing(turns) && k < |turns| && turns[k].state == Pending
    requires result.kind == Completed && result.text.Some?
    ensures
      var round := HistoryRound(turns[k].seqNo, turns[k].prompt, result.text.value);
      multiset(After(CompletedRounds(SettleTurn(turns, turns[k].id, result)), cursor))
      == multiset(After(CompletedRounds(turns), cursor) + if IsAfter(round.seqNo, cursor) then [round] else [])
  {
    hide CompletedRounds, After;
    var a, b := turns[..k], turns[k + 1..];
    var settled := turns[k].(state := Settled, result := Some(result));
    var round := RoundOf(settled);
    assert SettleTurn(turns, turns[k].id, result) == a + [settled] + b;
    assert turns == a + [turns[k]] + b;
    RoundsConcat(a + [settled], b);
    RoundsSnoc(a, settled);
    RoundsConcat(a + [turns[k]], b);
    RoundsSnoc(a, turns[k]);
    assert CompletedRounds(a) + [] == CompletedRounds(a);
    AfterMiddle(CompletedRounds(a), round, CompletedRounds(b), cursor);
  }

  lemma {:induction false} AfterMiddle(a: seq<HistoryRound>, round: HistoryRound, b: seq<HistoryRound>, cursor: int)
    ensures multiset(After(a + [round] + b, cursor))
            == multiset(After(a + b, cursor) + if IsAfter(round.seqNo, cursor) then [round] else [])
  {
    hide After;
    var more := if IsAfter(round.seqNo, cursor) then [round] else [];
    AfterConcat(a + [round], b, cursor);
    AfterConcat(a, b, cursor);
    AfterSnoc(a, round, cursor);
    MiddleCount(After(a, cursor), more, After(b, cursor));
  }

  // ---- Filtering by the cursor ----

  lemma {:induction false} AfterSnoc(rounds: seq<HistoryRound>, round: HistoryRound, cursor: int)
    ensures After(rounds + [round], cursor)
            == After(rounds, cursor) + if IsAfter(round.seqNo, cursor) then [round] else []
  {
    assert (rounds + [round])[..|rounds|] == rounds;
  }

  lemma {:induction false} AfterConcat(a: seq<HistoryRound>, b: seq<HistoryRound>, cursor: int)
    ensures After(a + b, cursor) == After(a, cursor) + After(b, cursor)
  {
    hide IsAfter;
    if b == [] {
      assert a + b == a;
    } else {
      AfterConcat(a, b[..|b| - 1], cursor);
      assert (a + b)[..|a + b| - 1] == a + b[..|b| - 1];
    }
  }

  lemma {:induction false} AfterMembers(rounds: seq<HistoryRound>, cursor: int)
    ensures forall r :: r in After(rounds, cursor) <==> r in rounds && IsAfter(r.seqNo, cursor)
  {
    if rounds != [] {
      var front := rounds[..|rounds| - 1];
      AfterMembers(front, cursor);
      assert rounds == front + [rounds[|rounds| - 1]];
    }
  }

  lemma {:induction false} AfterAscending(rounds: seq<HistoryRound>, cursor: int)
    requires Ascending(rounds)
    ensures Ascending(After(rounds, cursor))
  {
    if rounds != [] {
      var front := rounds[..|rounds| - 1];
      AfterAscending(front, cursor);
      AfterMembers(front, cursor);
    }
  }

  /** Sorting rounds with distinct numbers gives their one ascending order. */
  lemma {:induction false} SortedIsAscending(a: seq<HistoryRound>, b: seq<HistoryRound>)
    requires Sorted(a) && Ascending(b) && multiset(a) == multiset(b)
    ensures a == b
  {
    SameLength(a, b);
    if a != [] {
      var m := |a| - 1;
      SameLast(a, b);
      LastCount(a);
      LastCount(b);
      SameRest(multiset(a[..m]), multiset(b[..m]), a[m]);
      SortedIsAscending(a[..m], b[..m]);
    }
  }

  lemma {:induction false} SameLength<A>(a: seq<A>, b: seq<A>)
    requires multiset(a) == multiset(b)
    ensures |a| == |b|
  {
    assert |multiset(a)| == |a| && |multiset(b)| == |b|;
  }

  lemma {:induction false} SameRest<A>(a: multiset<A>, b: multiset<A>, x: A)
    requires a + multiset{x} == b + multiset{x}
    ensures a == b
  {
    assert a == a + multiset{x} - multiset{x};
    assert b == b + multiset{x} - multiset{x};
  }

  lemma {:induction false} SameLast(a: seq<HistoryRound>, b: seq<HistoryRound>)
    requires Sorted(a) && Ascending(b) && multiset(a) == multiset(b) && |a| == |b| && a != []
    ensures a[|a| - 1] == b[|b| - 1]
  {
    var m := |a| - 1;
    assert a[m] in multiset(b) && b[m] in multiset(a);
    var i :| 0 <= i <= m && b[i] == a[m];
    var j :| 0 <= j <= m && a[j] == b[m];
    assert a[j].seqNo <= a[m].seqNo;
  }

  lemma {:induction false} UpToSnoc(rounds: seq<HistoryRound>, round: HistoryRound, cursor: int)
    ensures UpTo(rounds + [round], cursor) == UpTo(rounds, cursor) + if round.seqNo <= cursor then [round] else []
  {
    assert (rounds + [round])[..|rounds|] == rounds;
  }

  lemma {:induction false} UpToAll(rounds: seq<HistoryRound>, cursor: int)
    requires forall r | r in rounds :: r.seqNo <= cursor
    ensures UpTo(rounds, cursor) == rounds
  {
    if rounds != [] {
      var front, last := rounds[..|rounds| - 1], rounds[|rounds| - 1];
      assert rounds == front + [last] && last in rounds;
      UpToAll(front, cursor);
    }
  }

  /** Rounds beyond every earlier one change nothing below a cursor that stands on an earlier one. */
  lemma {:induction false} UpToStays(rounds: seq<HistoryRound>, more: seq<HistoryRound>, cursor: int)
    requires Ascending(rounds + more) && (cursor < 0 || exists r :: r in rounds && r.seqNo == cursor)
    ensures UpTo(rounds + more, cursor) == UpTo(rounds, cursor)
  {
    if more == [] {
      assert rounds + more == rounds;
    } else {
      var all, n := rounds + more, |more| - 1;
      assert all == rounds + more[..n] + [more[n]];
      assert all[..|all| - 1] == rounds + more[..n];
      AscendingFront(all);
      UpToStays(rounds, more[..n], cursor);
      UpToSnoc(rounds + more[..n], more[n], cursor);
      if cursor >= 0 {
        var r :| r in rounds && r.seqNo == cursor;
        var i :| 0 <= i < |rounds| && rounds[i] == r;
        assert all[i] == r && all[|all| - 1] == more[n];
      }
    }
  }

  lemma {:induction false} AscendingFront(rounds: seq<HistoryRound>)
    requires Ascending(rounds) && rounds != []
    ensures Ascending(rounds[..|rounds| - 1])
    ensures forall r | r in rounds[..|rounds| - 1] :: r.seqNo < rounds[|rounds| - 1].seqNo
  {
  }

  /** What is up to the cursor and what is beyond it make up everything up to the last one delivered. */
  lemma {:induction false} UpToAdvances(rounds: seq<HistoryRound>, cursor: int)
    requires Ascending(rounds) && After(rounds, cursor) != []
    ensures
      var batch := After(rounds, cursor);
      var last := batch[|batch| - 1];
      && last in rounds && cursor < last.seqNo <= I64_MAX
      && UpTo(rounds, last.seqNo) == UpTo(rounds, cursor) + batch
  {
    var n := |rounds| - 1;
    var front, newest := rounds[..n], rounds[n];
    assert rounds == front + [newest];
    AscendingFront(rounds);
    AfterSnoc(front, newest, cursor);
    AfterMembers(front, cursor);
    if IsAfter(newest.seqNo, cursor) {
      DeliveredNewest(front, newest, cursor);
    } else {
      UpToAdvances(front, cursor);
      var batch := After(front, cursor);
      UpToSnoc(front, newest, batch[|batch| - 1].seqNo);
      UpToSnoc(front, newest, cursor);
    }
  }

  lemma {:induction false} DeliveredNewest(front: seq<HistoryRound>, newest: HistoryRound, cursor: int)
    requires Ascending(front) && forall r | r in front :: r.seqNo < newest.seqNo
    requires IsAfter(newest.seqNo, cursor)
    ensures UpTo(front + [newest], newest.seqNo) == UpTo(front + [newest], cursor) + After(front + [newest], cursor)
  {
    hide UpTo, After;
    AfterSplits(front, cursor, newest.seqNo);
    UpToSnoc(front, newest, newest.seqNo);
    UpToSnoc(front, newest, cursor);
    AfterSnoc(front, newest, cursor);
    assert UpTo(front, cursor) + After(front, cursor) + [newest]
        == UpTo(front, cursor) + (After(front, cursor) + [newest]);
  }

  lemma {:induction false} AfterSplits(rounds: seq<HistoryRound>, cursor: int, bound: nat)
    requires Ascending(rounds) && bound <= I64_MAX && forall r | r in rounds :: r.seqNo < bound
    ensures UpTo(rounds, bound) == rounds == UpTo(rounds, cursor) + After(rounds, cursor)
  {
    hide UpTo, After;
    UpToAll(rounds, bound);
    if rounds == [] {
      NothingSplits(cursor);
    } else {
      var n := |rounds| - 1;
      var front, last := rounds[..n], rounds[n];
      assert rounds == front + [last];
      AscendingFront(rounds);
      AfterSplits(front, cursor, bound);
      UpToSnoc(front, last, cursor);
      AfterSnoc(front, last, cursor);
      assert last in rounds;
      if IsAfter(last.seqNo, cursor) {
        assert UpTo(front, cursor) + After(front, cursor) + [last]
            == UpTo(front, cursor) + (After(front, cursor) + [last]);
      } else {
        AfterNone(front, cursor, last.seqNo);
      }
    }
  }

  lemma {:induction false} NothingSplits(cursor: int)
    ensures UpTo([], cursor) == [] && After([], cursor) == []
  {
  }

  lemma {:induction false} AfterNone(rounds: seq<HistoryRound>, cursor: int, bound: nat)
    requires forall r | r in rounds :: r.seqNo < bound
    requires bound <= cursor
    ensures After(rounds, cursor) == []
  {
    AfterMembers(rounds, cursor);
    if After(rounds, cursor) != [] {
      assert After(rounds, cursor)[0] in After(rounds, cursor);
    }
  }
}
