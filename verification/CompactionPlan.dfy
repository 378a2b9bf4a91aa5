// The head/tail split of auto-compaction: src/chat/compaction_plan.rs.
module CompactionPlan {
  import opened Common
  import opened Request
  import opened TokenEstimate

  datatype Plan = Plan(newCoveredThroughSeq: nat, head: seq<HistoryRound>)

  /**
   * The split the design asks for: the tail keeps the newest round, keeps more only
   * within the budget, and could not keep one round more.
   */
  ghost predicate IsSplit(uncovered: seq<HistoryRound>, tailBudget: nat, headEnd: nat) {
    && headEnd <= |uncovered|
    && (uncovered == [] <==> headEnd == |uncovered|)
    && (headEnd < |uncovered| - 1 ==> RoundTokens(uncovered[headEnd..]) <= tailBudget)
    && (0 < headEnd < |uncovered| ==> tailBudget < RoundTokens(uncovered[headEnd - 1..]))
  }

  /** Where the tail starts when the newest rounds are taken greedily from the end. */
  function HeadEnd(uncovered: seq<HistoryRound>, tailBudget: nat, from: nat): nat
    requires from <= |uncovered|
  {
    if from == 0 then 0
    else if from < |uncovered| && tailBudget < RoundTokens(uncovered[from - 1..]) then from
    else HeadEnd(uncovered, tailBudget, from - 1)
  }

  function PlanAt(uncovered: seq<HistoryRound>, headEnd: nat): Option<Plan>
    requires headEnd <= |uncovered|
  {
    if headEnd == 0 then None
    else Some(Plan(uncovered[headEnd - 1].seqNo, uncovered[..headEnd]))
  }

  lemma {:induction false} HeadEndIsSplit(uncovered: seq<HistoryRound>, tailBudget: nat, from: nat)
    requires from <= |uncovered|
    requires from < |uncovered| - 1 ==> RoundTokens(uncovered[from..]) <= tailBudget
    ensures HeadEnd(uncovered, tailBudget, from) <= from
    ensures from < |uncovered| ==> IsSplit(uncovered, tailBudget, HeadEnd(uncovered, tailBudget, from))
    ensures from == |uncovered| ==> IsSplit(uncovered, tailBudget, HeadEnd(uncovered, tailBudget, from))
  {
    if from != 0 && !(from < |uncovered| && tailBudget < RoundTokens(uncovered[from - 1..])) {
      HeadEndIsSplit(uncovered, tailBudget, from - 1);
    }
  }

  /** There is only one such split, so the contract below determines the plan. */
  lemma {:induction false} SplitIsUnique(uncovered: seq<HistoryRound>, tailBudget: nat, h: nat, k: nat)
    requires IsSplit(uncovered, tailBudget, h) && IsSplit(uncovered, tailBudget, k)
    ensures h == k
  {
    if h < k {
      SuffixMonotone(uncovered, h, k - 1);
    } else if k < h {
      SuffixMonotone(uncovered, k, h - 1);
    }
  }

  /** The planner's plan: its head is everything before the split. */
  function PlanOverUncovered(uncovered: seq<HistoryRound>, tailBudget: nat): Option<Plan> {
    HeadEndIsSplit(uncovered, tailBudget, |uncovered|);
    PlanAt(uncovered, HeadEnd(uncovered, tailBudget, |uncovered|))
  }

  /** The plan is the one cut at a split, and by SplitIsUnique at the only one. */
  lemma {:induction false} PlanIsSplit(uncovered: seq<HistoryRound>, tailBudget: nat) returns (h: nat)
    ensures IsSplit(uncovered, tailBudget, h)
    ensures PlanOverUncovered(uncovered, tailBudget) == PlanAt(uncovered, h)
  {
    HeadEndIsSplit(uncovered, tailBudget, |uncovered|);
    h := HeadEnd(uncovered, tailBudget, |uncovered|);
  }

  /** The backward loop of the source. */
  method SplitOverUncovered(uncovered: seq<HistoryRound>, tailBudget: nat) returns (plan: Option<Plan>)
    ensures plan == PlanOverUncovered(uncovered, tailBudget)
  {
    var tailTokens := 0;
    var headEnd := |uncovered|;
    while headEnd > 0
      invariant 0 <= headEnd <= |uncovered|
      invariant tailTokens == RoundTokens(uncovered[headEnd..])
      invariant HeadEnd(uncovered, tailBudget, |uncovered|) == HeadEnd(uncovered, tailBudget, headEnd)
    {
      var index := headEnd - 1;
      var roundTokens := EstimateRound(uncovered[index]);
      assert uncovered[index..][1..] == uncovered[headEnd..];
      var isNewest := index == |uncovered| - 1;
      if !isNewest && tailTokens + roundTokens > tailBudget {
        break;
      }
      tailTokens := tailTokens + roundTokens;
      headEnd := index;
    }
    if headEnd == 0 {
      plan := None;
    } else {
      plan := Some(Plan(uncovered[headEnd - 1].seqNo, uncovered[..headEnd]));
    }
  }

  function PlanFor(history: seq<HistoryRound>, compaction: CompactionState, tailBudget: nat): Option<Plan> {
    PlanOverUncovered(Uncovered(history, compaction), tailBudget)
  }

  /** The rounds that stay verbatim beside a plan. */
  ghost function TailOf(history: seq<HistoryRound>, compaction: CompactionState, plan: Plan): seq<HistoryRound>
    requires |plan.head| <= |Uncovered(history, compaction)|
  {
    Uncovered(history, compaction)[|plan.head|..]
  }

  /**
   * Optimality: head and tail are the uncovered rounds in order; the tail is the newest
   * round alone or the longest suffix within the budget.
   */
  lemma {:induction false} SplitIsOptimal(history: seq<HistoryRound>, compaction: CompactionState, tailBudget: nat)
    requires PlanFor(history, compaction, tailBudget).Some?
    ensures
      var plan := PlanFor(history, compaction, tailBudget).value;
      var uncovered := Uncovered(history, compaction);
      && 0 < |plan.head| < |uncovered|
      && plan.head + TailOf(history, compaction, plan) == uncovered
      && (|TailOf(history, compaction, plan)| == 1 || RoundTokens(TailOf(history, compaction, plan)) <= tailBudget)
      && (forall k | 0 <= k < |plan.head| :: tailBudget < RoundTokens(uncovered[k..]))
      && plan.newCoveredThroughSeq == plan.head[|plan.head| - 1].seqNo
      && forall r | r in plan.head :: r in history && !compaction.Covers(r.seqNo)
  {
    hide HeadEnd, PlanOverUncovered, Uncovered, CompactionState.Covers;
    var uncovered := Uncovered(history, compaction);
    var h := PlanIsSplit(uncovered, tailBudget);
    forall k | 0 <= k < h
      ensures tailBudget < RoundTokens(uncovered[k..])
    {
      SuffixMonotone(uncovered, k, h - 1);
    }
    UncoveredMembers(history, compaction);
  }

  /** A plan exists exactly when two or more uncovered rounds overflow the tail budget. */
  lemma {:induction false} PlanExistsExactly(history: seq<HistoryRound>, compaction: CompactionState, tailBudget: nat)
    ensures
      var uncovered := Uncovered(history, compaction);
      PlanFor(history, compaction, tailBudget).Some?
      <==> |uncovered| >= 2 && RoundTokens(uncovered) > tailBudget
  {
    var uncovered := Uncovered(history, compaction);
    var h := PlanIsSplit(uncovered, tailBudget);
    assert uncovered[0..] == uncovered;
    if h > 0 {
      SuffixMonotone(uncovered, 0, h - 1);
    }
  }

  /**
   * Adopting a plan over an ascending history moves the boundary strictly forward and
   * leaves exactly the tail uncovered.
   */
  lemma {:induction false} AdoptionSplitsHistory(
      history: seq<HistoryRound>, compaction: CompactionState, tailBudget: nat, summary: string)
    requires Ascending(history)
    requires PlanFor(history, compaction, tailBudget).Some?
    ensures
      var plan := PlanFor(history, compaction, tailBudget).value;
      var adopted := CompactionState(Some(summary), plan.newCoveredThroughSeq);
      && (compaction.summary.Some? ==> compaction.coveredThroughSeq < adopted.coveredThroughSeq)
      && |plan.head| <= |Uncovered(history, compaction)|
      && Uncovered(history, adopted) == TailOf(history, compaction, plan)
      && Uncovered(history, compaction) == plan.head + Uncovered(history, adopted)
  {
    hide PlanFor, Uncovered;
    SplitIsOptimal(history, compaction, tailBudget);
    var plan := PlanFor(history, compaction, tailBudget).value;
    var adopted := CompactionState(Some(summary), plan.newCoveredThroughSeq);
    assert plan.head[|plan.head| - 1] in plan.head;
    UncoveredAscending(history, compaction);
    UncoveredTwice(history, compaction, adopted);
    BoundaryCuts(plan.head, TailOf(history, compaction, plan), adopted);
  }

  /** A boundary at the end of a prefix covers that prefix and nothing else. */
  lemma {:induction false} BoundaryCuts(head: seq<HistoryRound>, tail: seq<HistoryRound>, adopted: CompactionState)
    requires Ascending(head + tail) && head != []
    requires adopted.summary.Some? && adopted.coveredThroughSeq == head[|head| - 1].seqNo
    ensures Uncovered(head + tail, adopted) == tail
  {
    hide Uncovered;
    var all := head + tail;
    UncoveredConcat(head, tail, adopted);
    forall i | 0 <= i < |head|
      ensures adopted.Covers(head[i].seqNo)
    {
      assert all[i] == head[i] && all[|head| - 1] == head[|head| - 1];
    }
    UncoveredNone(head, adopted);
    forall i | 0 <= i < |tail|
      ensures !adopted.Covers(tail[i].seqNo)
    {
      assert all[|head| + i] == tail[i] && all[|head| - 1] == head[|head| - 1];
    }
    UncoveredAll(tail, adopted);
  }

  /** A later boundary filters what an earlier one left. */
  lemma {:induction false} UncoveredTwice(history: seq<HistoryRound>, earlier: CompactionState, later: CompactionState)
    requires later.summary.Some?
    requires earlier.summary.Some? ==> earlier.coveredThroughSeq <= later.coveredThroughSeq
    ensures Uncovered(Uncovered(history, earlier), later) == Uncovered(history, later)
  {
    if history != [] {
      var front := history[..|history| - 1];
      var last := history[|history| - 1];
      UncoveredTwice(front, earlier, later);
      if !earlier.Covers(last.seqNo) {
        UncoveredConcat(Uncovered(front, earlier), [last], later);
        assert [last][..0] == [];
      }
    }
  }
}
