// The decision sequence run before a turn is sent: src/chat/compaction.rs.
module Compaction {
  import opened Common
  import opened Request
  import opened TokenEstimate
  import opened CompactionPlan

  /** Trigger, hard budget and verbatim-tail budget, all in tokens. */
  datatype ContextLimits = ContextLimits(threshold: nat, budget: nat, tailBudget: nat)

  /** What awaiting the summarizer beside the cancel signal can give. */
  datatype SummarizeOutcome = Summarized(text: string) | SummarizeFailed(error: string) | CancelledMeanwhile

  datatype CompactionResult =
    | Ready(messages: seq<ChatMessage>, newState: Option<CompactionState>)
    | Cancelled
    | Error(error: string)
    | OverBudget

  datatype CompactionInput = CompactionInput(
    system: ChatMessage,
    instructions: Option<ChatMessage>,
    history: seq<HistoryRound>,
    compaction: CompactionState,
    prompt: string,
    limits: ContextLimits)
  {
    function Messages(state: CompactionState): seq<ChatMessage> {
      Assembled(system, instructions, history, state, prompt)
    }
  }

  function RunCompaction(
    input: CompactionInput, cancelled: bool,
    summarize: (Option<string>, seq<HistoryRound>) -> SummarizeOutcome
  ): CompactionResult {
    var messages := input.Messages(input.compaction);
    if EstimateTokens(messages) <= input.limits.threshold then
      Ready(messages, None)
    else if cancelled then
      Cancelled
    else
      match PlanFor(input.history, input.compaction, input.limits.tailBudget)
      case None => OverBudget
      case Some(plan) =>
        match summarize(input.compaction.summary, plan.head)
        case CancelledMeanwhile => Cancelled
        case SummarizeFailed(error) => Error(error)
        case Summarized(summary) =>
          var newState := CompactionState(Some(summary), plan.newCoveredThroughSeq);
          var compacted := input.Messages(newState);
          if EstimateTokens(compacted) > input.limits.budget then OverBudget
          else Ready(compacted, Some(newState))
  }

  /** Nothing is sent over budget, and what is sent is the assembly of the state in force. */
  lemma {:induction false} ReadyFitsBudget(
    input: CompactionInput, cancelled: bool,
    summarize: (Option<string>, seq<HistoryRound>) -> SummarizeOutcome)
    requires input.limits.threshold <= input.limits.budget
    ensures
      var result := RunCompaction(input, cancelled, summarize);
      result.Ready? ==>
        && EstimateTokens(result.messages) <= input.limits.budget
        && result.messages == input.Messages(if result.newState.Some? then result.newState.value else input.compaction)
  {
  }

  /**
   * A reported compaction comes from the plan of this turn's own history, moves the
   * boundary forward, and every uncovered round is either in the summarized head or sent
   * verbatim, never both.
   */
  lemma {:induction false} ReadyConservesHistory(
    input: CompactionInput, cancelled: bool,
    summarize: (Option<string>, seq<HistoryRound>) -> SummarizeOutcome)
    requires Ascending(input.history)
    ensures
      var result := RunCompaction(input, cancelled, summarize);
      var plan := PlanFor(input.history, input.compaction, input.limits.tailBudget);
      result.Ready? && result.newState.Some? ==>
        && plan.Some?
        && result.newState.value.summary.Some?
        && result.newState.value.coveredThroughSeq == plan.value.newCoveredThroughSeq
        && (input.compaction.summary.Some? ==>
              input.compaction.coveredThroughSeq < result.newState.value.coveredThroughSeq)
        && Uncovered(input.history, input.compaction)
           == plan.value.head + Uncovered(input.history, result.newState.value)
        && result.messages
           == Preamble(input.system, input.instructions, result.newState.value)
              + Verbatim(Uncovered(input.history, result.newState.value))
              + [ChatMessage(User, input.prompt)]
  {
    var result := RunCompaction(input, cancelled, summarize);
    if result.Ready? && result.newState.Some? {
      AdoptionSplitsHistory(input.history, input.compaction, input.limits.tailBudget,
                            result.newState.value.summary.value);
    }
  }

  /** Over the trigger: the estimate of the request as it stands, strictly. */
  predicate OverTrigger(input: CompactionInput) {
    EstimateTokens(input.Messages(input.compaction)) > input.limits.threshold
  }

  /** What the summarizer answers, when there is a plan it is asked about. */
  function Answer(
    input: CompactionInput, summarize: (Option<string>, seq<HistoryRound>) -> SummarizeOutcome
  ): Option<SummarizeOutcome> {
    match PlanFor(input.history, input.compaction, input.limits.tailBudget)
    case None => None
    case Some(plan) => Some(summarize(input.compaction.summary, plan.head))
  }

  /**
   * Each outcome, exactly. A request within the trigger is sent as it is, cancelled or not. Over
   * it, a cancellation before or during the summary wins, a failing summarizer's own error is
   * passed on, and what it answers otherwise becomes the new state, if that fits.
   */
  lemma {:induction false} OutcomesExactly(
    input: CompactionInput, cancelled: bool,
    summarize: (Option<string>, seq<HistoryRound>) -> SummarizeOutcome)
    ensures
      var result, answer := RunCompaction(input, cancelled, summarize), Answer(input, summarize);
      && (result.Cancelled? <==> OverTrigger(input) && (cancelled || answer == Some(CancelledMeanwhile)))
      && (forall error :: result == Error(error)
                          <==> OverTrigger(input) && !cancelled && answer == Some(SummarizeFailed(error)))
      && (result.Ready? && result.newState.None? <==> !OverTrigger(input))
      && (forall state :: result.Ready? && result.newState == Some(state)
            <==> && OverTrigger(input) && !cancelled
                 && state.summary.Some? && answer == Some(Summarized(state.summary.value))
                 && state.coveredThroughSeq
                    == PlanFor(input.history, input.compaction, input.limits.tailBudget).value.newCoveredThroughSeq
                 && EstimateTokens(input.Messages(state)) <= input.limits.budget)
      && (result.OverBudget?
          <==> && OverTrigger(input) && !cancelled
               && (answer.None?
                   || (answer.value.Summarized?
                       && EstimateTokens(input.Messages(CompactionState(
                            Some(answer.value.text),
                            PlanFor(input.history, input.compaction, input.limits.tailBudget)
                              .value.newCoveredThroughSeq)))
                          > input.limits.budget)))
  {
    hide PlanFor, EstimateTokens, CompactionInput.Messages;
  }

  /**
   * What is sent is a request for the state in force, new or old: of every round of the history
   * it holds the very words, or the text of a summary that stands for it.
   */
  lemma {:induction false} ReadyIsRequest(
    input: CompactionInput, cancelled: bool,
    summarize: (Option<string>, seq<HistoryRound>) -> SummarizeOutcome)
    ensures
      var result := RunCompaction(input, cancelled, summarize);
      result.Ready? ==>
        var state := if result.newState.Some? then result.newState.value else input.compaction;
        && IsRequest(result.messages, input.system, input.instructions, Uncovered(input.history, state), state,
                     input.prompt)
        && forall r | r in input.history ::
             SentVerbatim(result.messages, r) || SentInSummary(result.messages, r, state)
  {
    hide PlanFor, EstimateTokens, IsRequest, Uncovered, SentVerbatim, SentInSummary, Assembled;
    var result := RunCompaction(input, cancelled, summarize);
    if result.Ready? {
      var state := if result.newState.Some? then result.newState.value else input.compaction;
      AssembledIsRequest(input.system, input.instructions, input.history, state, input.prompt);
      NothingIsLost(result.messages, input.system, input.instructions, input.history, state, input.prompt);
    }
  }

  ghost function OptionalEstimate(message: Option<ChatMessage>): nat {
    if message.Some? then EstimateMessage(message.value) else 0
  }

  ghost function Max(a: nat, b: nat): nat {
    if a < b then b else a
  }

  /** The estimate of a request, piece by piece. */
  lemma {:induction false} AssembledEstimate(input: CompactionInput, state: CompactionState)
    ensures EstimateTokens(input.Messages(state))
            == EstimateMessage(input.system) + OptionalEstimate(input.instructions)
               + (if state.summary.Some? then EstimateMessage(SummaryMessage(state.summary.value)) else 0)
               + EstimateTokens(Verbatim(Uncovered(input.history, state)))
               + EstimateMessage(ChatMessage(User, input.prompt))
  {
    var pre := Preamble(input.system, input.instructions, state);
    var mid := Verbatim(Uncovered(input.history, state));
    var last := [ChatMessage(User, input.prompt)];
    EstimateConcat(pre + mid, last);
    EstimateConcat(pre, mid);
    EstimateSingle(last[0]);
    EstimateSingle(input.system);
    var ins := if input.instructions.Some? then [input.instructions.value] else [];
    var sum := if state.summary.Some? then [SummaryMessage(state.summary.value)] else [];
    EstimateConcat([input.system] + ins, sum);
    EstimateConcat([input.system], ins);
    if input.instructions.Some? {
      EstimateSingle(ins[0]);
    }
    if state.summary.Some? {
      EstimateSingle(sum[0]);
    }
  }

  lemma {:induction false} EstimateSingle(message: ChatMessage)
    ensures EstimateTokens([message]) == EstimateMessage(message)
  {
    assert [message][..0] == [];
  }

  /** The newest uncovered round is the newest round. */
  lemma {:induction false} NewestIsLast(history: seq<HistoryRound>, compaction: CompactionState)
    requires Ascending(history) && Uncovered(history, compaction) != []
    ensures history != []
    ensures Uncovered(history, compaction)[|Uncovered(history, compaction)| - 1] == history[|history| - 1]
  {
    var uncovered := Uncovered(history, compaction);
    UncoveredMembers(history, compaction);
    var newest := uncovered[|uncovered| - 1];
    assert newest in uncovered && newest in history;
    assert !compaction.Covers(history[|history| - 1].seqNo);
  }

  /** What stays verbatim beside a fresh summary costs at most the larger of the two. */
  lemma {:induction false} TailFits(
      history: seq<HistoryRound>, compaction: CompactionState, tailBudget: nat, summary: string)
    requires Ascending(history)
    requires PlanFor(history, compaction, tailBudget).Some?
    ensures history != []
    ensures
      var covered := PlanFor(history, compaction, tailBudget).value.newCoveredThroughSeq;
      EstimateTokens(Verbatim(Uncovered(history, CompactionState(Some(summary), covered))))
      <= Max(tailBudget, EstimateRound(history[|history| - 1]))
  {
    var plan := PlanFor(history, compaction, tailBudget).value;
    SplitIsOptimal(history, compaction, tailBudget);
    AdoptionSplitsHistory(history, compaction, tailBudget, summary);
    var tail := TailOf(history, compaction, plan);
    RoundsAgainstMessages(tail);
    NewestIsLast(history, compaction);
    if |tail| == 1 {
      assert tail == [history[|history| - 1]];
      assert tail[1..] == [];
    }
  }

  /**
   * After a summary, running over budget is impossible once the fixed parts and the
   * larger of the tail budget and the newest round fit.
   */
  lemma {:induction false} SummaryFits(
    input: CompactionInput,
    summarize: (Option<string>, seq<HistoryRound>) -> SummarizeOutcome, summary: string)
    requires Ascending(input.history) && input.history != []
    requires EstimateTokens(input.Messages(input.compaction)) > input.limits.threshold
    requires PlanFor(input.history, input.compaction, input.limits.tailBudget).Some?
    requires summarize(input.compaction.summary,
                       PlanFor(input.history, input.compaction, input.limits.tailBudget).value.head)
             == Summarized(summary)
    requires EstimateMessage(input.system) + OptionalEstimate(input.instructions)
             + EstimateMessage(SummaryMessage(summary)) + EstimateMessage(ChatMessage(User, input.prompt))
             + Max(input.limits.tailBudget, EstimateRound(input.history[|input.history| - 1]))
             <= input.limits.budget
    ensures RunCompaction(input, false, summarize).Ready?
    ensures RunCompaction(input, false, summarize).newState.Some?
  {
    hide EstimateTokens, EstimateMessage, EstimateRound, PlanFor, Uncovered, Verbatim, CompactionInput.Messages;
    var covered := PlanFor(input.history, input.compaction, input.limits.tailBudget).value.newCoveredThroughSeq;
    TailFits(input.history, input.compaction, input.limits.tailBudget, summary);
    AssembledEstimate(input, CompactionState(Some(summary), covered));
  }

  /**
   * When an uncancelled request over the trigger is refused as over budget: there is too
   * little to fold, whatever the budget, or the summary still leaves too much.
   */
  lemma {:induction false} OverBudgetExactly(
    input: CompactionInput,
    summarize: (Option<string>, seq<HistoryRound>) -> SummarizeOutcome)
    requires EstimateTokens(input.Messages(input.compaction)) > input.limits.threshold
    ensures
      var uncovered := Uncovered(input.history, input.compaction);
      RunCompaction(input, false, summarize).OverBudget?
      <==>
      || |uncovered| <= 1
      || RoundTokens(uncovered) <= input.limits.tailBudget
      || exists k: nat, summary |
           && IsSplit(uncovered, input.limits.tailBudget, k)
           && 0 < k
           && summarize(input.compaction.summary, uncovered[..k]) == Summarized(summary) ::
           EstimateTokens(input.Messages(CompactionState(Some(summary), uncovered[k - 1].seqNo))) > input.limits.budget
  {
    hide PlanOverUncovered, Uncovered, EstimateTokens, IsSplit, RoundTokens, CompactionInput.Messages;
    var uncovered := Uncovered(input.history, input.compaction);
    var budget := input.limits.tailBudget;
    PlanExistsExactly(input.history, input.compaction, budget);
    var h := PlanIsSplit(uncovered, budget);
    forall k: nat | IsSplit(uncovered, budget, k)
      ensures k == h
    {
      SplitIsUnique(uncovered, budget, h, k);
    }
  }

  /** The limits of the program: 0.72 and 0.30 of a budget of 224000 tokens. */
  const PROGRAM_LIMITS := ContextLimits(161280, 224000, 67200)

  /** A long first prompt in a new session, as the program would send it. */
  function LongFirstPrompt(system: string): CompactionInput {
    CompactionInput(ChatMessage(System, system), None, [], NO_COMPACTION, seq(700000, _ => 'x'), PROGRAM_LIMITS)
  }

  /** So a request within the budget can be refused: there is no earlier round to fold. */
  lemma {:induction false} OverBudgetWhileFitting(
    system: string, summarize: (Option<string>, seq<HistoryRound>) -> SummarizeOutcome)
    requires 0 < |system| <= 100000
    ensures
      var input := LongFirstPrompt(system);
      && EstimateTokens(input.Messages(input.compaction)) <= input.limits.budget
      && RunCompaction(input, false, summarize).OverBudget?
  {
    var input := LongFirstPrompt(system);
    AssembledEstimate(input, NO_COMPACTION);
    PlanExistsExactly([], NO_COMPACTION, input.limits.tailBudget);
  }
}
