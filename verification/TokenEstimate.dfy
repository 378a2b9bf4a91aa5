// Heuristic token counts: src/chat/token_estimate.rs.
module TokenEstimate {
  import opened Request

  const CHARS_PER_TOKEN := 4
  const PER_MESSAGE_OVERHEAD_TOKENS := 4

  function EstimateMessage(message: ChatMessage): nat {
    |message.content| / CHARS_PER_TOKEN + PER_MESSAGE_OVERHEAD_TOKENS
  }

  function EstimateTokens(messages: seq<ChatMessage>): nat {
    if messages == [] then 0
    else EstimateTokens(messages[..|messages| - 1]) + EstimateMessage(messages[|messages| - 1])
  }

  function EstimateRound(round: HistoryRound): nat {
    (|round.user| + |round.assistant|) / CHARS_PER_TOKEN + 2 * PER_MESSAGE_OVERHEAD_TOKENS
  }

  /** Total of EstimateRound, summed from the newest round backwards as the planner does. */
  function RoundTokens(rounds: seq<HistoryRound>): nat {
    if rounds == [] then 0 else EstimateRound(rounds[0]) + RoundTokens(rounds[1..])
  }

  lemma {:induction false} EstimateConcat(a: seq<ChatMessage>, b: seq<ChatMessage>)
    ensures EstimateTokens(a + b) == EstimateTokens(a) + EstimateTokens(b)
  {
    if b == [] {
      assert a + b == a;
    } else {
      EstimateConcat(a, b[..|b| - 1]);
      assert (a + b)[..|a + b| - 1] == a + b[..|b| - 1];
    }
  }

  /** Rounding once per round instead of once per message costs at most one token a round. */
  lemma {:induction false} RoundsAgainstMessages(rounds: seq<HistoryRound>)
    ensures EstimateTokens(Verbatim(rounds)) <= RoundTokens(rounds)
    ensures RoundTokens(rounds) <= EstimateTokens(Verbatim(rounds)) + |rounds|
  {
    if rounds != [] {
      var first := rounds[0];
      var rest := rounds[1..];
      RoundsAgainstMessages(rest);
      assert rounds == [first] + rest;
      VerbatimConcat([first], rest);
      EstimateConcat(Verbatim([first]), Verbatim(rest));
      var u, a := ChatMessage(User, first.user), ChatMessage(Assistant, first.assistant);
      assert Verbatim([first]) == [] + [u, a];
      assert [u, a][..1] == [u] && [u][..0] == [];
      assert EstimateTokens([u]) == EstimateMessage(u);
      assert EstimateTokens([u, a]) == EstimateMessage(u) + EstimateMessage(a);
    }
  }

  /** A longer suffix never costs fewer tokens. */
  lemma {:induction false} SuffixMonotone(rounds: seq<HistoryRound>, lo: nat, hi: nat)
    requires lo <= hi <= |rounds|
    ensures RoundTokens(rounds[hi..]) <= RoundTokens(rounds[lo..])
    ensures lo < hi ==> RoundTokens(rounds[hi..]) < RoundTokens(rounds[lo..])
    decreases hi - lo
  {
    if lo < hi {
      SuffixMonotone(rounds, lo + 1, hi);
      assert rounds[lo..][1..] == rounds[lo + 1..];
    }
  }
}
