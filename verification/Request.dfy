// Request assembly for one turn: src/chat/request.rs.
module Request {
  import opened Common

  datatype Role = System | User | Assistant

  datatype ChatMessage = ChatMessage(role: Role, content: string)

  /** One completed round: a prompt and the reply it settled with. */
  datatype HistoryRound = HistoryRound(seqNo: nat, user: string, assistant: string)

  /** The active summary of a session and the last round it stands for. */
  datatype CompactionState = CompactionState(summary: Option<string>, coveredThroughSeq: nat) {
    predicate Covers(seqNo: nat) {
      summary.Some? && seqNo <= coveredThroughSeq
    }
  }

  const NO_COMPACTION := CompactionState(None, 0)

  const SUMMARY_HEADER :=
    "Summary of the earlier conversation (older turns were compacted to fit the context window):\n\n"

  function SummaryMessage(summary: string): ChatMessage {
    ChatMessage(System, SUMMARY_HEADER + summary)
  }

  /** The rounds a summary does not stand for, in order. */
  function Uncovered(history: seq<HistoryRound>, compaction: CompactionState): seq<HistoryRound> {
    if history == [] then []
    else
      var rest := Uncovered(history[..|history| - 1], compaction);
      var last := history[|history| - 1];
      if compaction.Covers(last.seqNo) then rest else rest + [last]
  }

  /** Ascending, duplicate-free sequence numbers. */
  ghost predicate Ascending(rounds: seq<HistoryRound>) {
    forall i, j | 0 <= i < j < |rounds| :: rounds[i].seqNo < rounds[j].seqNo
  }

  /** The two messages of every round, in order. */
  function Verbatim(rounds: seq<HistoryRound>): seq<ChatMessage> {
    if rounds == [] then []
    else
      var last := rounds[|rounds| - 1];
      Verbatim(rounds[..|rounds| - 1])
      + [ChatMessage(User, last.user), ChatMessage(Assistant, last.assistant)]
  }

  function Preamble(
    system: ChatMessage, instructions: Option<ChatMessage>, compaction: CompactionState
  ): seq<ChatMessage> {
    [system]
    + (if instructions.Some? then [instructions.value] else [])
    + (if compaction.summary.Some? then [SummaryMessage(compaction.summary.value)] else [])
  }

  /** What a request must contain: preamble, uncovered rounds verbatim, new prompt. */
  function Assembled(
    system: ChatMessage, instructions: Option<ChatMessage>, history: seq<HistoryRound>,
    compaction: CompactionState, newPrompt: string
  ): seq<ChatMessage> {
    Preamble(system, instructions, compaction)
    + Verbatim(Uncovered(history, compaction))
    + [ChatMessage(User, newPrompt)]
  }

  lemma {:induction false} PreambleParts(
      system: ChatMessage, instructions: Option<ChatMessage>, compaction: CompactionState)
    ensures Preamble(system, instructions, compaction) + Verbatim(Uncovered([], compaction))
            == [system]
               + (if instructions.Some? then [instructions.value] else [])
               + (if compaction.summary.Some? then [SummaryMessage(compaction.summary.value)] else [])
  {
  }

  lemma {:induction false} NextRound(history: seq<HistoryRound>, i: nat, compaction: CompactionState)
    requires i < |history|
    ensures compaction.Covers(history[i].seqNo) ==>
              Uncovered(history[..i + 1], compaction) == Uncovered(history[..i], compaction)
    ensures !compaction.Covers(history[i].seqNo) ==>
              Verbatim(Uncovered(history[..i + 1], compaction))
              == Verbatim(Uncovered(history[..i], compaction))
                 + [ChatMessage(User, history[i].user)] + [ChatMessage(Assistant, history[i].assistant)]
  {
    assert history[..i + 1][..i] == history[..i];
    var kept := Uncovered(history[..i], compaction);
    assert (kept + [history[i]])[..|kept|] == kept;
  }

  predicate EndsWith(text: string, end: string) {
    |end| <= |text| && text[|text| - |end|..] == end
  }

  /** How many messages come before the history: the system prompt, instructions and summary if any. */
  function LeadLength(instructions: Option<ChatMessage>, compaction: CompactionState): nat {
    1 + (if instructions.Some? then 1 else 0) + (if compaction.summary.Some? then 1 else 0)
  }

  /**
   * What the provider is sent. The instructions follow the system message. The summary, whose
   * text ends the last system message, comes before the rounds it does not stand for, each as
   * a prompt directly followed by its reply, and the new prompt is last.
   */
  ghost predicate IsRequest(
    messages: seq<ChatMessage>, system: ChatMessage, instructions: Option<ChatMessage>, rounds: seq<HistoryRound>,
    compaction: CompactionState, newPrompt: string)
  {
    var lead := LeadLength(instructions, compaction);
    && |messages| == lead + 2 * |rounds| + 1
    && messages[0] == system
    && (instructions.Some? ==> messages[1] == instructions.value)
    && (compaction.summary.Some? ==>
          && messages[lead - 1].role == System
          && EndsWith(messages[lead - 1].content, compaction.summary.value))
    && (forall i | 0 <= i < |rounds| ::
          && messages[lead + 2 * i] == ChatMessage(User, rounds[i].user)
          && messages[lead + 2 * i + 1] == ChatMessage(Assistant, rounds[i].assistant))
    && messages[|messages| - 1] == ChatMessage(User, newPrompt)
  }

  /** Whether a round is in the request word for word. */
  ghost predicate SentVerbatim(messages: seq<ChatMessage>, round: HistoryRound) {
    exists j :: 0 <= j < |messages| - 1 && messages[j] == ChatMessage(User, round.user)
                && messages[j + 1] == ChatMessage(Assistant, round.assistant)
  }

  /** Whether a summary that stands for the round is in the request. */
  ghost predicate SentInSummary(messages: seq<ChatMessage>, round: HistoryRound, compaction: CompactionState) {
    && compaction.summary.Some? && round.seqNo <= compaction.coveredThroughSeq
    && exists j :: 0 <= j < |messages| && messages[j].role == System
                   && EndsWith(messages[j].content, compaction.summary.value)
  }

  lemma {:induction false} AssembledIsRequest(
    system: ChatMessage, instructions: Option<ChatMessage>, history: seq<HistoryRound>,
    compaction: CompactionState, newPrompt: string)
    ensures IsRequest(Assembled(system, instructions, history, compaction, newPrompt), system, instructions,
                      Uncovered(history, compaction), compaction, newPrompt)
  {
    hide Uncovered, Verbatim;
    var rounds := Uncovered(history, compaction);
    var messages := Assembled(system, instructions, history, compaction, newPrompt);
    var lead := LeadLength(instructions, compaction);
    assert |Preamble(system, instructions, compaction)| == lead;
    VerbatimLength(rounds);
    forall i | 0 <= i < |rounds|
      ensures messages[lead + 2 * i] == ChatMessage(User, rounds[i].user)
      ensures messages[lead + 2 * i + 1] == ChatMessage(Assistant, rounds[i].assistant)
    {
      VerbatimAt(rounds, i);
    }
    if compaction.summary.Some? {
      var content := SummaryMessage(compaction.summary.value).content;
      assert content[|SUMMARY_HEADER|..] == compaction.summary.value;
    }
  }

  lemma {:induction false} VerbatimLength(rounds: seq<HistoryRound>)
    ensures |Verbatim(rounds)| == 2 * |rounds|
  {
    if rounds != [] {
      VerbatimAt(rounds, 0);
    }
  }

  /** Nothing of the history is lost: a round is sent word for word, or a summary of it is sent. */
  lemma {:induction false} NothingIsLost(
    messages: seq<ChatMessage>, system: ChatMessage, instructions: Option<ChatMessage>, history: seq<HistoryRound>,
    compaction: CompactionState, newPrompt: string)
    requires IsRequest(messages, system, instructions, Uncovered(history, compaction), compaction, newPrompt)
    ensures forall r | r in history :: SentVerbatim(messages, r) || SentInSummary(messages, r, compaction)
  {
    hide Uncovered, EndsWith;
    var rounds, lead := Uncovered(history, compaction), LeadLength(instructions, compaction);
    UncoveredMembers(history, compaction);
    forall r | r in history
      ensures SentVerbatim(messages, r) || SentInSummary(messages, r, compaction)
    {
      if r in rounds {
        var i :| 0 <= i < |rounds| && rounds[i] == r;
        assert messages[lead + 2 * i] == ChatMessage(User, r.user);
        assert messages[lead + 2 * i + 1] == ChatMessage(Assistant, r.assistant);
      } else {
        assert messages[lead - 1].role == System;
      }
    }
  }

  method Assemble(
    system: ChatMessage, instructions: Option<ChatMessage>, history: seq<HistoryRound>,
    compaction: CompactionState, newPrompt: string
  ) returns (messages: seq<ChatMessage>)
    ensures messages == Assembled(system, instructions, history, compaction, newPrompt)
    ensures IsRequest(messages, system, instructions, Uncovered(history, compaction), compaction, newPrompt)
    ensures forall r | r in history :: SentVerbatim(messages, r) || SentInSummary(messages, r, compaction)
  {
    hide CompactionState.Covers, Preamble, Verbatim, Uncovered, IsRequest, SentVerbatim, SentInSummary;
    PreambleParts(system, instructions, compaction);
    messages := [system];
    if instructions.Some? {
      messages := messages + [instructions.value];
    }
    if compaction.summary.Some? {
      messages := messages + [SummaryMessage(compaction.summary.value)];
    }
    for i := 0 to |history|
      invariant messages == Preamble(system, instructions, compaction)
                            + Verbatim(Uncovered(history[..i], compaction))
    {
      NextRound(history, i, compaction);
      if compaction.Covers(history[i].seqNo) {
        continue;
      }
      messages := messages + [ChatMessage(User, history[i].user)];
      messages := messages + [ChatMessage(Assistant, history[i].assistant)];
    }
    assert history[..|history|] == history;
    messages := messages + [ChatMessage(User, newPrompt)];
    AssembledIsRequest(system, instructions, history, compaction, newPrompt);
    NothingIsLost(messages, system, instructions, history, compaction, newPrompt);
  }

  /** Filtering distributes over concatenation. */
  lemma {:induction false} UncoveredConcat(a: seq<HistoryRound>, b: seq<HistoryRound>, compaction: CompactionState)
    ensures Uncovered(a + b, compaction) == Uncovered(a, compaction) + Uncovered(b, compaction)
  {
    if b == [] {
      assert a + b == a;
    } else {
      UncoveredConcat(a, b[..|b| - 1], compaction);
      assert (a + b)[..|a + b| - 1] == a + b[..|b| - 1];
    }
  }

  /** The uncovered rounds are exactly the members of the history the summary leaves out. */
  lemma {:induction false} UncoveredMembers(history: seq<HistoryRound>, compaction: CompactionState)
    ensures forall r :: r in Uncovered(history, compaction) <==> r in history && !compaction.Covers(r.seqNo)
  {
    if history != [] {
      var front := history[..|history| - 1];
      UncoveredMembers(front, compaction);
      assert history == front + [history[|history| - 1]];
    }
  }

  lemma {:induction false} UncoveredAscending(history: seq<HistoryRound>, compaction: CompactionState)
    requires Ascending(history)
    ensures Ascending(Uncovered(history, compaction))
  {
    if history != [] {
      var front := history[..|history| - 1];
      UncoveredAscending(front, compaction);
      UncoveredMembers(front, compaction);
    }
  }

  lemma {:induction false} UncoveredAll(history: seq<HistoryRound>, compaction: CompactionState)
    requires forall r | r in history :: !compaction.Covers(r.seqNo)
    ensures Uncovered(history, compaction) == history
  {
    if history != [] {
      UncoveredAll(history[..|history| - 1], compaction);
    }
  }

  lemma {:induction false} UncoveredNone(history: seq<HistoryRound>, compaction: CompactionState)
    requires forall r | r in history :: compaction.Covers(r.seqNo)
    ensures Uncovered(history, compaction) == []
  {
    if history != [] {
      UncoveredNone(history[..|history| - 1], compaction);
    }
  }

  lemma {:induction false} VerbatimConcat(a: seq<HistoryRound>, b: seq<HistoryRound>)
    ensures Verbatim(a + b) == Verbatim(a) + Verbatim(b)
  {
    if b == [] {
      assert a + b == a;
    } else {
      VerbatimConcat(a, b[..|b| - 1]);
      assert (a + b)[..|a + b| - 1] == a + b[..|b| - 1];
    }
  }

  /** Every uncovered round is sent once, as a prompt directly followed by its reply. */
  lemma {:induction false} VerbatimAt(rounds: seq<HistoryRound>, i: nat)
    requires i < |rounds|
    ensures |Verbatim(rounds)| == 2 * |rounds|
    ensures Verbatim(rounds)[2 * i] == ChatMessage(User, rounds[i].user)
    ensures Verbatim(rounds)[2 * i + 1] == ChatMessage(Assistant, rounds[i].assistant)
  {
    var front := rounds[..|rounds| - 1];
    if front != [] {
      VerbatimAt(front, if i < |front| then i else 0);
    }
  }
}
