// Bounded accumulation of streamed text: src/chat/oneshot.rs.
//
// Text is the byte string the source holds; well-formedness is the UTF-8 syntax of
// sections 3 and 4 of RFC 3629.
module Utf8 {

  type Byte = b: int | 0 <= b < 0x100

  predicate IsContinuation(b: Byte) {
    0x80 <= b < 0xC0
  }

  /** Octets in a character starting with `lead`; 0 when no character starts with it. */
  function CharLength(lead: Byte): nat {
    if lead < 0x80 then 1
    else if 0xC2 <= lead < 0xE0 then 2
    else if 0xE0 <= lead < 0xF0 then 3
    else if 0xF0 <= lead < 0xF5 then 4
    else 0
  }

  /** The first character is complete, with the restricted ranges of its second octet. */
  predicate StartsWithChar(s: seq<Byte>)
    requires s != []
  {
    var n := CharLength(s[0]);
    && 1 <= n <= |s|
    && (forall i | 1 <= i < n :: IsContinuation(s[i]))
    && (s[0] == 0xE0 ==> 0xA0 <= s[1])
    && (s[0] == 0xED ==> s[1] < 0xA0)
    && (s[0] == 0xF0 ==> 0x90 <= s[1])
    && (s[0] == 0xF4 ==> s[1] < 0x90)
  }

  predicate IsUtf8(s: seq<Byte>) {
    s == [] || (StartsWithChar(s) && IsUtf8(s[CharLength(s[0])..]))
  }

  /** The source's boundary test looks at one octet only. */
  predicate IsCharBoundary(s: seq<Byte>, i: nat)
    requires i <= |s|
  {
    i == 0 || i == |s| || !IsContinuation(s[i])
  }

  lemma {:induction false} FirstCharStays(a: seq<Byte>, b: seq<Byte>)
    requires a != [] && StartsWithChar(a)
    ensures StartsWithChar(a + b)
  {
    assert forall i | 0 <= i < |a| :: (a + b)[i] == a[i];
  }

  lemma {:induction false} ConcatIsUtf8(a: seq<Byte>, b: seq<Byte>)
    requires IsUtf8(a) && IsUtf8(b)
    ensures IsUtf8(a + b)
  {
    if a == [] {
      assert a + b == b;
    } else {
      var n := CharLength(a[0]);
      ConcatIsUtf8(a[n..], b);
      assert (a + b)[n..] == a[n..] + b;
      FirstCharStays(a, b);
    }
  }

  /** In well-formed text, the one-octet test finds exactly the ends of well-formed prefixes. */
  lemma {:induction false} BoundaryIsPrefixEnd(s: seq<Byte>, i: nat)
    requires IsUtf8(s) && i <= |s|
    ensures IsCharBoundary(s, i) <==> IsUtf8(s[..i])
    ensures IsCharBoundary(s, i) ==> IsUtf8(s[i..])
  {
    if s == [] || i == 0 {
      assert s[..i] == [] && s[i..] == s;
    } else {
      var n := CharLength(s[0]);
      if i < n {
        assert s[..i][0] == s[0];
        assert IsContinuation(s[i]);
      } else {
        BoundaryIsPrefixEnd(s[n..], i - n);
        assert s[..i][n..] == s[n..][..i - n];
        assert s[i..] == s[n..][i - n..];
        assert StartsWithChar(s[..i]);
        if i == n {
          if s[n..] != [] {
            FirstIsLead(s[n..]);
          }
        } else if i < |s| {
          assert s[n..][i - n] == s[i];
        }
      }
    }
  }

  lemma {:induction false} FirstIsLead(s: seq<Byte>)
    requires IsUtf8(s) && s != []
    ensures !IsContinuation(s[0])
  {
  }

  /** The last character boundary at or before `max`. */
  function FloorBoundary(s: seq<Byte>, max: nat): (end: nat)
    requires max <= |s|
    ensures end <= max && IsCharBoundary(s, end)
    ensures forall k | end < k <= max :: !IsCharBoundary(s, k)
  {
    if IsCharBoundary(s, max) then max else FloorBoundary(s, max - 1)
  }

  /** The longest prefix of at most `cap` octets that ends on a boundary. */
  function Capped(s: seq<Byte>, cap: nat): seq<Byte> {
    s[..FloorBoundary(s, if |s| <= cap then |s| else cap)]
  }

  /** What Capped is for: the longest well-formed prefix within the cap. */
  lemma {:induction false} CappedIsLongest(s: seq<Byte>, cap: nat)
    requires IsUtf8(s)
    ensures Capped(s, cap) <= s && |Capped(s, cap)| <= cap && IsUtf8(Capped(s, cap))
    ensures forall k: nat | k <= |s| && k <= cap && IsUtf8(s[..k]) :: k <= |Capped(s, cap)|
    ensures Capped(s, cap) == s <==> |s| <= cap
  {
    var max := if |s| <= cap then |s| else cap;
    BoundaryIsPrefixEnd(s, FloorBoundary(s, max));
    forall k: nat | k <= |s| && k <= cap && IsUtf8(s[..k])
      ensures k <= |Capped(s, cap)|
    {
      BoundaryIsPrefixEnd(s, k);
    }
    assert s[..|s|] == s;
  }

  /** Boundaries below the end do not depend on what follows a well-formed piece. */
  lemma {:induction false} FloorInPrefix(a: seq<Byte>, b: seq<Byte>, max: nat)
    requires IsUtf8(b) && max <= |a|
    ensures FloorBoundary(a + b, max) == FloorBoundary(a, max)
  {
    if max == |a| && b != [] {
      FirstIsLead(b);
    }
    if !IsCharBoundary(a, max) {
      FloorInPrefix(a, b, max - 1);
    }
  }

  lemma {:induction false} FloorInSuffix(a: seq<Byte>, b: seq<Byte>, max: nat)
    requires IsUtf8(b) && max <= |b|
    ensures FloorBoundary(a + b, |a| + max) == |a| + FloorBoundary(b, max)
  {
    if max == 0 {
      if b != [] {
        FirstIsLead(b);
      }
    } else {
      if max < |b| {
        assert (a + b)[|a| + max] == b[max];
      }
      if !IsCharBoundary(b, max) {
        FloorInSuffix(a, b, max - 1);
      }
    }
  }

  /** Capping after each piece or only at the end gives the same text. */
  lemma {:induction false} CappedConcat(a: seq<Byte>, b: seq<Byte>, cap: nat)
    requires IsUtf8(a) && IsUtf8(b)
    ensures Capped(a + b, cap) == if |a| > cap then Capped(a, cap) else a + Capped(b, cap - |a|)
  {
    if |a| > cap {
      FloorInPrefix(a, b, cap);
    } else {
      var max := if |b| <= cap - |a| then |b| else cap - |a|;
      FloorInSuffix(a, b, max);
    }
  }
}

module Oneshot {
  import opened Common
  import opened Utf8

  const MAX_OUTPUT_BYTES: nat := 0x10_0000

  datatype Usage = Usage(input: nat, output: nat)

  datatype StreamEvent =
    | Delta(chunk: seq<Byte>)
    | Done(finishReason: Option<string>, usage: Option<Usage>)
  {
    /** Rust strings are well-formed by construction. */
    ghost predicate Valid() {
      Delta? ==> IsUtf8(chunk)
    }
  }

  datatype Completion = Completion(
    text: seq<Byte>, finishReason: Option<string>, usage: Option<Usage>, truncated: bool)

  /** All text a stream carried, uncapped. */
  function AllText(events: seq<StreamEvent>): seq<Byte> {
    if events == [] then []
    else
      var last := events[|events| - 1];
      AllText(events[..|events| - 1]) + if last.Delta? then last.chunk else []
  }

  /** The last finish reason reported, if any. */
  function LastFinishReason(events: seq<StreamEvent>): Option<string> {
    if events == [] then None
    else
      var last := events[|events| - 1];
      if last.Done? && last.finishReason.Some? then last.finishReason
      else LastFinishReason(events[..|events| - 1])
  }

  function LastUsage(events: seq<StreamEvent>): Option<Usage> {
    if events == [] then None
    else
      var last := events[|events| - 1];
      if last.Done? && last.usage.Some? then last.usage else LastUsage(events[..|events| - 1])
  }

  /** A finish reason is that of the last event that reported one; so are the token counts. */
  lemma {:induction false} LastReported(events: seq<StreamEvent>, reason: string, usage: Usage)
    ensures LastFinishReason(events) == Some(reason) <==>
            exists i :: 0 <= i < |events| && events[i].Done? && events[i].finishReason == Some(reason)
                        && forall j | i < j < |events| :: !(events[j].Done? && events[j].finishReason.Some?)
    ensures LastUsage(events) == Some(usage) <==>
            exists i :: 0 <= i < |events| && events[i].Done? && events[i].usage == Some(usage)
                        && forall j | i < j < |events| :: !(events[j].Done? && events[j].usage.Some?)
  {
    if events != [] {
      var front := events[..|events| - 1];
      LastReported(front, reason, usage);
      assert forall i | 0 <= i < |front| :: front[i] == events[i];
    }
  }

  lemma {:induction false} OneMore(events: seq<StreamEvent>, event: StreamEvent)
    ensures AllText(events + [event]) == AllText(events) + if event.Delta? then event.chunk else []
    ensures LastFinishReason(events + [event])
            == if event.Done? && event.finishReason.Some? then event.finishReason else LastFinishReason(events)
    ensures LastUsage(events + [event])
            == if event.Done? && event.usage.Some? then event.usage else LastUsage(events)
  {
    assert (events + [event])[..|events|] == events;
  }

  method TruncateOnBoundary(s: seq<Byte>, max: nat) returns (r: seq<Byte>)
    ensures r == Capped(s, max)
  {
    if |s| <= max {
      assert s[..|s|] == s;
      return s;
    }
    var end: nat := max;
    while end > 0 && !IsCharBoundary(s, end)
      invariant end <= max
      invariant FloorBoundary(s, max) == FloorBoundary(s, end)
    {
      end := end - 1;
    }
    return s[..end];
  }

  /** One more chunk: what it does to the capped text, and that the subtraction is safe. */
  lemma {:induction false} PushKeepsCap(before: seq<Byte>, chunk: seq<Byte>, cap: nat)
    requires IsUtf8(before) && IsUtf8(chunk)
    ensures IsUtf8(before + chunk)
    ensures |before| > cap ==> Capped(before + chunk, cap) == Capped(before, cap)
    ensures |before| <= cap ==> Capped(before, cap) == before
    ensures |before| <= cap ==> Capped(before + chunk, cap) == before + Capped(chunk, cap - |before|)
    ensures |before| + |chunk| <= cap ==> Capped(before + chunk, cap) == before + chunk
  {
    ConcatIsUtf8(before, chunk);
    CappedConcat(before, chunk, cap);
    CappedIsLongest(before, cap);
    CappedIsLongest(before + chunk, cap);
  }

  class Accumulator {
    var text: seq<Byte>
    var finishReason: Option<string>
    var usage: Option<Usage>
    var truncated: bool
    ghost var received: seq<StreamEvent>

    /** The state is a function of the text received, however it was cut into chunks. */
    ghost predicate Valid()
      reads this
    {
      && IsUtf8(AllText(received))
      && text == Capped(AllText(received), MAX_OUTPUT_BYTES)
      && (truncated <==> |AllText(received)| > MAX_OUTPUT_BYTES)
      && finishReason == LastFinishReason(received)
      && usage == LastUsage(received)
    }

    constructor ()
      ensures Valid() && received == []
    {
      text, finishReason, usage, truncated, received := [], None, None, false, [];
    }

    method Push(event: StreamEvent)
      requires Valid() && event.Valid()
      modifies this
      ensures Valid() && received == old(received) + [event]
    {
      hide AllText, IsUtf8, Capped;
      ghost var before := AllText(received);
      OneMore(received, event);
      received := received + [event];
      match event {
        case Delta(chunk) =>
          PushKeepsCap(before, chunk, MAX_OUTPUT_BYTES);
          if truncated {
            return;
          }
          var remaining: nat := MAX_OUTPUT_BYTES - |text|;
          if |chunk| > remaining {
            var kept := TruncateOnBoundary(chunk, remaining);
            text := text + kept;
            truncated := true;
          } else {
            text := text + chunk;
          }
        case Done(reason, used) =>
          assert AllText(received) == before;
          if reason.Some? {
            finishReason := reason;
          }
          if used.Some? {
            usage := used;
          }
      }
    }

    method Finish() returns (completion: Completion)
      requires Valid()
      ensures completion == Completion(Capped(AllText(received), MAX_OUTPUT_BYTES), LastFinishReason(received),
                                       LastUsage(received), |AllText(received)| > MAX_OUTPUT_BYTES)
    {
      completion := Completion(text, finishReason, usage, truncated);
    }
  }

  /** A stream item: an event, or the transport error that ends the completion. */
  type StreamItem = Result<StreamEvent, string>

  ghost predicate AllValid(items: seq<StreamItem>) {
    forall i | 0 <= i < |items| :: items[i].Ok? ==> items[i].value.Valid()
  }

  /** The events of a stream without errors. */
  function Values(items: seq<StreamItem>): seq<StreamEvent>
    requires forall i | 0 <= i < |items| :: items[i].Ok?
  {
    if items == [] then [] else Values(items[..|items| - 1]) + [items[|items| - 1].value]
  }

  /**
   * Folds a stream: the first error wins; otherwise the text is the longest well-formed
   * prefix of everything received that fits the cap.
   */
  method StreamOneshot(items: seq<StreamItem>) returns (result: Result<Completion, string>)
    requires AllValid(items)
    ensures result.Ok? <==> forall i | 0 <= i < |items| :: items[i].Ok?
    ensures result.Err? ==>
      exists i :: 0 <= i < |items| && items[i] == Err(result.error) && forall j | 0 <= j < i :: items[j].Ok?
    ensures result.Ok? ==>
      var all := AllText(Values(items));
      && IsUtf8(all)
      && result.value.text == Capped(all, MAX_OUTPUT_BYTES)
      && result.value.finishReason == LastFinishReason(Values(items))
      && result.value.usage == LastUsage(Values(items))
      && (result.value.truncated <==> |all| > MAX_OUTPUT_BYTES)
  {
    var accumulator := new Accumulator();
    for i := 0 to |items|
      invariant accumulator.Valid()
      invariant fresh(accumulator)
      invariant forall j | 0 <= j < i :: items[j].Ok?
      invariant accumulator.received == Values(items[..i])
    {
      assert items[..i + 1][..i] == items[..i];
      if items[i].Err? {
        return Err(items[i].error);
      }
      accumulator.Push(items[i].value);
    }
    assert items[..|items|] == items;
    var completion := accumulator.Finish();
    return Ok(completion);
  }
}
