// One JSON object per line: src/conversation/session_log.rs and the reading side of
// src/memory/event_log.rs, at the level of characters.
module Jsonl {
  import opened Common
  import opened Text

  /** The JSON encoder and decoder of one event type, abstracted. */
  datatype Codec<!T(!new)> = Codec(encode: T -> string, decode: string -> Option<T>) {
    /**
     * What is assumed of it. Encoded strings hold no raw control character (section 7 of
     * RFC 8259), an object is not complete before its closing brace, and two objects run
     * together, the first possibly cut short, are not one object.
     */
    ghost predicate Faithful() {
      && (forall e: T :: encode(e) != "" && '\n' !in encode(e) && '\r' !in encode(e))
      && (forall e: T :: decode(encode(e)) == Some(e))
      && (forall e: T, k | 0 <= k < |encode(e)| :: decode(encode(e)[..k]) == None)
      && (forall a: T, b: T, k | 0 < k <= |encode(a)| :: decode(encode(a)[..k] + encode(b)) == None)
    }
  }

  function StripCarriageReturn(line: string): string {
    if line != "" && line[|line| - 1] == '\r' then line[..|line| - 1] else line
  }

  /** `str::lines`: a line ends with LF or CRLF; the last one may have no ending. */
  function Lines(s: string): seq<string>
    decreases |s|
  {
    if s == "" then []
    else
      var i := FindNewline(s);
      if i == |s| then [s] else [StripCarriageReturn(s[..i])] + Lines(s[i + 1..])
  }

  /** A log copied with CRLF line ends has the same lines. */
  lemma {:induction false} CrlfLine(line: string, rest: string)
    requires '\n' !in line && (line == "" || line[|line| - 1] != '\r')
    ensures Lines(line + "\r\n" + rest) == [line] + Lines(rest)
    ensures Lines(line + "\n" + rest) == [line] + Lines(rest)
  {
    var crlf, lf := line + "\r\n" + rest, line + "\n" + rest;
    NewlineIsFirst(crlf, |line| + 1);
    NewlineIsFirst(lf, |line|);
    assert crlf[..|line| + 1] == line + "\r" && crlf[|line| + 2..] == rest;
    assert lf[..|line|] == line && lf[|line| + 1..] == rest;
    assert (line + "\r")[..|line|] == line;
  }

  /** The final line has no newline, so a crash may have cut it short. */
  predicate MayBeTorn(contents: string) {
    contents != "" && contents[|contents| - 1] != '\n'
  }

  function FirstMalformed<T(!new)>(codec: Codec<T>, lines: seq<string>): (bad: nat)
    ensures bad <= |lines|
  {
    if lines == [] || codec.decode(lines[0]).None? then 0 else 1 + FirstMalformed(codec, lines[1..])
  }

  /** The events on the lines before the first malformed one. */
  function LeadingEvents<T(!new)>(codec: Codec<T>, lines: seq<string>): seq<T> {
    if lines == [] then []
    else match codec.decode(lines[0])
      case None => []
      case Some(event) => [event] + LeadingEvents(codec, lines[1..])
  }

  /** Only a malformed last line of an unterminated file is forgiven; errors carry the line number. */
  function ParsedLines<T(!new)>(codec: Codec<T>, lines: seq<string>, torn: bool): Result<seq<T>, nat> {
    var bad := FirstMalformed(codec, lines);
    if bad == |lines| || (torn && bad == |lines| - 1) then Ok(LeadingEvents(codec, lines)) else Err(bad + 1)
  }

  function ParsedPrefix<T(!new)>(codec: Codec<T>, contents: string): Result<seq<T>, nat> {
    ParsedLines(codec, Lines(contents), MayBeTorn(contents))
  }

  /** The same result with one event, on one line, in front. */
  function Behind<T>(event: T, result: Result<seq<T>, nat>): Result<seq<T>, nat> {
    match result
    case Ok(events) => Ok([event] + events)
    case Err(line) => Err(line + 1)
  }

  /** Every decodable line, whatever stands between them. */
  function ReadEvents<T(!new)>(codec: Codec<T>, lines: seq<string>): seq<T> {
    if lines == [] then []
    else
      var rest := ReadEvents(codec, lines[1..]);
      match codec.decode(lines[0])
      case None => rest
      case Some(event) => [event] + rest
  }

  /** Up to index i the first malformed line has not been met. */
  lemma {:induction false} LeadingSnoc<T(!new)>(codec: Codec<T>, lines: seq<string>, i: nat)
    requires i < |lines|
    requires FirstMalformed(codec, lines[..i]) == i
    ensures codec.decode(lines[i]).Some? ==>
      && FirstMalformed(codec, lines[..i + 1]) == i + 1
      && LeadingEvents(codec, lines[..i + 1]) == LeadingEvents(codec, lines[..i]) + [codec.decode(lines[i]).value]
    ensures codec.decode(lines[i]).None? ==>
      && FirstMalformed(codec, lines) == i
      && LeadingEvents(codec, lines) == LeadingEvents(codec, lines[..i])
  {
    if i > 0 {
      assert lines[..i][1..] == lines[1..][..i - 1];
      assert lines[..i + 1][1..] == lines[1..][..i];
      LeadingSnoc(codec, lines[1..], i - 1);
    }
  }

  method ParseJsonlPrefix<T(!new)>(codec: Codec<T>, contents: string) returns (result: Result<seq<T>, nat>)
    ensures result == ParsedPrefix(codec, contents)
  {
    var lines := Lines(contents);
    var finalLineMayBeTruncated := contents != "" && contents[|contents| - 1] != '\n';
    var events: seq<T> := [];
    for i := 0 to |lines|
      invariant FirstMalformed(codec, lines[..i]) == i
      invariant events == LeadingEvents(codec, lines[..i])
    {
      LeadingSnoc(codec, lines, i);
      match codec.decode(lines[i]) {
        case Some(event) =>
          events := events + [event];
        case None =>
          if finalLineMayBeTruncated && i + 1 == |lines| {
            return Ok(events);
          }
          return Err(i + 1);
      }
    }
    assert lines[..|lines|] == lines;
    return Ok(events);
  }

  /** A log file; append does not look at what is already there. */
  class LogFile<T(!new)> {
    const codec: Codec<T>
    var contents: string

    constructor (codec: Codec<T>, contents: string)
      ensures this.codec == codec && this.contents == contents
    {
      this.codec, this.contents := codec, contents;
    }

    method AppendEvent(event: T)
      requires codec.Faithful()
      modifies this
      ensures contents == old(contents) + codec.encode(event) + "\n"
      ensures !MayBeTorn(old(contents)) && ParsedPrefix(codec, old(contents)).Ok? ==>
        ParsedPrefix(codec, contents) == Ok(ParsedPrefix(codec, old(contents)).value + [event])
    {
      AppendToTerminated(codec, contents, event);
      contents := contents + codec.encode(event);
      contents := contents + "\n";
    }
  }

  /** A log written without a crash. */
  function Render<T(!new)>(codec: Codec<T>, events: seq<T>): string {
    if events == [] then "" else codec.encode(events[0]) + "\n" + Render(codec, events[1..])
  }

  /** How many events have their whole JSON text within the first `cut` characters. */
  function CompleteEvents<T(!new)>(codec: Codec<T>, events: seq<T>, cut: nat): (n: nat)
    ensures n <= |events|
  {
    if events == [] then 0
    else
      var size := |codec.encode(events[0])|;
      if cut < size then 0
      else if cut == size then 1
      else 1 + CompleteEvents(codec, events[1..], cut - size - 1)
  }

  lemma {:induction false} FirstLine(line: string, rest: string)
    requires '\n' !in line
    ensures Lines(line + "\n" + rest) == [StripCarriageReturn(line)] + Lines(rest)
  {
    var s := line + "\n" + rest;
    assert s[..|line|] == line && s[|line|] == '\n';
    NewlineIsFirst(s, |line|);
    assert s[|line| + 1..] == rest;
  }

  lemma {:induction false} LastLine(line: string)
    requires '\n' !in line && line != ""
    ensures Lines(line) == [line]
  {
    assert line[..|line|] == line;
    NewlineIsFirst(line, |line|);
  }

  /** What a line in front changes, for every reader. */
  lemma {:induction false} ParseBehind<T(!new)>(codec: Codec<T>, line: string, lines: seq<string>, torn: bool)
    requires torn ==> lines != []
    ensures ParsedLines(codec, [line] + lines, torn)
            == match codec.decode(line)
               case None => Err(1)
               case Some(event) => Behind(event, ParsedLines(codec, lines, torn))
    ensures ReadEvents(codec, [line] + lines)
            == (if codec.decode(line).None? then [] else [codec.decode(line).value]) + ReadEvents(codec, lines)
  {
    var all := [line] + lines;
    assert all[1..] == lines && all[0] == line;
  }

  /** Reading a file of one line. */
  lemma {:induction false} SingleLine<T(!new)>(codec: Codec<T>, contents: string, line: string)
    requires Lines(contents) == [line]
    ensures codec.decode(line).Some? ==>
      && ParsedPrefix(codec, contents) == Ok([codec.decode(line).value])
      && ReadEvents(codec, Lines(contents)) == [codec.decode(line).value]
    ensures codec.decode(line).None? && MayBeTorn(contents) ==> ParsedPrefix(codec, contents) == Ok([])
    ensures codec.decode(line).None? && !MayBeTorn(contents) ==> ParsedPrefix(codec, contents) == Err(1)
    ensures codec.decode(line).None? ==> ReadEvents(codec, Lines(contents)) == []
  {
    var none: seq<string> := [];
    assert Lines(contents)[1..] == none;
    assert LeadingEvents(codec, none) == [] && ReadEvents(codec, none) == [];
    if codec.decode(line).Some? {
      var one := [codec.decode(line).value];
      assert one + LeadingEvents(codec, none) == one && one + ReadEvents(codec, none) == one;
    }
  }

  lemma {:induction false} NoLinesWhenEmpty(s: string)
    ensures Lines(s) == [] <==> s == ""
  {
  }

  /** A well-formed first line goes through; line numbers behind it shift by one. */
  lemma {:induction false} ParseCons<T(!new)>(codec: Codec<T>, event: T, rest: string)
    requires codec.Faithful()
    ensures ParsedPrefix(codec, codec.encode(event) + "\n" + rest) == Behind(event, ParsedPrefix(codec, rest))
    ensures ReadEvents(codec, Lines(codec.encode(event) + "\n" + rest)) == [event] + ReadEvents(codec, Lines(rest))
  {
    var line := codec.encode(event);
    FirstLine(line, rest);
    assert StripCarriageReturn(line) == line by {
      assert line[|line| - 1] in line;
    }
    TornBehind(line, rest);
    NoLinesWhenEmpty(rest);
    ParseBehind(codec, line, Lines(rest), MayBeTorn(rest));
  }

  lemma {:induction false} TornBehind(line: string, rest: string)
    ensures MayBeTorn(line + "\n" + rest) <==> MayBeTorn(rest)
  {
    var all := line + "\n" + rest;
    assert all[|all| - 1] == if rest == "" then '\n' else rest[|rest| - 1];
  }

  /** The text of a cut log, seen from its first event. */
  lemma {:induction false} CutCons<T(!new)>(codec: Codec<T>, events: seq<T>, cut: nat)
    requires events != [] && cut <= |Render(codec, events)|
    ensures
      var first := codec.encode(events[0]);
      if cut <= |first| then Render(codec, events)[..cut] == first[..cut]
      else
        && cut - |first| - 1 <= |Render(codec, events[1..])|
        && Render(codec, events)[..cut] == first + "\n" + Render(codec, events[1..])[..cut - |first| - 1]
  {
  }

  /** An event whose text was cut is not read; one whose newline alone is missing is. */
  lemma {:induction false} TornFirst<T(!new)>(codec: Codec<T>, event: T, cut: nat)
    requires codec.Faithful() && cut <= |codec.encode(event)|
    ensures
      var read := if cut == |codec.encode(event)| then [event] else [];
      && ParsedPrefix(codec, codec.encode(event)[..cut]) == Ok(read)
      && ReadEvents(codec, Lines(codec.encode(event)[..cut])) == read
  {
    var first := codec.encode(event);
    var line := first[..cut];
    if cut > 0 {
      assert '\n' !in line by {
        assert forall c | c in line :: c in first;
      }
      LastLine(line);
      assert line[|line| - 1] in first;
      assert cut == |first| ==> line == first;
      SingleLine(codec, line, line);
    }
  }

  lemma {:induction false} EmptyReads<T(!new)>(codec: Codec<T>)
    ensures Render(codec, []) == ""
    ensures ParsedPrefix(codec, "") == Ok([]) && ReadEvents(codec, Lines("")) == []
  {
  }

  /** Cut anywhere, a log reads as exactly the events whose text survived; both readers agree. */
  lemma {:induction false} TornLogReads<T(!new)>(codec: Codec<T>, events: seq<T>, cut: nat)
    requires codec.Faithful() && cut <= |Render(codec, events)|
    ensures ParsedPrefix(codec, Render(codec, events)[..cut]) == Ok(events[..CompleteEvents(codec, events, cut)])
    ensures ReadEvents(codec, Lines(Render(codec, events)[..cut])) == events[..CompleteEvents(codec, events, cut)]
  {
    hide ParsedPrefix, ReadEvents, Lines, Render;
    if events == [] {
      EmptyReads(codec);
    } else {
      CutCons(codec, events, cut);
      var size := |codec.encode(events[0])|;
      if cut <= size {
        TornFirst(codec, events[0], cut);
        assert events[..1] == [events[0]];
      } else {
        TornLogReads(codec, events[1..], cut - size - 1);
        TornRest(codec, events, cut - size - 1);
      }
    }
  }

  lemma {:induction false} TornRest<T(!new)>(codec: Codec<T>, events: seq<T>, rest: nat)
    requires codec.Faithful() && events != [] && rest <= |Render(codec, events[1..])|
    requires ParsedPrefix(codec, Render(codec, events[1..])[..rest])
             == Ok(events[1..][..CompleteEvents(codec, events[1..], rest)])
    requires ReadEvents(codec, Lines(Render(codec, events[1..])[..rest]))
             == events[1..][..CompleteEvents(codec, events[1..], rest)]
    ensures
      var contents := codec.encode(events[0]) + "\n" + Render(codec, events[1..])[..rest];
      var n := CompleteEvents(codec, events[1..], rest) + 1;
      && ParsedPrefix(codec, contents) == Ok(events[..n])
      && ReadEvents(codec, Lines(contents)) == events[..n]
  {
    ParseCons(codec, events[0], Render(codec, events[1..])[..rest]);
    TakeCons(events, CompleteEvents(codec, events[1..], rest));
  }

  lemma {:induction false} TakeCons<T>(events: seq<T>, n: nat)
    requires events != [] && n < |events|
    ensures [events[0]] + events[1..][..n] == events[..n + 1]
  {
  }

  /** A malformed line that is not an unterminated tail is an error at its own number. */
  lemma {:induction false} MalformedLineIsReported<T(!new)>(codec: Codec<T>, events: seq<T>, line: string, rest: string)
    requires codec.Faithful()
    requires '\n' !in line && codec.decode(StripCarriageReturn(line)) == None
    ensures ParsedPrefix(codec, Render(codec, events) + (line + "\n" + rest)) == Err(|events| + 1)
  {
    var bad := line + "\n" + rest;
    if events == [] {
      FirstLine(line, rest);
      TornBehind(line, rest);
      NoLinesWhenEmpty(rest);
      ParseBehind(codec, StripCarriageReturn(line), Lines(rest), MayBeTorn(rest));
      assert Render(codec, events) + bad == bad;
    } else {
      MalformedLineIsReported(codec, events[1..], line, rest);
      ParseCons(codec, events[0], Render(codec, events[1..]) + bad);
      assert Render(codec, events) + bad
          == codec.encode(events[0]) + "\n" + (Render(codec, events[1..]) + bad);
    }
  }

  lemma {:induction false} LinesStep(head: string, tail: string, b: string)
    requires '\n' !in head
    requires Lines(tail + b) == Lines(tail) + Lines(b)
    ensures Lines(head + "\n" + (tail + b)) == Lines(head + "\n" + tail) + Lines(b)
  {
    FirstLine(head, tail);
    FirstLine(head, tail + b);
    Associative([StripCarriageReturn(head)], Lines(tail), Lines(b));
  }

  /** Behind a final newline, lines are just added. */
  lemma {:induction false} LinesConcat(a: string, b: string)
    requires !MayBeTorn(a)
    ensures Lines(a + b) == Lines(a) + Lines(b)
    decreases |a|
  {
    if a == "" {
      assert a + b == b;
    } else {
      var i := FindNewline(a);
      var tail := a[i + 1..];
      SplitAtNewline(a, b, i);
      TornBehind(a[..i], tail);
      LinesConcat(tail, b);
      LinesStep(a[..i], tail, b);
    }
  }

  lemma {:induction false} ParseSnoc<T(!new)>(codec: Codec<T>, lines: seq<string>, line: string, event: T)
    requires ParsedLines(codec, lines, false).Ok? && codec.decode(line) == Some(event)
    ensures ParsedLines(codec, lines + [line], false) == Ok(ParsedLines(codec, lines, false).value + [event])
  {
    var none: seq<string> := [];
    if lines == [] {
      ParseBehind(codec, line, none, false);
      assert lines + [line] == [line] + none;
      assert LeadingEvents(codec, none) == [];
      assert LeadingEvents(codec, none) + [event] == [event] + LeadingEvents(codec, none);
    } else {
      var first, rest := lines[0], lines[1..];
      assert lines == [first] + rest;
      ParseBehind(codec, first, rest, false);
      ParseSnoc(codec, rest, line, event);
      ParseBehind(codec, first, rest + [line], false);
      assert lines + [line] == [first] + (rest + [line]);
      var front, back := codec.decode(first).value, ParsedLines(codec, rest, false).value;
      assert [front] + back + [event] == [front] + (back + [event]);
    }
  }

  /** Appending to a newline-terminated log appends one event. */
  lemma {:induction false} AppendToTerminated<T(!new)>(codec: Codec<T>, contents: string, event: T)
    requires codec.Faithful()
    ensures !MayBeTorn(contents) && ParsedPrefix(codec, contents).Ok? ==>
      ParsedPrefix(codec, contents + codec.encode(event) + "\n") == Ok(ParsedPrefix(codec, contents).value + [event])
  {
    if !MayBeTorn(contents) && ParsedPrefix(codec, contents).Ok? {
      var line := codec.encode(event);
      FirstLine(line, "");
      assert StripCarriageReturn(line) == line by {
        assert line[|line| - 1] in line;
      }
      assert line + "\n" + "" == line + "\n";
      assert Lines(line + "\n") == [line];
      LinesConcat(contents, line + "\n");
      var all := contents + line + "\n";
      assert all == contents + (line + "\n");
      assert all[|all| - 1] == '\n';
      ParseSnoc(codec, Lines(contents), line, event);
    }
  }

  /**
   * What appending `event` does to a log that reads as `complete`. Behind a newline the
   * log gains the event. Behind a torn line the event joins that line: the strict reader
   * reports an error and the lenient one does not see the event.
   */
  ghost predicate AppendLaw<T(!new)>(codec: Codec<T>, contents: string, complete: seq<T>, event: T) {
    var appended := contents + codec.encode(event) + "\n";
    && (ParsedPrefix(codec, appended) == Ok(complete + [event]) <==> !MayBeTorn(contents))
    && (MayBeTorn(contents) ==> ParsedPrefix(codec, appended).Err?)
    && (MayBeTorn(contents) ==> ReadEvents(codec, Lines(appended)) <= complete)
  }

  /** The append law holds exactly for newline-terminated logs. */
  lemma {:induction false} AppendLawExactly<T(!new)>(codec: Codec<T>, events: seq<T>, cut: nat, event: T)
    requires codec.Faithful() && cut <= |Render(codec, events)|
    ensures AppendLaw(codec, Render(codec, events)[..cut], events[..CompleteEvents(codec, events, cut)], event)
  {
    hide ParsedPrefix, ReadEvents, Lines, Render;
    EmptyReads(codec);
    var contents := Render(codec, events)[..cut];
    if !MayBeTorn(contents) {
      TornLogReads(codec, events, cut);
      AppendToTerminated(codec, contents, event);
    } else {
      CutCons(codec, events, cut);
      var size := |codec.encode(events[0])|;
      if cut <= size {
        GluedLine(codec, events[0], cut, event);
      } else {
        var rest := cut - size - 1;
        var tail := Render(codec, events[1..])[..rest];
        TornBehind(codec.encode(events[0]), tail);
        AppendLawExactly(codec, events[1..], rest, event);
        var n := CompleteEvents(codec, events[1..], rest);
        AppendCons(codec, events[0], tail, events[1..][..n], event);
        TakeCons(events, n);
      }
    }
  }

  lemma {:induction false} GluedLine<T(!new)>(codec: Codec<T>, first: T, cut: nat, event: T)
    requires codec.Faithful() && 0 < cut <= |codec.encode(first)|
    ensures
      var appended := codec.encode(first)[..cut] + codec.encode(event) + "\n";
      && ParsedPrefix(codec, appended) == Err(1)
      && ReadEvents(codec, Lines(appended)) == []
  {
    var line := codec.encode(event);
    var glued := codec.encode(first)[..cut] + line;
    assert '\n' !in glued by {
      assert forall c | c in glued :: c in codec.encode(first) || c in line;
    }
    FirstLine(glued, "");
    assert glued[|glued| - 1] == line[|line| - 1];
    assert line[|line| - 1] in line;
    assert glued + "\n" + "" == glued + "\n";
    SingleLine(codec, glued + "\n", glued);
  }

  lemma {:induction false} AppendCons<T(!new)>(
    codec: Codec<T>, first: T, tail: string, complete: seq<T>, event: T)
    requires codec.Faithful() && MayBeTorn(tail) && AppendLaw(codec, tail, complete, event)
    ensures AppendLaw(codec, codec.encode(first) + "\n" + tail, [first] + complete, event)
  {
    var contents := codec.encode(first) + "\n" + tail;
    var appended := tail + codec.encode(event) + "\n";
    TornBehind(codec.encode(first), tail);
    assert contents + codec.encode(event) + "\n" == codec.encode(first) + "\n" + appended;
    ParseCons(codec, first, appended);
  }
}
