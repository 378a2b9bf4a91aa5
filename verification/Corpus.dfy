// Topic files: src/memory/corpus.rs. A file is a JSON header between two fence lines,
// then the body, then one newline.
module Corpus {
  import opened Common
  import opened Text
  import opened MemoryModel

  const FENCE := "---"

  /** Everything in an item but its body. */
  datatype TopicFrontmatter = TopicFrontmatter(
    id: string,
    scope: MemoryScope,
    scopeId: Option<string>,
    memoryType: MemoryType,
    title: string,
    active: bool,
    provenance: MemoryProvenance,
    contentHash: string)
  {
    function IntoItem(body: string): MemoryItem {
      MemoryItem(id, scope, scopeId, memoryType, title, body, active, provenance, contentHash)
    }
  }

  function FromItem(item: MemoryItem, contentHash: string): TopicFrontmatter {
    TopicFrontmatter(item.id, item.scope, item.scopeId, item.memoryType, item.title, item.active,
                     item.provenance, contentHash)
  }

  /** The JSON renderings, the JSON parser and the content hash, abstracted. */
  datatype Format = Format(
    compact: TopicFrontmatter -> string,
    pretty: TopicFrontmatter -> string,
    parse: string -> Option<TopicFrontmatter>,
    hash: string -> string)
  {
    /** JSON output parses back, with a newline behind it too, and no line of it is a fence. */
    ghost predicate Faithful() {
      && (forall f: TopicFrontmatter :: parse(pretty(f) + "\n") == Some(f))
      && (forall f: TopicFrontmatter :: NoFenceLine(pretty(f)))
    }

    /** Covers metadata and body; the stored hash itself is left out. */
    function ContentHash(item: MemoryItem): string {
      hash(compact(FromItem(item, "")) + "\n" + item.body)
    }

    predicate ContentHashMatches(item: MemoryItem) {
      item.contentHash == ContentHash(item)
    }
  }

  /** Text that makes the hash fail to tell two items apart. */
  ghost predicate HashCollision(format: Format, a: string, b: string) {
    a != b && format.hash(a) == format.hash(b)
  }

  /**
   * An edit shows: two items that differ in anything but the stored hash have different content
   * hashes, unless the underlying hash collides. The compact rendering is one line that parses back.
   */
  lemma {:induction false} EditsShow(format: Format, a: MemoryItem, b: MemoryItem)
    requires forall f: TopicFrontmatter :: format.parse(format.compact(f)) == Some(f) && '\n' !in format.compact(f)
    requires a.(contentHash := "") != b.(contentHash := "")
    ensures format.ContentHash(a) != format.ContentHash(b) || exists s, t :: HashCollision(format, s, t)
  {
    var x, y := format.compact(FromItem(a, "")), format.compact(FromItem(b, ""));
    LinesApart(x, a.body, y, b.body);
    assert format.parse(x) == Some(FromItem(a, "")) && format.parse(y) == Some(FromItem(b, ""));
    assert format.ContentHash(a) == format.ContentHash(b) ==>
             HashCollision(format, x + "\n" + a.body, y + "\n" + b.body);
  }

  /** A first line and the rest of a text are told apart. */
  lemma {:induction false} LinesApart(x: string, a: string, y: string, b: string)
    requires '\n' !in x && '\n' !in y
    ensures x + "\n" + a == y + "\n" + b <==> x == y && a == b
  {
    var s, t := x + "\n" + a, y + "\n" + b;
    NewlineIsFirst(s, |x|);
    NewlineIsFirst(t, |y|);
    assert x == s[..|x|] && y == t[..|y|];
    assert a == s[|x| + 1..] && b == t[|y| + 1..];
  }

  function TrimCarriageReturns(line: string): string {
    if line != "" && line[|line| - 1] == '\r' then TrimCarriageReturns(line[..|line| - 1]) else line
  }

  predicate IsFence(line: string) {
    TrimCarriageReturns(line) == FENCE
  }

  predicate NoFenceLine(text: string)
    decreases |text|
  {
    var i := FindNewline(text);
    !IsFence(text[..i]) && (i < |text| ==> NoFenceLine(text[i + 1..]))
  }

  /** The line at `start` and where the next one begins. */
  function ReadLine(text: string, start: nat): (line: (string, nat))
    requires start <= |text|
    ensures start <= line.1 <= |text|
    ensures start < |text| ==> start < line.1
  {
    var index := FindNewline(text[start..]);
    if start + index < |text| then (text[start..start + index], start + index + 1)
    else (text[start..], |text|)
  }

  function SerializeItem(format: Format, item: MemoryItem): Result<string, MemoryError> {
    if !ValidId(item.id) then Err(InvalidId)
    else if !ValidTitle(item.title) then Err(InvalidTitle)
    else
      var front := FromItem(item, format.ContentHash(item));
      Ok(FENCE + "\n" + format.pretty(front) + "\n" + FENCE + "\n" + item.body + "\n")
  }

  /** Header lines up to the closing fence, each with a newline, and the rest of the text. */
  function SplitFront(text: string): Option<(string, string)>
    decreases |text|
  {
    if text == "" then None
    else
      var (line, next) := ReadLine(text, 0);
      if IsFence(line) then Some(("", text[next..]))
      else match SplitFront(text[next..])
        case None => None
        case Some((json, body)) => Some((line + "\n" + json, body))
  }

  /** The same split with header text in front. */
  ghost function Behind(json: string, split: Option<(string, string)>): Option<(string, string)> {
    if split.None? then None else Some((json + split.value.0, split.value.1))
  }

  function StripNewline(text: string): string {
    if text != "" && text[|text| - 1] == '\n' then text[..|text| - 1] else text
  }

  function ParsedItem(format: Format, text: string): Result<MemoryItem, MemoryError> {
    var (first, next) := ReadLine(text, 0);
    if !IsFence(first) then Err(InvalidFrontmatter) else ItemOfSplit(format, SplitFront(text[next..]))
  }

  function ItemOfSplit(format: Format, split: Option<(string, string)>): Result<MemoryItem, MemoryError> {
    match split
    case None => Err(InvalidFrontmatter)
    case Some((json, body)) =>
      match format.parse(json)
      case None => Err(InvalidFrontmatter)
      case Some(front) => Ok(front.IntoItem(StripNewline(body)))
  }

  /** The scanning loop of the source; it ends because every line read moves the offset. */
  method ParseItem(format: Format, text: string) returns (result: Result<MemoryItem, MemoryError>)
    ensures result == ParsedItem(format, text)
  {
    var (first, offset) := ReadLine(text, 0);
    if !IsFence(first) {
      return Err(InvalidFrontmatter);
    }
    var json := "";
    var bodyStart: Option<nat> := None;
    ghost var front := SplitFront(text[offset..]);
    NothingBehind(front);
    while offset < |text|
      invariant offset <= |text|
      invariant bodyStart == None
      invariant front == Behind(json, SplitFront(text[offset..]))
    {
      var (line, next) := ReadLine(text, offset);
      SplitStep(text, offset);
      if IsFence(line) {
        bodyStart := Some(next);
        BehindNothing(json, text[next..]);
        assert front == Some((json, text[next..]));
        break;
      }
      BehindTwice(json, line, SplitFront(text[next..]));
      json := json + line;
      json := json + "\n";
      offset := next;
    }
    if bodyStart.None? {
      assert text[offset..] == "";
      return Err(InvalidFrontmatter);
    }
    var body := StripNewline(text[bodyStart.value..]);
    match format.parse(json) {
      case None => return Err(InvalidFrontmatter);
      case Some(parsed) => return Ok(parsed.IntoItem(body));
    }
  }

  lemma {:induction false} ReadLineShift(text: string, start: nat)
    requires start <= |text|
    ensures ReadLine(text[start..], 0) == (ReadLine(text, start).0, ReadLine(text, start).1 - start)
  {
    assert text[start..][0..] == text[start..];
    var index := FindNewline(text[start..]);
    assert text[start..][..index] == text[start..start + index];
  }

  lemma {:induction false} SplitStep(text: string, offset: nat)
    requires offset < |text|
    ensures
      var (line, next) := ReadLine(text, offset);
      SplitFront(text[offset..])
      == if IsFence(line) then Some(("", text[next..])) else Behind(line + "\n", SplitFront(text[next..]))
  {
    ReadLineShift(text, offset);
    var next := ReadLine(text, offset).1;
    assert text[offset..][next - offset..] == text[next..];
  }

  lemma {:induction false} BehindNothing(json: string, body: string)
    ensures Behind(json, Some(("", body))) == Some((json, body))
  {
    assert json + "" == json;
  }

  lemma {:induction false} NothingBehind(split: Option<(string, string)>)
    ensures Behind("", split) == split
  {
    if split.Some? {
      assert "" + split.value.0 == split.value.0;
    }
  }

  lemma {:induction false} BehindTwice(json: string, line: string, split: Option<(string, string)>)
    ensures Behind(json, Behind(line + "\n", split)) == Behind(json + line + "\n", split)
  {
    if split.Some? {
      Associative(json, line + "\n", split.value.0);
    }
    Associative(json, line, "\n");
  }

  lemma {:induction false} ReadFirst(line: string, rest: string)
    requires '\n' !in line
    ensures ReadLine(line + "\n" + rest, 0) == (line, |line| + 1)
    ensures (line + "\n" + rest)[|line| + 1..] == rest
  {
    var s := line + "\n" + rest;
    assert s[0..] == s && s[..|line|] == line && s[|line|] == '\n';
    NewlineIsFirst(s, |line|);
  }

  /** A header without fence lines is found whole, whatever the body holds. */
  lemma {:induction false} SplitFindsFront(front: string, body: string)
    requires NoFenceLine(front)
    ensures SplitFront(front + "\n" + (FENCE + "\n" + body)) == Some((front + "\n", body))
    decreases |front|
  {
    var tail := FENCE + "\n" + body;
    var i := FindNewline(front);
    ReadFirst(FENCE, body);
    assert SplitFront(tail) == Some(("", body));
    if i == |front| {
      assert front[..i] == front;
      ReadFirst(front, tail);
      assert front + "\n" + "" == front + "\n";
    } else {
      var line, rest := front[..i], front[i + 1..];
      SplitFindsFront(rest, body);
      SplitAtNewline(front, "\n", i);
      SplitAtNewline(front, "\n" + tail, i);
      Associative(front, "\n", tail);
      Associative(rest, "\n", tail);
      ReadFirst(line, rest + "\n" + tail);
    }
  }

  /**
   * What is written is read back: the item with its hash filled in and matching. Writing
   * it again gives the same file.
   */
  lemma {:induction false} TopicFileRoundTrip(format: Format, item: MemoryItem)
    requires format.Faithful()
    ensures SerializeItem(format, item).Ok? <==> ValidId(item.id) && ValidTitle(item.title)
    ensures SerializeItem(format, item).Ok? ==>
      var stored := item.(contentHash := format.ContentHash(item));
      && ParsedItem(format, SerializeItem(format, item).value) == Ok(stored)
      && format.ContentHashMatches(stored)
      && SerializeItem(format, stored) == SerializeItem(format, item)
  {
    if SerializeItem(format, item).Ok? {
      var front := FromItem(item, format.ContentHash(item));
      var json := format.pretty(front);
      var body := item.body + "\n";
      var text := SerializeItem(format, item).value;
      var rest := json + "\n" + (FENCE + "\n" + body);
      assert text == FENCE + "\n" + rest;
      ReadFirst(FENCE, rest);
      SplitFindsFront(json, body);
      assert StripNewline(body) == item.body;
    }
  }

  /** Parsing takes the body from the end of the text, byte for byte but one final newline. */
  lemma {:induction false} BodyIsVerbatim(format: Format, text: string)
    requires ParsedItem(format, text).Ok?
    ensures
      var body := ParsedItem(format, text).value.body;
      EndsWith(text, body) || EndsWith(text, body + "\n")
  {
    var next := ReadLine(text, 0).1;
    RestIsSuffix(text[next..]);
    SuffixOfSuffix(text, next, SplitFront(text[next..]).value.1);
    StripEnds(SplitFront(text[next..]).value.1);
  }

  lemma {:induction false} StripEnds(body: string)
    ensures body == StripNewline(body) || body == StripNewline(body) + "\n"
  {
  }

  lemma {:induction false} SuffixOfSuffix(text: string, k: nat, end: string)
    requires k <= |text| && EndsWith(text[k..], end)
    ensures EndsWith(text, end)
  {
  }

  ghost predicate EndsWith(text: string, end: string) {
    |end| <= |text| && text[|text| - |end|..] == end
  }

  lemma {:induction false} RestIsSuffix(text: string)
    requires SplitFront(text).Some?
    ensures EndsWith(text, SplitFront(text).value.1)
    decreases |text|
  {
    var (line, next) := ReadLine(text, 0);
    if IsFence(line) {
      SuffixOfSuffix(text, next, text[next..]);
    } else {
      RestIsSuffix(text[next..]);
      SuffixOfSuffix(text, next, SplitFront(text[next..]).value.1);
    }
  }

  /** A file whose fences end with CRLF parses as one whose fences end with LF. */
  lemma {:induction false} CrlfFences(format: Format, rest: string)
    ensures ParsedItem(format, FENCE + "\r\n" + rest) == ParsedItem(format, FENCE + "\n" + rest)
    ensures SplitFront(FENCE + "\r\n" + rest) == SplitFront(FENCE + "\n" + rest) == Some(("", rest))
  {
    var crlf, lf := FENCE + "\r\n" + rest, FENCE + "\n" + rest;
    assert FENCE + "\r" + "\n" + rest == crlf;
    ReadFirst(FENCE + "\r", rest);
    ReadFirst(FENCE, rest);
    assert (FENCE + "\r")[..3] == FENCE;
    assert IsFence(FENCE) && IsFence(FENCE + "\r");
    assert crlf[5..] == rest && lf[4..] == rest;
  }
}
