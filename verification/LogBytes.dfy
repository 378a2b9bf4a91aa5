// Text files as the bytes they are on disk, in the encoding of section 3 of RFC 3629.
module Utf8Text {
  import opened Common
  import opened Utf8

  function EncodeChar(c: char): seq<Byte> {
    var code := c as int;
    if code < 0x80 then [code]
    else if code < 0x800 then [0xC0 + code / 64, 0x80 + code % 64]
    else if code < 0x1_0000 then [0xE0 + code / 4096, 0x80 + code / 64 % 64, 0x80 + code % 64]
    else [0xF0 + code / 26_2144, 0x80 + code / 4096 % 64, 0x80 + code / 64 % 64, 0x80 + code % 64]
  }

  function Encode(text: string): seq<Byte> {
    if text == "" then [] else EncodeChar(text[0]) + Encode(text[1..])
  }

  /** An encoded character is one well-formed character, whatever follows it. */
  lemma {:induction false} EncodedCharStarts(c: char, rest: seq<Byte>)
    ensures EncodeChar(c) != [] && CharLength(EncodeChar(c)[0]) == |EncodeChar(c)|
    ensures StartsWithChar(EncodeChar(c) + rest)
    ensures forall k | 0 < k < |EncodeChar(c)| :: IsContinuation((EncodeChar(c) + rest)[k])
  {
  }

  lemma {:induction false} EncodedIsUtf8(text: string)
    ensures IsUtf8(Encode(text))
  {
    if text != "" {
      var first, rest := EncodeChar(text[0]), Encode(text[1..]);
      EncodedIsUtf8(text[1..]);
      EncodedCharStarts(text[0], rest);
      assert (first + rest)[|first|..] == rest;
    }
  }

  lemma {:induction false} SameCode(a: int, b: int)
    requires 0 <= a && 0 <= b
    ensures a / 64 == b / 64 && a % 64 == b % 64 ==> a == b
  {
  }

  lemma {:induction false} HighBits(a: int)
    requires 0 <= a
    ensures a / 4096 == a / 64 / 64 && a / 26_2144 == a / 64 / 64 / 64
  {
  }

  /** No two characters encode alike. */
  lemma {:induction false} CharsDiffer(a: char, b: char)
    requires EncodeChar(a) == EncodeChar(b)
    ensures a == b
  {
    var x, y := a as int, b as int;
    HighBits(x);
    HighBits(y);
    SameCode(x, y);
    SameCode(x / 64, y / 64);
    SameCode(x / 64 / 64, y / 64 / 64);
    assert EncodeChar(a)[0] == EncodeChar(b)[0];
    assert |EncodeChar(a)| == |EncodeChar(b)|;
    assert forall i | 0 <= i < |EncodeChar(a)| :: EncodeChar(a)[i] == EncodeChar(b)[i];
  }

  /** No two texts do. */
  lemma {:induction false} TextsDiffer(a: string, b: string)
    requires Encode(a) == Encode(b)
    ensures a == b
  {
    if a == "" || b == "" {
      NonemptyEncodes(a);
      NonemptyEncodes(b);
    } else {
      var x, y := EncodeChar(a[0]), EncodeChar(b[0]);
      EncodedCharStarts(a[0], Encode(a[1..]));
      EncodedCharStarts(b[0], Encode(b[1..]));
      assert x[0] == Encode(a)[0] && y[0] == Encode(b)[0];
      assert x == Encode(a)[..|x|] && y == Encode(b)[..|y|];
      CharsDiffer(a[0], b[0]);
      assert Encode(a[1..]) == Encode(a)[|x|..] && Encode(b[1..]) == Encode(b)[|y|..];
      TextsDiffer(a[1..], b[1..]);
      assert a == [a[0]] + a[1..] && b == [b[0]] + b[1..];
    }
  }

  lemma {:induction false} NonemptyEncodes(text: string)
    ensures text == "" <==> Encode(text) == []
  {
    if text != "" {
      EncodedCharStarts(text[0], []);
    }
  }

  /** `read_to_string`: the text whose encoding the bytes are, if there is one. */
  ghost function ReadToString(bytes: seq<Byte>): (text: Option<string>)
    ensures text.Some? ==> Encode(text.value) == bytes
    ensures text.None? ==> forall s :: Encode(s) != bytes
  {
    if exists s :: Encode(s) == bytes then
      var s :| Encode(s) == bytes;
      Some(s)
    else None
  }

  lemma {:induction false} ReadsBack(text: string)
    ensures ReadToString(Encode(text)) == Some(text)
  {
    assert Encode(text) == Encode(text);
    TextsDiffer(ReadToString(Encode(text)).value, text);
  }

  /** What the octets behind the first one add, six bits each. */
  function Low(high: int, octet: Byte): int {
    high * 64 + (octet as int - 0x80)
  }

  /** The number a well-formed character stands for. */
  function CodeOf(s: seq<Byte>): int
    requires s != [] && StartsWithChar(s)
  {
    var lead := s[0] as int;
    match CharLength(s[0])
    case 1 => lead
    case 2 => Low(lead - 0xC0, s[1])
    case 3 => Low(Low(lead - 0xE0, s[1]), s[2])
    case _ => Low(Low(Low(lead - 0xF0, s[1]), s[2]), s[3])
  }

  /** Base 64 digits are read off by division. */
  lemma {:induction false} LowDigits(high: int, octet: Byte)
    requires 0 <= high && IsContinuation(octet)
    ensures 0 <= Low(high, octet)
    ensures Low(high, octet) / 64 == high && 0x80 + Low(high, octet) % 64 == octet
  {
  }

  /** It is a character, neither beyond the last one nor a surrogate. */
  lemma {:induction false} CodeIsChar(s: seq<Byte>)
    requires s != [] && StartsWithChar(s)
    ensures 0 <= CodeOf(s) < 0xD800 || 0xE000 <= CodeOf(s) < 0x11_0000
    ensures CharLength(s[0]) == |EncodeChar(CodeOf(s) as char)|
  {
    assert forall i | 1 <= i < CharLength(s[0]) :: IsContinuation(s[i]);
  }

  /** Its octets are those it was read from. */
  lemma {:induction false} CodeEncodes(s: seq<Byte>)
    requires s != [] && StartsWithChar(s)
    ensures 0 <= CodeOf(s) < 0xD800 || 0xE000 <= CodeOf(s) < 0x11_0000
    ensures EncodeChar(CodeOf(s) as char) == s[..CharLength(s[0])]
  {
    var n, code := CharLength(s[0]), CodeOf(s);
    CodeIsChar(s);
    HighBits(code);
    assert forall i | 1 <= i < n :: IsContinuation(s[i]);
    if n == 2 {
      LowDigits(s[0] - 0xC0, s[1]);
    } else if n == 3 {
      var top := Low(s[0] - 0xE0, s[1]);
      LowDigits(s[0] - 0xE0, s[1]);
      LowDigits(top, s[2]);
    } else if n == 4 {
      var top := Low(s[0] - 0xF0, s[1]);
      var middle := Low(top, s[2]);
      LowDigits(s[0] - 0xF0, s[1]);
      LowDigits(top, s[2]);
      LowDigits(middle, s[3]);
    }
  }

  /** Bytes can be read as text exactly when they are well-formed. */
  lemma {:induction false} ReadableIsWellFormed(bytes: seq<Byte>)
    ensures ReadToString(bytes).Some? <==> IsUtf8(bytes)
  {
    if IsUtf8(bytes) {
      var text := TextOf(bytes);
    } else if ReadToString(bytes).Some? {
      EncodedIsUtf8(ReadToString(bytes).value);
    }
  }

  lemma {:induction false} TextOf(bytes: seq<Byte>) returns (text: string)
    requires IsUtf8(bytes)
    ensures Encode(text) == bytes
  {
    if bytes == [] {
      text := "";
    } else {
      var n := CharLength(bytes[0]);
      CodeEncodes(bytes);
      var rest := TextOf(bytes[n..]);
      var c := CodeOf(bytes) as char;
      text := [c] + rest;
      assert text[1..] == rest && bytes == bytes[..n] + bytes[n..];
    }
  }

  lemma {:induction false} EncodeConcat(a: string, b: string)
    ensures Encode(a + b) == Encode(a) + Encode(b)
  {
    if a == "" {
      assert a + b == b;
    } else {
      assert (a + b)[0] == a[0] && (a + b)[1..] == a[1..] + b;
      EncodeConcat(a[1..], b);
    }
  }

  /** A boundary cut is the encoding of a shorter text. */
  lemma {:induction false} BoundaryCut(text: string, k: nat) returns (cut: nat)
    requires k <= |Encode(text)| && IsCharBoundary(Encode(text), k)
    ensures cut <= |text| && Encode(text[..cut]) == Encode(text)[..k]
  {
    hide EncodeChar;
    if k == 0 {
      cut := 0;
    } else {
      var first, rest := EncodeChar(text[0]), Encode(text[1..]);
      FirstFits(text, k);
      BoundaryBehind(text[1..], first, k);
      cut := BoundaryCut(text[1..], k - |first|);
      assert text[..cut + 1][0] == text[0] && text[..cut + 1][1..] == text[1..][..cut];
      assert Encode(text)[..k] == first + rest[..k - |first|];
      cut := cut + 1;
    }
  }

  /** No boundary lies inside the first character. */
  lemma {:induction false} FirstFits(text: string, k: nat)
    requires 0 < k <= |Encode(text)| && IsCharBoundary(Encode(text), k)
    ensures text != "" && |EncodeChar(text[0])| <= k
  {
    EncodedCharStarts(text[0], Encode(text[1..]));
  }

  lemma {:induction false} BoundaryBehind(text: string, first: seq<Byte>, k: nat)
    requires |first| <= k <= |first| + |Encode(text)| && IsCharBoundary(first + Encode(text), k)
    ensures IsCharBoundary(Encode(text), k - |first|)
  {
    if k < |first| + |Encode(text)| {
      assert (first + Encode(text))[k] == Encode(text)[k - |first|];
    }
  }

  predicate IsAscii(text: string) {
    forall c | c in text :: c as int < 0x80
  }

  lemma {:induction false} AsciiHasNoContinuation(text: string)
    requires IsAscii(text)
    ensures forall b | b in Encode(text) :: !IsContinuation(b)
  {
    if text != "" {
      assert text[0] in text && forall c | c in text[1..] :: c in text;
      AsciiHasNoContinuation(text[1..]);
    }
  }

  /** The second octet of a longer character is no place to cut. */
  lemma {:induction false} WideCharTears(text: string, i: nat) returns (k: nat)
    requires i < |text| && text[i] as int >= 0x80
    ensures k <= |Encode(text)| && !IsCharBoundary(Encode(text), k)
  {
    var front, rest := text[..i], Encode(text[i + 1..]);
    assert text == front + text[i..] && text[i..][0] == text[i] && text[i..][1..] == text[i + 1..];
    EncodeConcat(front, text[i..]);
    EncodedCharStarts(text[i], rest);
    assert Encode(text[i..]) == EncodeChar(text[i]) + rest;
    k := |Encode(front)| + 1;
    assert Encode(text)[k] == (EncodeChar(text[i]) + rest)[1];
  }

  /** Some cut is not at a boundary exactly when the text is not all ASCII. */
  lemma {:induction false} TornExactly(text: string)
    ensures (exists k :: 0 <= k <= |Encode(text)| && !IsCharBoundary(Encode(text), k)) <==> !IsAscii(text)
  {
    if IsAscii(text) {
      AsciiHasNoContinuation(text);
    } else {
      var c :| c in text && c as int >= 0x80;
      var i :| 0 <= i < |text| && text[i] == c;
      var k := WideCharTears(text, i);
    }
  }

  /** A cut text can be read exactly when the cut is at a character boundary. */
  lemma {:induction false} CutIsReadable(text: string, k: nat)
    requires k <= |Encode(text)|
    ensures ReadToString(Encode(text)[..k]).Some? <==> IsCharBoundary(Encode(text), k)
  {
    EncodedIsUtf8(text);
    BoundaryIsPrefixEnd(Encode(text), k);
    if IsCharBoundary(Encode(text), k) {
      var cut := BoundaryCut(text, k);
      ReadsBack(text[..cut]);
    } else if ReadToString(Encode(text)[..k]).Some? {
      EncodedIsUtf8(ReadToString(Encode(text)[..k]).value);
    }
  }
}

// Torn log files at the level of bytes: src/conversation/session_log.rs and the readers in
// src/backend/sessions.rs, src/memory/event_log.rs and src/memory/scheduler.rs.
module LogBytes {
  import opened Common
  import opened Utf8
  import opened Utf8Text
  import opened Jsonl

  datatype FileError = Unreadable | Malformed(line: nat)

  /** The strict reader: a session that is resumed. */
  ghost function ParsedFile<T(!new)>(codec: Codec<T>, bytes: seq<Byte>): Result<seq<T>, FileError> {
    match ReadToString(bytes)
    case None => Err(Unreadable)
    case Some(text) =>
      match ParsedPrefix(codec, text)
      case Ok(events) => Ok(events)
      case Err(line) => Err(Malformed(line))
  }

  /** The lenient reader: the memory log, and the scan for rounds to extract. */
  ghost function ReadFile<T(!new)>(codec: Codec<T>, bytes: seq<Byte>): seq<T> {
    match ReadToString(bytes)
    case None => []
    case Some(text) => ReadEvents(codec, Lines(text))
  }

  /** How many events have their whole JSON text within the first `k` bytes. */
  function CompleteInBytes<T(!new)>(codec: Codec<T>, events: seq<T>, k: nat): (n: nat)
    ensures n <= |events|
  {
    if events == [] then 0
    else
      var size := |Encode(codec.encode(events[0]))|;
      if k < size then 0
      else if k == size then 1
      else 1 + CompleteInBytes(codec, events[1..], k - size - 1)
  }

  lemma {:induction false} EncodedNewline()
    ensures Encode("\n") == [10]
  {
    assert "\n"[1..] == "";
    assert Encode("") == [];
  }

  /** Shorter texts have shorter encodings. */
  lemma {:induction false} PrefixEncodes(text: string, cut: nat)
    requires cut <= |text|
    ensures |Encode(text[..cut])| <= |Encode(text)|
    ensures cut < |text| ==> |Encode(text[..cut])| < |Encode(text)|
  {
    assert text == text[..cut] + text[cut..];
    EncodeConcat(text[..cut], text[cut..]);
    NonemptyEncodes(text[cut..]);
  }

  /** Counting complete events by characters or by bytes is the same. */
  lemma {:induction false} CountsAgree<T(!new)>(codec: Codec<T>, events: seq<T>, cut: nat)
    requires cut <= |Render(codec, events)|
    ensures CompleteEvents(codec, events, cut)
            == CompleteInBytes(codec, events, |Encode(Render(codec, events)[..cut])|)
  {
    hide Encode;
    if events != [] {
      var first, rest := codec.encode(events[0]), Render(codec, events[1..]);
      CutCons(codec, events, cut);
      if cut <= |first| {
        PrefixEncodes(first, cut);
        assert cut == |first| ==> first[..cut] == first;
      } else {
        var more := cut - |first| - 1;
        CountsAgree(codec, events[1..], more);
        EncodeConcat(first, "\n");
        EncodeConcat(first + "\n", rest[..more]);
        EncodedNewline();
      }
    }
  }

  /**
   * A log cut at any byte. When the cut is at a character boundary, both readers give exactly
   * the events whose JSON text is complete. When it is inside a character, the whole file is
   * lost: the strict reader fails, and the lenient one finds nothing at all.
   */
  lemma {:induction false} TornBytesRead<T(!new)>(codec: Codec<T>, events: seq<T>, k: nat)
    requires codec.Faithful() && k <= |Encode(Render(codec, events))|
    ensures
      var file := Encode(Render(codec, events));
      var complete := events[..CompleteInBytes(codec, events, k)];
      if IsCharBoundary(file, k) then
        ParsedFile(codec, file[..k]) == Ok(complete) && ReadFile(codec, file[..k]) == complete
      else
        ParsedFile(codec, file[..k]) == Err(Unreadable) && ReadFile(codec, file[..k]) == []
  {
    hide Encode, ParsedPrefix, ReadEvents, Lines, Render, CompleteEvents, CompleteInBytes;
    var text := Render(codec, events);
    CutIsReadable(text, k);
    if IsCharBoundary(Encode(text), k) {
      var cut := BoundaryCut(text, k);
      ReadsBack(text[..cut]);
      TornLogReads(codec, events, cut);
      CountsAgree(codec, events, cut);
    }
  }
}
