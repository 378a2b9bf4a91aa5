// Ids of new items: slugify and new_item_id in src/memory/index.rs.
module ItemIds {
  import opened MemoryModel

  const MAX_ID_SLUG := 80

  predicate IsAlphanumeric(c: char) {
    'a' <= c <= 'z' || 'A' <= c <= 'Z' || '0' <= c <= '9'
  }

  function ToLower(c: char): char {
    if 'A' <= c <= 'Z' then (c as int + 32) as char else c
  }

  predicate IsSlugChar(c: char) {
    'a' <= c <= 'z' || '0' <= c <= '9' || c == '-'
  }

  /** Lower-case letters, digits and single inner dashes. */
  ghost predicate IsSlug(s: string) {
    && (forall c | c in s :: IsSlugChar(c))
    && (forall i | 0 < i < |s| :: !(s[i - 1] == '-' && s[i] == '-'))
    && (s != "" ==> s[0] != '-')
  }

  /** `trim_matches('-')` on a slug, which can only end in one dash. */
  function TrimDash(s: string): string {
    if s != "" && s[|s| - 1] == '-' then s[..|s| - 1] else s
  }

  /** The runs of letters and digits, lower-cased, in order. */
  function Words(input: string): seq<string> {
    if input == "" then []
    else
      var front, last := input[..|input| - 1], input[|input| - 1];
      var words := Words(front);
      if !IsAlphanumeric(last) then words
      else if front == "" || !IsAlphanumeric(front[|front| - 1]) then words + [[ToLower(last)]]
      else if words == [] then [[ToLower(last)]]
      else words[|words| - 1 := words[|words| - 1] + [ToLower(last)]]
  }

  function Joined(words: seq<string>): string {
    if words == [] then ""
    else if |words| == 1 then words[0]
    else Joined(words[..|words| - 1]) + "-" + words[|words| - 1]
  }

  ghost predicate AreWords(words: seq<string>) {
    forall i | 0 <= i < |words| :: words[i] != "" && forall c | c in words[i] :: IsSlugChar(c) && c != '-'
  }

  lemma {:induction false} WordsAre(input: string)
    ensures AreWords(Words(input))
    ensures Words(input) == [] <==> forall c | c in input :: !IsAlphanumeric(c)
  {
    if input != "" {
      var front, last := input[..|input| - 1], input[|input| - 1];
      WordsAre(front);
      assert input == front + [last];
      assert front != "" ==> front[|front| - 1] in front;
    }
  }

  lemma {:induction false} JoinedEnds(words: seq<string>)
    requires AreWords(words)
    ensures words == [] <==> Joined(words) == ""
    ensures words != [] ==> Joined(words)[|Joined(words)| - 1] != '-'
  {
    if words != [] {
      var last := words[|words| - 1];
      assert last[|last| - 1] in last;
    }
  }

  lemma {:induction false} JoinedMore(words: seq<string>, word: string)
    ensures Joined(words + [word]) == if words == [] then word else Joined(words) + "-" + word
  {
    var more := words + [word];
    assert more[..|words|] == words;
  }

  lemma {:induction false} JoinedLonger(words: seq<string>, c: char)
    requires words != []
    ensures Joined(words[|words| - 1 := words[|words| - 1] + [c]]) == Joined(words) + [c]
  {
    var n := |words| - 1;
    var more := words[n := words[n] + [c]];
    if n > 0 {
      assert more[..n] == words[..n];
    }
  }

  /** The output after `input`: its words joined, and a dash when something else followed the last one. */
  function Buffer(input: string): string {
    Joined(Words(input))
    + if Words(input) != [] && !IsAlphanumeric(input[|input| - 1]) then "-" else ""
  }

  lemma {:induction false} WordsNeedInput(input: string)
    ensures Words(input) != [] ==> input != ""
  {
  }

  /** One more character. */
  lemma {:induction false} BufferSnoc(front: string, last: char)
    ensures Buffer(front + [last])
            == if IsAlphanumeric(last) then Buffer(front) + [ToLower(last)]
               else if Words(front) == [] || !IsAlphanumeric(front[|front| - 1]) then Buffer(front)
               else Buffer(front) + "-"
  {
    var input, words := front + [last], Words(front);
    assert input[..|front|] == front;
    WordsAre(front);
    WordsNeedInput(front);
    if IsAlphanumeric(last) {
      if front != "" && IsAlphanumeric(front[|front| - 1]) {
        assert front[|front| - 1] in front;
        JoinedLonger(words, ToLower(last));
      } else {
        JoinedMore(words, [ToLower(last)]);
      }
    }
  }

  lemma {:induction false} BufferIsSlug(input: string)
    ensures IsSlug(Buffer(input))
    ensures TrimDash(Buffer(input)) == Joined(Words(input))
    ensures Buffer(input) != "" && Buffer(input)[|Buffer(input)| - 1] == '-'
            <==> Words(input) != [] && !IsAlphanumeric(input[|input| - 1])
  {
    hide Joined, Words;
    WordsAre(input);
    JoinedEnds(Words(input));
    JoinedIsSlug(Words(input));
  }

  lemma {:induction false} JoinedIsSlug(words: seq<string>)
    requires AreWords(words)
    ensures IsSlug(Joined(words))
  {
    if words == [] {
    } else {
      hide Joined, IsSlug;
      var front, last := words[..|words| - 1], words[|words| - 1];
      assert words == front + [last];
      assert AreWords([last]) && AreWords(front);
      JoinedIsSlug(front);
      JoinedEnds(front);
      JoinedMore(front, last);
      WordIsSlug(last);
      if front != [] {
        SlugsJoin(Joined(front), last);
      }
    }
  }

  lemma {:induction false} WordIsSlug(word: string)
    requires AreWords([word])
    ensures IsSlug(word)
  {
    assert [word][0] == word;
    assert forall i | 0 <= i < |word| :: word[i] in word;
  }

  lemma {:induction false} SlugsJoin(slug: string, word: string)
    requires IsSlug(slug) && slug != "" && slug[|slug| - 1] != '-'
    requires AreWords([word])
    ensures IsSlug(slug + "-" + word)
  {
    var s := slug + "-" + word;
    assert [word][0] == word;
    assert forall i | 0 <= i < |word| :: word[i] in word && s[|slug| + 1 + i] == word[i];
    assert forall i | 0 <= i < |slug| :: s[i] == slug[i];
    assert s[|slug|] == '-';
  }

  lemma {:induction false} BufferNonempty(input: string)
    ensures Buffer(input) == "" <==> Words(input) == []
    ensures Words(input) == [] <==> forall c | c in input :: !IsAlphanumeric(c)
  {
    hide Joined, Words;
    WordsAre(input);
    JoinedEnds(Words(input));
  }

  /** A slug is its own slug, and capital letters only lose their case. */
  lemma {:induction false} SlugIsFixed(slug: string)
    requires IsSlug(slug)
    ensures Buffer(slug) == slug
  {
    hide Words, Joined;
    if slug == "" {
      BufferNonempty(slug);
    } else {
      var front, last := slug[..|slug| - 1], slug[|slug| - 1];
      assert slug == front + [last];
      assert forall i | 0 <= i < |front| :: front[i] == slug[i];
      assert forall c | c in front :: c in slug;
      SlugIsFixed(front);
      BufferSnoc(front, last);
      BufferNonempty(front);
      assert last in slug && (front != "" ==> front[|front| - 1] in slug);
    }
  }

  lemma {:induction false} CaseIsLost(c: char)
    requires 'A' <= c <= 'Z'
    ensures IsAlphanumeric(c) && 'a' <= ToLower(c) <= 'z' && ToLower(c) as int - 'a' as int == c as int - 'A' as int
  {
  }

  /** More input never shortens the joined words. */
  lemma {:induction false} JoinedGrows(input: string, n: nat)
    requires n <= |input|
    ensures |Joined(Words(input[..n]))| <= |Joined(Words(input))|
  {
    hide Joined, Words, Buffer;
    if n == |input| {
      assert input[..n] == input;
    } else {
      var front, last := input[..|input| - 1], input[|input| - 1];
      assert front[..n] == input[..n] && input == front + [last];
      JoinedGrows(front, n);
      LastOfBuffer(front, last);
    }
  }

  lemma {:induction false} LastOfBuffer(front: string, last: char)
    ensures |Joined(Words(front))| <= |Joined(Words(front + [last]))|
  {
    hide Joined, Words, Buffer;
    BufferSnoc(front, last);
    BufferIsSlug(front);
    BufferIsSlug(front + [last]);
    if IsAlphanumeric(last) {
      assert ToLower(last) != '-';
    }
  }

  lemma {:induction false} CutSlug(input: string, n: nat)
    requires n <= |input| && |Buffer(input[..n])| == MAX_ID_SLUG
    ensures TrimDash(Buffer(input[..n])) == Joined(Words(input[..n])) && IsSlug(Joined(Words(input[..n])))
    ensures Joined(Words(input[..n])) != "" && exists c | c in input :: IsAlphanumeric(c)
    ensures MAX_ID_SLUG - 1 <= |Joined(Words(input))|
  {
    hide Joined, Words, Buffer;
    BufferIsSlug(input[..n]);
    BufferNonempty(input[..n]);
    WordsAre(input[..n]);
    JoinedIsSlug(Words(input[..n]));
    JoinedGrows(input, n);
    assert forall c | c in input[..n] :: c in input;
  }

  /**
   * The slug is the words of the title joined by dashes; a long title is cut behind the
   * character that filled the slug.
   */
  method Slugify(input: string) returns (slug: string)
    ensures IsSlug(slug) && |slug| <= MAX_ID_SLUG
    ensures slug == "" <==> forall c | c in input :: !IsAlphanumeric(c)
    ensures |Joined(Words(input))| < MAX_ID_SLUG - 1 ==> slug == Joined(Words(input))
    ensures exists n :: 0 <= n <= |input| && slug == Joined(Words(input[..n]))
                        && (n < |input| ==> |Buffer(input[..n])| == MAX_ID_SLUG)
  {
    hide Words, Joined, Buffer;
    var out := "";
    var previousDash := false;
    BufferNonempty("");
    assert input[..0] == "";
    for i := 0 to |input|
      invariant out == Buffer(input[..i]) && |out| < MAX_ID_SLUG
      invariant previousDash <==> out != "" && out[|out| - 1] == '-'
    {
      assert input[..i + 1] == input[..i] + [input[i]];
      BufferSnoc(input[..i], input[i]);
      BufferIsSlug(input[..i]);
      BufferIsSlug(input[..i + 1]);
      BufferNonempty(input[..i]);
      if IsAlphanumeric(input[i]) {
        out := out + [ToLower(input[i])];
        previousDash := false;
      } else if !previousDash && out != "" {
        out := out + "-";
        previousDash := true;
      }
      if |out| >= MAX_ID_SLUG {
        slug := TrimDash(out);
        CutSlug(input, i + 1);
        return;
      }
    }
    assert input[..|input|] == input;
    slug := TrimDash(out);
    BufferIsSlug(input);
    BufferNonempty(input);
    WordsAre(input);
    JoinedIsSlug(Words(input));
  }

  /** `suffix` is eight hex digits of a hash over clock, process and a counter. */
  function ItemId(slug: string, suffix: string): string {
    if slug == "" then "mem-" + suffix else slug + "-" + suffix
  }

  /** A new id is always a valid file name stem, and never that of the generated index file. */
  lemma {:induction false} NewIdIsValid(slug: string, suffix: string)
    requires IsSlug(slug) && |slug| <= MAX_ID_SLUG
    requires |suffix| == 8 && forall c | c in suffix :: IsIdChar(c)
    ensures ValidId(ItemId(slug, suffix)) && ItemId(slug, suffix) != "MEMORY"
  {
    assert forall c | c in slug :: IsSlugChar(c) && IsIdChar(c);
    var id := ItemId(slug, suffix);
    assert id[|id| - 9] == '-';
  }
}
