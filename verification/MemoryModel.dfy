// Memory items and their validation: src/memory/model.rs.
module MemoryModel {
  import opened Common

  /** Folder scope is not part of this model. */
  datatype MemoryScope = UserScope | RepoScope | SessionScope

  datatype MemoryType = UserType | Feedback | Project | Decision | Badcase | Reference

  datatype MemorySource = Manual | Extraction | External

  datatype MemoryProvenance = MemoryProvenance(
    source: MemorySource,
    sourceSessionId: Option<string>,
    sourceTurnStart: Option<nat>,
    sourceTurnEnd: Option<nat>,
    createdAtMs: int,
    updatedAtMs: int)

  datatype MemoryItem = MemoryItem(
    id: string,
    scope: MemoryScope,
    scopeId: Option<string>,
    memoryType: MemoryType,
    title: string,
    body: string,
    active: bool,
    provenance: MemoryProvenance,
    contentHash: string)

  datatype MemoryError =
    | InvalidId
    | InvalidTitle
    | InvalidFrontmatter
    | ScopeAmbiguous
    | BlockedSensitive
    | NotFound
    | PayloadTooLarge
    | Io

  const MAX_ID_LEN := 128
  const MAX_TITLE_LEN := 200

  predicate IsIdChar(c: char) {
    'a' <= c <= 'z' || 'A' <= c <= 'Z' || '0' <= c <= '9' || c == '-' || c == '_'
  }

  predicate ValidId(id: string) {
    id != "" && |id| <= MAX_ID_LEN && forall c | c in id :: IsIdChar(c)
  }

  /** Unicode White_Space, as `str::trim` uses it. */
  predicate IsWhitespace(c: char) {
    var code := c as int;
    || 9 <= code <= 13 || code == 0x20 || code == 0x85 || code == 0xA0 || code == 0x1680
    || 0x2000 <= code <= 0x200A || code == 0x2028 || code == 0x2029 || code == 0x202F
    || code == 0x205F || code == 0x3000
  }

  predicate ValidTitle(title: string) {
    && (exists c | c in title :: !IsWhitespace(c))
    && |title| <= MAX_TITLE_LEN
    && '\n' !in title
    && '\r' !in title
  }

  /** A valid id is one path component, and not a special one. */
  lemma {:induction false} IdsAreFileNames(id: string)
    requires ValidId(id)
    ensures id != "" && '/' !in id && '\\' !in id && '.' !in id && ':' !in id && '\0' !in id
  {
    assert forall c | c in id :: IsIdChar(c);
  }
}
