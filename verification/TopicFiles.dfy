// Topic files on disk and their rows in the index: scan_topic_items in
// src/store/memory/mod.rs, with read_item, write_item and remove_item of src/memory/corpus.rs.
module TopicFiles {
  import opened Common
  import opened MemoryModel
  import opened MemoryLog
  import opened Corpus
  import opened Reconcile

  /** Files by the place their path encodes: scope, scope id and item id. */
  type Files = map<ItemKey, string>

  function KeyOf(item: MemoryItem): ItemKey {
    ItemKey(item.scope, item.scopeId, item.id)
  }

  function RowOf(item: MemoryItem): ItemRow {
    ItemRow(item.memoryType, item.title, item.active, item.provenance, item.contentHash)
  }

  /** A file that can be read describes the item its path stands for. */
  ghost predicate InPlace(format: Format, files: Files) {
    forall key | key in files && ParsedItem(format, files[key]).Ok? ::
      KeyOf(ParsedItem(format, files[key]).value) == key
  }

  /** The row of each readable file under its own place. */
  function ItemRows(format: Format, files: Files): ItemTable {
    map key | key in files && ParsedItem(format, files[key]).Ok? :: RowOf(ParsedItem(format, files[key]).value)
  }

  /** The index shows each readable file under its place, with what its header says, and nothing else. */
  lemma {:induction false} RowsMirrorFiles(format: Format, files: Files, key: ItemKey)
    ensures key in ItemRows(format, files) <==> key in files && ParsedItem(format, files[key]).Ok?
    ensures key in ItemRows(format, files) ==>
      var item, row := ParsedItem(format, files[key]).value, ItemRows(format, files)[key];
      && row.title == item.title && row.memoryType == item.memoryType && row.active == item.active
      && row.provenance == item.provenance && row.contentHash == item.contentHash
  {
  }

  // ---- Scanning ----

  /** Every file once, in some order. */
  ghost predicate IsListing(files: Files, listing: seq<ItemKey>) {
    && (forall i, j | 0 <= i < j < |listing| :: listing[i] != listing[j])
    && forall key :: key in listing <==> key in files
  }

  /** The readable files of a listing, each under the key its header gives. */
  function Scanned(format: Format, files: Files, listing: seq<ItemKey>): seq<StoredMemoryItem>
    requires forall key | key in listing :: key in files
  {
    if listing == [] then []
    else
      var rest := Scanned(format, files, listing[..|listing| - 1]);
      match ParsedItem(format, files[listing[|listing| - 1]])
      case Err(_) => rest
      case Ok(item) => rest + [StoredMemoryItem(KeyOf(item), RowOf(item))]
  }

  /** The scan of the source, in whatever order the directories list; bad files are skipped. */
  method ScanTopicItems(format: Format, files: Files)
    returns (items: seq<StoredMemoryItem>, ghost listing: seq<ItemKey>)
    ensures IsListing(files, listing) && items == Scanned(format, files, listing)
    ensures InPlace(format, files) ==> TableOf(items) == ItemRows(format, files)
  {
    items, listing := [], [];
    var remaining := files.Keys;
    while remaining != {}
      invariant remaining <= files.Keys
      invariant forall i, j | 0 <= i < j < |listing| :: listing[i] != listing[j]
      invariant forall key :: key in listing <==> key in files && key !in remaining
      invariant items == Scanned(format, files, listing)
      decreases remaining
    {
      var path :| path in remaining;
      remaining := remaining - {path};
      assert (listing + [path])[..|listing|] == listing;
      listing := listing + [path];
      var parsed := ParseItem(format, files[path]);
      if parsed.Ok? {
        items := items + [StoredMemoryItem(KeyOf(parsed.value), RowOf(parsed.value))];
      }
    }
    if InPlace(format, files) {
      ListingDoesNotMatter(format, files, listing);
    }
  }

  function RowAt(format: Format, files: Files, key: ItemKey): Option<ItemRow> {
    if key in files && ParsedItem(format, files[key]).Ok?
    then Some(RowOf(ParsedItem(format, files[key]).value)) else None
  }

  lemma {:induction false} FindSnoc(items: seq<StoredMemoryItem>, last: StoredMemoryItem, key: ItemKey)
    ensures FindItem(items + [last], key)
            == if FindItem(items, key).Some? then FindItem(items, key)
               else if last.key == key then Some(last.row) else None
  {
    var all := items + [last];
    if items == [] {
      assert all[1..] == [];
    } else {
      assert all[1..] == items[1..] + [last] && all[0] == items[0];
      FindSnoc(items[1..], last, key);
    }
  }

  lemma {:induction false} ScannedPart(format: Format, files: Files, listing: seq<ItemKey>, key: ItemKey)
    requires InPlace(format, files)
    requires forall i, j | 0 <= i < j < |listing| :: listing[i] != listing[j]
    requires forall k | k in listing :: k in files
    ensures
      var items := Scanned(format, files, listing);
      var row := if key in listing then RowAt(format, files, key) else None;
      && FindItem(items, key) == row
      && (key in TableOf(items) <==> row.Some?) && (row.Some? ==> TableOf(items)[key] == row.value)
  {
    hide ParsedItem;
    if listing != [] {
      var front, last := listing[..|listing| - 1], listing[|listing| - 1];
      assert listing == front + [last] && last in listing;
      assert forall i | 0 <= i < |front| :: listing[i] == front[i];
      assert last !in front;
      ScannedPart(format, files, front, key);
      var parsed := ParsedItem(format, files[last]);
      if parsed.Ok? {
        var item := StoredMemoryItem(KeyOf(parsed.value), RowOf(parsed.value));
        FindSnoc(Scanned(format, files, front), item, key);
        assert (Scanned(format, files, front) + [item])[..|Scanned(format, files, front)|]
            == Scanned(format, files, front);
      }
    }
  }

  /** When every file lies in its place, the order of listing does not matter. */
  lemma {:induction false} ListingDoesNotMatter(format: Format, files: Files, listing: seq<ItemKey>)
    requires InPlace(format, files) && IsListing(files, listing)
    ensures TableOf(Scanned(format, files, listing)) == ItemRows(format, files)
    ensures forall key :: FindItem(Scanned(format, files, listing), key) == RowAt(format, files, key)
  {
    hide ParsedItem, Scanned, FindItem;
    forall key: ItemKey
      ensures FindItem(Scanned(format, files, listing), key) == RowAt(format, files, key)
      ensures key in TableOf(Scanned(format, files, listing)) <==> key in ItemRows(format, files)
      ensures key in ItemRows(format, files) ==>
                TableOf(Scanned(format, files, listing))[key] == ItemRows(format, files)[key]
    {
      ScannedPart(format, files, listing, key);
    }
  }

  function ReadItem(format: Format, files: Files, key: ItemKey): Result<MemoryItem, MemoryError> {
    if !ValidId(key.id) then Err(InvalidId)
    else if key !in files then Err(NotFound)
    else ParsedItem(format, files[key])
  }

  /** Why an item cannot be read, and what a readable one is. */
  lemma {:induction false} ReadsExactly(format: Format, files: Files, key: ItemKey)
    ensures ReadItem(format, files, key) == Err(InvalidId) <==> !ValidId(key.id)
    ensures ValidId(key.id) ==> (ReadItem(format, files, key) == Err(NotFound) <==> key !in files)
    ensures ReadItem(format, files, key).Ok? <==> ValidId(key.id) && key in ItemRows(format, files)
  {
    hide ValidId;
  }

  /** The item as it is stored, with its hash filled in. */
  function Hashed(format: Format, item: MemoryItem): MemoryItem {
    item.(contentHash := format.ContentHash(item))
  }

  /** Writing an item changes its own row and no other. */
  lemma {:induction false} WriteKeeps(format: Format, files: Files, item: MemoryItem)
    requires format.Faithful() && InPlace(format, files) && SerializeItem(format, item).Ok?
    ensures
      var later := files[KeyOf(item) := SerializeItem(format, item).value];
      && InPlace(format, later)
      && ReadItem(format, later, KeyOf(item)) == Ok(Hashed(format, item))
      && ItemRows(format, later) == ItemRows(format, files)[KeyOf(item) := RowOf(Hashed(format, item))]
  {
    hide ParsedItem, SerializeItem;
    TopicFileRoundTrip(format, item);
  }

  /** Removing a file removes its row and no other. */
  lemma {:induction false} RemoveKeeps(format: Format, files: Files, key: ItemKey)
    requires InPlace(format, files)
    ensures InPlace(format, files - {key})
    ensures ItemRows(format, files - {key}) == ItemRows(format, files) - {key}
  {
    hide ParsedItem;
  }

  /** Every readable file carries the hash of its own content, as the writer leaves it. */
  ghost predicate SelfHashed(format: Format, files: Files) {
    forall key | key in files && ParsedItem(format, files[key]).Ok? ::
      format.ContentHashMatches(ParsedItem(format, files[key]).value)
  }

  lemma {:induction false} WriteKeepsHashes(format: Format, files: Files, item: MemoryItem)
    requires format.Faithful() && SelfHashed(format, files) && SerializeItem(format, item).Ok?
    ensures SelfHashed(format, files[KeyOf(item) := SerializeItem(format, item).value])
  {
    hide ParsedItem, SerializeItem;
    TopicFileRoundTrip(format, item);
  }

  lemma {:induction false} RemoveKeepsHashes(format: Format, files: Files, key: ItemKey)
    ensures SelfHashed(format, files) ==> SelfHashed(format, files - {key})
  {
  }

  // ---- A crash inside an operation ----

  function WriteIntent(format: Format, operation: string, item: MemoryItem): MemoryEvent {
    OperationStarted(operation, item.id, item.scope, item.scopeId, Write, None, Some(format.ContentHash(item)))
  }

  function Snapshot(operation: string, item: MemoryItem, scopeId: Option<string>): MemoryEvent {
    RollbackPoint(operation, item.id, item.scope, scopeId, item.memoryType, item.title, item.body, item.active)
  }

  function ForgetIntent(format: Format, files: Files, key: ItemKey, operation: string): MemoryEvent {
    var prior := ReadItem(format, files, key);
    OperationStarted(operation, key.id, key.scope, key.scopeId, Forget,
                     if prior.Ok? then Some(prior.value.contentHash) else None, None)
  }

  /** What forgetting logs before the removal: a snapshot, if the item can be read, and the intent. */
  function ForgetEvents(format: Format, files: Files, key: ItemKey, operation: string): seq<MemoryEvent> {
    var prior := ReadItem(format, files, key);
    (if prior.Ok? then [Snapshot(operation, prior.value, key.scopeId)] else [])
    + [ForgetIntent(format, files, key, operation)]
  }

  function FileOf(format: Format, item: MemoryItem): string {
    var text := SerializeItem(format, item);
    if text.Ok? then text.value else ""
  }

  /** The files a crash inside a write leaves: the write is atomic. */
  function AfterWrite(format: Format, files: Files, item: MemoryItem, written: bool): Files {
    if written then files[KeyOf(item) := FileOf(format, item)] else files
  }

  function AfterRemoval(files: Files, key: ItemKey, removed: bool): Files {
    if removed then files - {key} else files
  }

  /** The file at the item's place reads as exactly this item, hash included. */
  predicate Holds(format: Format, files: Files, item: MemoryItem) {
    KeyOf(item) in files && ParsedItem(format, files[KeyOf(item)]) == Ok(Hashed(format, item))
  }

  /** Another item is there that carries the intended hash. */
  predicate Mistakable(format: Format, files: Files, item: MemoryItem) {
    && KeyOf(item) in files && ParsedItem(format, files[KeyOf(item)]).Ok?
    && var there := ParsedItem(format, files[KeyOf(item)]).value;
    && there.contentHash == format.ContentHash(item)
    && there != Hashed(format, item)
  }

  /** The content there and the intended content differ, and hash alike. */
  predicate Collides(format: Format, files: Files, item: MemoryItem) {
    && KeyOf(item) in files && ParsedItem(format, files[KeyOf(item)]).Ok?
    && var there := ParsedItem(format, files[KeyOf(item)]).value;
    && format.ContentHash(there) == format.ContentHash(item)
    && there.(contentHash := "") != item.(contentHash := "")
  }

  /**
   * What reconciliation finds after a crash inside a write: it landed exactly when the file
   * reads as the intended item, or the write had not happened and the earlier file already
   * carried the intended hash. Where files carry the hash of their own content, that
   * exception is a collision of the content hash.
   */
  lemma {:induction false} CrashInPersist(
    format: Format, files: Files, operation: string, item: MemoryItem, written: bool, listing: seq<ItemKey>)
    requires format.Faithful() && InPlace(format, files) && ValidId(item.id) && ValidTitle(item.title)
    requires IsListing(AfterWrite(format, files, item, written), listing)
    ensures
      var found := AfterWrite(format, files, item, written);
      Landed(Scanned(format, found, listing), WriteIntent(format, operation, item))
      <==> Holds(format, found, item) || (!written && Mistakable(format, files, item))
    ensures written ==> Holds(format, AfterWrite(format, files, item, written), item)
    ensures SelfHashed(format, files) ==> (Mistakable(format, files, item) <==> Collides(format, files, item))
  {
    hide ParsedItem, Scanned, FindItem;
    TopicFileRoundTrip(format, item);
    WriteKeeps(format, files, item);
    ListingDoesNotMatter(format, AfterWrite(format, files, item, written), listing);
    assert FindItem(Scanned(format, AfterWrite(format, files, item, written), listing), KeyOf(item))
        == RowAt(format, AfterWrite(format, files, item, written), KeyOf(item));
  }

  /**
   * After a crash inside a forget: it landed exactly when no readable, active item is at
   * the place.
   */
  lemma {:induction false} CrashInForget(
    format: Format, files: Files, operation: string, key: ItemKey, removed: bool, listing: seq<ItemKey>)
    requires InPlace(format, files) && IsListing(AfterRemoval(files, key, removed), listing)
    ensures
      var found := AfterRemoval(files, key, removed);
      Landed(Scanned(format, found, listing), ForgetIntent(format, files, key, operation))
      <==> !(key in found && ParsedItem(format, found[key]).Ok? && ParsedItem(format, found[key]).value.active)
  {
    hide ParsedItem, Scanned, FindItem;
    var found := AfterRemoval(files, key, removed);
    RemoveKeeps(format, files, key);
    ListingDoesNotMatter(format, found, listing);
    assert FindItem(Scanned(format, found, listing), key) == RowAt(format, found, key);
  }

  /** A new intent adds its own terminal behind those the log needed before. */
  lemma {:induction false} OneMoreIntent(log: seq<MemoryEvent>, intent: MemoryEvent, items: seq<StoredMemoryItem>)
    requires Tidy(log) && intent.OperationStarted? && Starts(log, intent.operationId) == 0
    ensures Terminals(log + [intent], EndedOps(log + [intent]), items)
            == Terminals(log, EndedOps(log), items) + [Terminal(items, intent)]
  {
    hide Landed, Terminals, EndedOps;
    var more := log + [intent];
    assert more[..|log|] == log && more[..|log| + 1] == more;
    EndedSnoc(more, |log|);
    assert EndedOps(more) == EndedOps(log);
    EndedMeansCounted(log, intent.operationId);
    assert Ends(log, intent.operationId) <= Starts(log, intent.operationId);
    TerminalsSnoc(log, intent, EndedOps(log), items);
  }

  /** A snapshot needs no terminal and changes none. */
  lemma {:induction false} OneMoreSnapshot(log: seq<MemoryEvent>, snapshot: MemoryEvent, items: seq<StoredMemoryItem>)
    requires Tidy(log) && snapshot.RollbackPoint?
    ensures Tidy(log + [snapshot])
    ensures forall op :: Starts(log + [snapshot], op) == Starts(log, op)
    ensures Terminals(log + [snapshot], EndedOps(log + [snapshot]), items) == Terminals(log, EndedOps(log), items)
  {
    hide Landed, Terminals, EndedOps, Tidy;
    var more := log + [snapshot];
    assert more[..|log|] == log && more[..|log| + 1] == more;
    EndedSnoc(more, |log|);
    assert EndedOps(more) == EndedOps(log);
    TidyNeutral(log, snapshot);
    TerminalsSnoc(log, snapshot, EndedOps(log), items);
  }

  /**
   * Reconciling after a crash inside a write adds one terminal event for it, behind those
   * that were due before, and it is Applied exactly when the file reads as the intended item
   * or the earlier file could be mistaken for it.
   */
  lemma {:induction false} InterruptedWriteReconciles(
    format: Format, files: Files, log: seq<MemoryEvent>, operation: string, item: MemoryItem, written: bool,
    listing: seq<ItemKey>)
    requires format.Faithful() && InPlace(format, files) && ValidId(item.id) && ValidTitle(item.title)
    requires IsListing(AfterWrite(format, files, item, written), listing)
    requires Tidy(log) && Starts(log, operation) == 0
    ensures
      var found := AfterWrite(format, files, item, written);
      var items := Scanned(format, found, listing);
      var crashed := log + [WriteIntent(format, operation, item)];
      var applied := Holds(format, found, item) || (!written && Mistakable(format, files, item));
      Terminals(crashed, EndedOps(crashed), items)
      == Terminals(log, EndedOps(log), items)
         + [if applied then OperationApplied(operation) else OperationFailed(operation, RECONCILED)]
  {
    hide ParsedItem, Scanned, EndedOps, Terminals, Tidy, Holds, Mistakable, Landed;
    CrashInPersist(format, files, operation, item, written, listing);
    var items := Scanned(format, AfterWrite(format, files, item, written), listing);
    OneMoreIntent(log, WriteIntent(format, operation, item), items);
  }

  /**
   * Reconciling after a crash inside a forget adds one terminal event for it. For a readable
   * active item it is Applied exactly when the file is gone; a forget of anything else is
   * Applied in any case.
   */
  lemma {:induction false} InterruptedForgetReconciles(
    format: Format, files: Files, log: seq<MemoryEvent>, operation: string, key: ItemKey, removed: bool,
    listing: seq<ItemKey>)
    requires InPlace(format, files) && IsListing(AfterRemoval(files, key, removed), listing)
    requires Tidy(log) && Starts(log, operation) == 0
    ensures
      var found := AfterRemoval(files, key, removed);
      var items := Scanned(format, found, listing);
      var crashed := log + ForgetEvents(format, files, key, operation);
      var row := RowAt(format, files, key);
      Terminals(crashed, EndedOps(crashed), items)
      == Terminals(log, EndedOps(log), items)
         + [if row.Some? && row.value.active && !removed then OperationFailed(operation, RECONCILED)
            else OperationApplied(operation)]
  {
    hide ParsedItem, Scanned, EndedOps, Terminals, Tidy, Landed, ForgetIntent;
    CrashInForget(format, files, operation, key, removed, listing);
    var items := Scanned(format, AfterRemoval(files, key, removed), listing);
    var prior := ReadItem(format, files, key);
    var intent := ForgetIntent(format, files, key, operation);
    ForgetIntentStarts(format, files, key, operation);
    if prior.Ok? {
      var snapshot := Snapshot(operation, prior.value, key.scopeId);
      OneMoreSnapshot(log, snapshot, items);
      OneMoreIntent(log + [snapshot], intent, items);
      assert log + [snapshot] + [intent] == log + ForgetEvents(format, files, key, operation);
    } else {
      OneMoreIntent(log, intent, items);
      assert log + [intent] == log + ForgetEvents(format, files, key, operation);
    }
  }

  lemma {:induction false} ForgetIntentStarts(format: Format, files: Files, key: ItemKey, operation: string)
    ensures ForgetIntent(format, files, key, operation).OperationStarted?
    ensures ForgetIntent(format, files, key, operation).operationId == operation
  {
  }
}
