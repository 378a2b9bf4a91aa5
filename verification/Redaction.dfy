// What a sensitive purge does to the log: redact_purged and purge in src/memory/inbox.rs.
module Redaction {
  import opened Common
  import opened MemoryLog
  import opened Lifecycle
  import opened Reconcile

  const REDACTED := "[redacted: sensitive content purged]"

  function RedactPurged(event: MemoryEvent, itemId: string, entries: set<string>): MemoryEvent {
    if event.RollbackPoint? && event.itemId == itemId then event.(title := REDACTED, body := REDACTED)
    else if event.ProposalBody? && event.entryId in entries then event.(body := REDACTED)
    else event
  }

  function RedactAll(log: seq<MemoryEvent>, itemId: string, entries: set<string>): (r: seq<MemoryEvent>)
    ensures |r| == |log|
    ensures forall i | 0 <= i < |log| :: r[i] == RedactPurged(log[i], itemId, entries)
  {
    if log == [] then []
    else RedactAll(log[..|log| - 1], itemId, entries) + [RedactPurged(log[|log| - 1], itemId, entries)]
  }

  /** The rewrite of the log, event by event. */
  method Rewrite(log: seq<MemoryEvent>, itemId: string, entries: set<string>) returns (redacted: seq<MemoryEvent>)
    ensures redacted == RedactAll(log, itemId, entries)
  {
    redacted := [];
    for i := 0 to |log|
      invariant redacted == RedactAll(log[..i], itemId, entries)
    {
      assert log[..i + 1][..i] == log[..i];
      redacted := redacted + [RedactPurged(log[i], itemId, entries)];
    }
    assert log[..|log|] == log;
  }

  /** The inbox entries linked to an item. */
  function LinkedEntries(inbox: map<string, InboxRow>, itemId: string): set<string> {
    set id | id in inbox && inbox[id].targetItemId == Some(itemId)
  }

  predicate Snapshots(event: MemoryEvent, itemId: string) {
    event.RollbackPoint? && event.itemId == itemId && (event.title != REDACTED || event.body != REDACTED)
  }

  /** A snapshot of the item, or a proposal body linked to it, that still holds content. */
  predicate HoldsContent(event: MemoryEvent, itemId: string, entries: set<string>) {
    || Snapshots(event, itemId)
    || (event.ProposalBody? && event.entryId in entries && event.body != REDACTED)
  }

  /**
   * The rewrite leaves no snapshot of the item and no linked proposal body with content,
   * keeps every other event where it was, and stands for the very same tables and operations.
   */
  lemma {:induction false} RewriteIsSafe(log: seq<MemoryEvent>, itemId: string, entries: set<string>)
    ensures
      var later := RedactAll(log, itemId, entries);
      && |later| == |log|
      && (forall i | 0 <= i < |log| :: !HoldsContent(later[i], itemId, entries))
      && (forall i | 0 <= i < |log| && !HoldsContent(log[i], itemId, entries) :: later[i] == log[i])
      && Replayed(later) == Replayed(log)
      && forall op :: Starts(later, op) == Starts(log, op) && Ends(later, op) == Ends(log, op)
  {
    hide Replayed, Starts, Ends;
    var later := RedactAll(log, itemId, entries);
    SameEffectSameTables(later, log);
    forall op: string
      ensures Starts(later, op) == Starts(log, op) && Ends(later, op) == Ends(log, op)
    {
      RewriteKeepsOps(log, itemId, entries, op);
    }
  }

  lemma {:induction false} RewriteKeepsOps(log: seq<MemoryEvent>, itemId: string, entries: set<string>, op: string)
    ensures Starts(RedactAll(log, itemId, entries), op) == Starts(log, op)
    ensures Ends(RedactAll(log, itemId, entries), op) == Ends(log, op)
  {
    hide Replayed;
    if log != [] {
      RewriteKeepsOps(log[..|log| - 1], itemId, entries, op);
    }
  }

  // ---- Items that share an id ----

  /** A snapshot of the item at this very place, or a body of one of its `own` entries, with content. */
  predicate OwnContent(event: MemoryEvent, key: ItemKey, own: set<string>) {
    || (Snapshots(event, key.id) && ItemKey(event.scope, event.scopeId, event.itemId) == key)
    || (event.ProposalBody? && event.entryId in own && event.body != REDACTED)
  }

  /** The same of an item at another place that has the same id. */
  predicate NamesakeContent(event: MemoryEvent, key: ItemKey, own: set<string>, entries: set<string>) {
    || (Snapshots(event, key.id) && ItemKey(event.scope, event.scopeId, event.itemId) != key)
    || (event.ProposalBody? && event.entryId in entries - own && event.body != REDACTED)
  }

  /**
   * The rewrite goes by the id alone: it changes exactly what the item and its namesakes in
   * other scopes have in the log. So it changes nothing but the item's own content exactly when
   * no namesake has any.
   */
  lemma {:induction false} RewriteReachesNamesakes(
    log: seq<MemoryEvent>, key: ItemKey, own: set<string>, entries: set<string>)
    requires own <= entries
    ensures
      var later := RedactAll(log, key.id, entries);
      && (forall i | 0 <= i < |log| ::
            later[i] != log[i] <==> OwnContent(log[i], key, own) || NamesakeContent(log[i], key, own, entries))
      && ((forall i | 0 <= i < |log| && !OwnContent(log[i], key, own) :: later[i] == log[i])
          <==> forall i | 0 <= i < |log| :: !NamesakeContent(log[i], key, own, entries))
  {
    var later := RedactAll(log, key.id, entries);
    forall i | 0 <= i < |log|
      ensures later[i] != log[i] <==> OwnContent(log[i], key, own) || NamesakeContent(log[i], key, own, entries)
    {
      assert later[i] == RedactPurged(log[i], key.id, entries);
    }
    assert forall i | 0 <= i < |log| :: !(OwnContent(log[i], key, own) && NamesakeContent(log[i], key, own, entries));
  }

  /** A purged proposal can no longer be activated with its old text. */
  lemma {:induction false} LatestBodyRedacted(
      log: seq<MemoryEvent>, itemId: string, entries: set<string>, entryId: string)
    ensures LatestBody(RedactAll(log, itemId, entries), entryId)
            == if entryId in entries && LatestBody(log, entryId).Some? then Some(REDACTED) else LatestBody(log, entryId)
  {
    if log != [] {
      LatestBodyRedacted(log[..|log| - 1], itemId, entries, entryId);
    }
  }

  // ---- What a purge leaves ----

  /** The words an event holds about an item: its own, and those of proposals linked to it. */
  function TextAbout(event: MemoryEvent, itemId: string, entries: set<string>): set<string> {
    match event
    case RollbackPoint(_, rolledBack, _, _, _, title, body, _) => if rolledBack == itemId then {title, body} else {}
    case ProposalBody(entryId, body) => if entryId in entries then {body} else {}
    case InboxProposed(data) => if data.entryId in entries && data.title.Some? then {data.title.value} else {}
    case _ => {}
  }

  /** A proposal for the item that carries a title. */
  predicate TitlesItem(event: MemoryEvent, entries: set<string>) {
    event.InboxProposed? && event.data.entryId in entries && event.data.title.Some?
  }

  /**
   * The words left by the rewrite, beside the marker, are exactly the titles of linked
   * proposals. So nothing about the item is left exactly when no linked proposal was recorded
   * with a title other than the marker.
   */
  lemma {:induction false} TitlesSurviveRewrite(log: seq<MemoryEvent>, itemId: string, entries: set<string>)
    ensures
      var later := RedactAll(log, itemId, entries);
      && (forall i | 0 <= i < |log| ::
            TextAbout(later[i], itemId, entries) - {REDACTED}
            == if TitlesItem(log[i], entries) then {log[i].data.title.value} - {REDACTED} else {})
      && ((forall i | 0 <= i < |log| :: TextAbout(later[i], itemId, entries) <= {REDACTED})
          <==> forall i | 0 <= i < |log| && TitlesItem(log[i], entries) :: log[i].data.title.value == REDACTED)
  {
    var later := RedactAll(log, itemId, entries);
    forall i | 0 <= i < |log|
      ensures TextAbout(later[i], itemId, entries) - {REDACTED}
              == if TitlesItem(log[i], entries) then {log[i].data.title.value} - {REDACTED} else {}
      ensures TextAbout(later[i], itemId, entries) <= {REDACTED}
              <==> (TitlesItem(log[i], entries) ==> log[i].data.title.value == REDACTED)
    {
      assert later[i] == RedactPurged(log[i], itemId, entries);
    }
  }
}
