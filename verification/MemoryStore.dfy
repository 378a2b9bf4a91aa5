// The memory tables as the store updates them in place, and the rebuild from files and log:
// src/store/memory/.
module MemoryStore {
  import opened Common
  import opened MemoryLog
  import opened Lifecycle
  import opened Corpus
  import opened Reconcile
  import opened TopicFiles

  /** What memory keeps on disk: the topic files and the event log. */
  class MemoryDisk {
    var files: Files
    var log: seq<MemoryEvent>

    constructor ()
      ensures files == map[] && log == []
    {
      files, log := map[], [];
    }

    method Append(event: MemoryEvent)
      modifies this`log
      ensures log == old(log) + [event]
    {
      log := log + [event];
    }
  }

  class MemoryStore {
    var items: ItemTable
    var inbox: map<string, InboxRow>
    var cursors: map<string, CursorRow>
    var corrections: map<string, CorrectionRow>

    ghost function View(): Lifecycle
      reads this
    {
      Lifecycle(inbox, cursors, corrections)
    }

    constructor ()
      ensures items == map[] && View() == EMPTY
    {
      items, inbox, cursors, corrections := map[], map[], map[], map[];
    }

    method UpsertMemoryItem(key: ItemKey, row: ItemRow)
      modifies this`items
      ensures items == old(items)[key := row]
    {
      items := items[key := row];
    }

    method DeleteMemoryItem(key: ItemKey)
      modifies this`items
      ensures items == old(items) - {key}
    {
      items := items - {key};
    }

    method UpsertInboxEntry(id: string, row: InboxRow)
      modifies this`inbox
      ensures View() == UpsertInbox(old(View()), id, row)
    {
      if id in inbox {
        var there := inbox[id];
        inbox := inbox[id := there.(
          status := row.status, targetItemId := row.targetItemId, memoryType := row.memoryType, title := row.title,
          confidence := row.confidence, operationId := row.operationId, baseHash := row.baseHash,
          resultHash := row.resultHash, reason := row.reason, updatedAt := row.updatedAt)];
      } else {
        inbox := inbox[id := row];
      }
    }

    method SetStatus(id: string, status: InboxStatus, at: int)
      modifies this`inbox
      ensures View() == SetInboxStatus(old(View()), id, status, at)
    {
      if id in inbox {
        inbox := inbox[id := inbox[id].(status := status, updatedAt := at)];
      }
    }

    method SetTarget(id: string, target: string, at: int)
      modifies this`inbox
      ensures View() == SetInboxTarget(old(View()), id, target, at)
    {
      if id in inbox {
        inbox := inbox[id := inbox[id].(targetItemId := Some(target), updatedAt := at)];
      }
    }

    method UpsertMemoryCursor(session: string, seqNo: int, at: int)
      modifies this`cursors
      ensures View() == UpsertCursor(old(View()), session, seqNo, at)
    {
      var kept := seqNo;
      if session in cursors && cursors[session].lastExtractedSeq > seqNo {
        kept := cursors[session].lastExtractedSeq;
      }
      cursors := cursors[session := CursorRow(kept, at)];
    }

    method UpsertMemoryCorrection(key: string, row: CorrectionRow)
      modifies this`corrections
      ensures View() == UpsertCorrection(old(View()), key, row)
    {
      if key in corrections {
        corrections := corrections[key := corrections[key].(reason := row.reason)];
      } else {
        corrections := corrections[key := row];
      }
    }

    /** Replays one event onto the tables. */
    method ProjectEvent(event: MemoryEvent)
      modifies this`inbox, this`cursors, this`corrections
      ensures View() == Projected(old(View()), event)
    {
      match event {
        case InboxProposed(data) => UpsertInboxEntry(data.entryId, FromProposal(data));
        case InboxReviewed(id, status, _, at) => SetStatus(id, status, at);
        case InboxLinked(id, target, at) => SetTarget(id, target, at);
        case CorrectionRecorded(key, scope, scopeId, reason, at) =>
          UpsertMemoryCorrection(key, CorrectionRow(scope, scopeId, reason, at));
        case CursorAdvanced(session, seqNo, at) => UpsertMemoryCursor(session, seqNo, at);
        case _ =>
      }
    }

    /**
     * Reconciles what a crash left open, then rebuilds every table from the files, in the
     * order they are listed, and the log. The tables are those of the log as it is afterwards.
     */
    method ReindexMemoryFromFiles(format: Format, disk: MemoryDisk) returns (ghost listing: seq<ItemKey>)
      modifies this, disk`log
      ensures IsListing(disk.files, listing)
      ensures
        var scanned := Scanned(format, disk.files, listing);
        && disk.log == old(disk.log) + Terminals(old(disk.log), EndedOps(old(disk.log)), scanned)
        && items == TableOf(scanned)
      ensures View() == Replayed(disk.log)
      ensures InPlace(format, disk.files) ==> items == ItemRows(format, disk.files)
    {
      hide InPlace, ItemRows, IsListing, Scanned;
      var scanned: seq<StoredMemoryItem>;
      scanned, listing := ScanTopicItems(format, disk.files);
      var events := disk.log;
      var terminals := PendingTerminals(events, scanned);
      for i := 0 to |terminals|
        invariant disk.log == events + terminals[..i] && disk.files == old(disk.files)
      {
        disk.Append(terminals[i]);
      }
      assert terminals[..|terminals|] == terminals;
      items, inbox, cursors, corrections := map[], map[], map[], map[];
      for i := 0 to |scanned|
        invariant items == TableOf(scanned[..i]) && View() == EMPTY
        invariant disk.log == events + terminals && disk.files == old(disk.files)
      {
        assert scanned[..i + 1][..i] == scanned[..i];
        UpsertMemoryItem(scanned[i].key, scanned[i].row);
      }
      assert scanned[..|scanned|] == scanned;
      ReplayAll(events);
      TerminalsSilent(events, EndedOps(events), scanned);
      SilentTail(events, terminals);
    }

    /** Projects a whole log onto cleared tables. */
    method ReplayAll(events: seq<MemoryEvent>)
      requires View() == EMPTY
      modifies this`inbox, this`cursors, this`corrections
      ensures View() == Replayed(events)
    {
      for i := 0 to |events|
        invariant View() == Replayed(events[..i])
      {
        assert events[..i + 1][..i] == events[..i];
        ProjectEvent(events[i]);
      }
      assert events[..|events|] == events;
    }
  }

  lemma {:induction false} TerminalsSilent(log: seq<MemoryEvent>, ended: set<string>, items: seq<StoredMemoryItem>)
    ensures forall i | 0 <= i < |Terminals(log, ended, items)| :: Silent(Terminals(log, ended, items)[i])
  {
    hide Landed;
    if log != [] {
      TerminalsSilent(log[..|log| - 1], ended, items);
    }
  }
}
