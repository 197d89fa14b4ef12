/** Attachment storage as it runs: tables, files and the loops over blobs, trash and the blob queue. */
module StorageStore {
  import opened Sets
  import opened Wrappers
  import opened StorageModel

  lemma PruneStepIs(db: Db, now: int, doomed: set<int>, order: seq<int>)
    requires (forall i :: i in doomed ==> IsDoomed(db, i, now)) && Distinct(order)
    ensures var t := PruneMessages(db.(items := db.items - doomed), order);
            (t.None? ==> PruneStep(db, now, doomed, order) == db)
            && (t.Some? && (set m | m in order) == MessagesOf(db, doomed) ==> PruneStep(db, now, doomed, order) == t.value)
  {
  }

  class AttachmentStore {
    var boxes: map<int, Mailbox>
    var messages: map<int, Message>
    var items: map<int, Item>
    var attachments: map<int, Attachment>
    var blobs: map<int, Blob>
    var gc: map<string, nat>
    var files: set<string>
    var receipts: map<string, Receipt>
    var nextAttachment: nat
    var events: set<int>
    var addressed: set<int>
    ghost var issued: set<string>
    ghost var queued: set<string>

    ghost function View(): Db
      reads this
    {
      Db(boxes, messages, items, attachments, blobs, gc, files, receipts, nextAttachment, events, addressed, issued, queued)
    }

    constructor ()
      ensures View() == Db(map[], map[], map[], map[], map[], map[], {}, map[], 0, {}, {}, {}, {})
    {
      boxes, messages, items, attachments, blobs := map[], map[], map[], map[], map[];
      gc, files, receipts, nextAttachment := map[], {}, map[], 0;
      events, addressed, issued, queued := {}, {}, {}, {};
    }

    method Attach(m: int, p: Part)
      modifies this
      ensures View() == AddAttachment(old(View()), m, p)
    {
      files := files + {p.key};
      issued := issued + {p.key};
      blobs := blobs[p.blob := Blob(p.key, p.size)];
      attachments := attachments[nextAttachment := Attachment(m, p.blob)];
      nextAttachment := nextAttachment + 1;
    }

    // The drawn identities are new.
    method Upload(b: int, m: int, p: Part, allowed: bool) returns (outcome: Outcome)
      requires IsFresh(View(), p)
      modifies this
      ensures (View(), outcome) == UploadStep(old(View()), b, m, p, allowed)
    {
      if p.size <= 0 || p.size > MAX_BYTES { return Refused(Invalid); }
      if b !in boxes { return Refused(NotFound); }
      if !boxes[b].active { return Refused(Forbidden); }
      if boxes[b].used + p.size > boxes[b].quota { return Refused(RateLimited); }
      if !(m in messages && messages[m].sender == Some(b) && messages[m].draft) { return Refused(Forbidden); }
      var held := set a | a in attachments && attachments[a].message == m;
      assert held == AttachmentsOf(View(), m);
      if |held| >= MAX_COUNT || !allowed { return Refused(RateLimited); }
      outcome := Done(nextAttachment);
      Attach(m, p);
      boxes := boxes[b := boxes[b].(used := boxes[b].used + p.size)];
      events := events + {m};
    }

    method Ingest(event: string, address: string, mailbox: Option<int>, digest: string, parts: seq<Part>, m: int,
                  item: int)
      returns (outcome: Outcome)
      requires m !in messages && item !in items && AllFresh(View(), parts)
      modifies this
      ensures (View(), outcome) == IngestStep(old(View()), event, address, mailbox, digest, parts, m, item)
    {
      if !IsEventId(event) { return Refused(Invalid); }
      if mailbox.None? { return Refused(NotFound); }
      if event in receipts {
        var r := receipts[event];
        if r.digest != digest || r.recipient != address { return Refused(Conflict); }
        return Duplicate(r.message);
      }
      var b := mailbox.value;
      var total := Measure(parts);
      if b !in boxes { return Refused(NotFound); }
      if !boxes[b].active { return Refused(Forbidden); }
      if boxes[b].used + total > boxes[b].quota { return Refused(RateLimited); }
      Deliver(b, m, item, total);
      AttachAll(m, parts);
      receipts := receipts[event := Receipt(digest, address, m)];
      events := events + {m};
      outcome := Done(m);
    }

    method Deliver(b: int, m: int, item: int, total: nat)
      requires b in boxes
      modifies this`messages, this`items, this`boxes
      ensures View() == Charge(old(View()).(messages := old(messages)[m := Message(None, b, false, None)],
                                            items := old(items)[item := Item(b, m, false, None)]), b, total)
    {
      messages := messages[m := Message(None, b, false, None)];
      items := items[item := Item(b, m, false, None)];
      boxes := boxes[b := boxes[b].(used := boxes[b].used + total)];
    }

    method Measure(parts: seq<Part>) returns (total: nat)
      ensures total == TotalSize(parts)
    {
      total := 0;
      for i := 0 to |parts|
        invariant total == TotalSize(parts[..i])
      {
        assert parts[..i + 1][..i] == parts[..i];
        total := total + parts[i].size;
      }
      assert parts[..|parts|] == parts;
    }

    method AttachAll(m: int, parts: seq<Part>)
      modifies this
      ensures View() == AddParts(old(View()), m, parts)
    {
      for i := 0 to |parts|
        invariant View() == AddParts(old(View()), m, parts[..i])
      {
        assert parts[..i + 1][..i] == parts[..i];
        Attach(m, parts[i]);
      }
      assert parts[..|parts|] == parts;
    }

    method Remove(a: int)
      requires CanRemove(View(), a)
      modifies this`boxes, this`messages, this`attachments, this`blobs, this`gc, this`queued
      ensures View() == RemoveAttachment(old(View()), a)
    {
      var l := attachments[a].blob;
      var blob := blobs[l];
      var owner := messages[attachments[a].message].sender.value;
      if blob.key !in gc { gc := gc[blob.key := blob.size]; }
      queued := queued + {blob.key};
      attachments := attachments - {a};
      blobs := blobs - {l};
      boxes := boxes[owner := boxes[owner].(used := Discharged(boxes[owner].used, blob.size))];
    }

    method Detach(b: int, m: int, a: int) returns (outcome: Outcome)
      modifies this
      ensures (View(), outcome) == DetachStep(old(View()), b, m, a)
    {
      if !(a in attachments && attachments[a].message == m && m in messages && messages[m].sender == Some(b)
           && messages[m].draft && attachments[a].blob in blobs && b in boxes) {
        return Refused(NotFound);
      }
      Remove(a);
      events := events + {m};
      outcome := Done(a);
    }

    // The blobs of one message; false when its sender cannot be read.
    method PruneBlobs(m: int) returns (ok: bool)
      modifies this`boxes, this`messages, this`attachments, this`blobs, this`gc, this`queued
      ensures ok <==> RemoveAll(old(View()), m).Some?
      ensures ok ==> View() == RemoveAll(old(View()), m).value
    {
      var left := set a | a in attachments && attachments[a].message == m;
      assert left == AttachmentsOf(View(), m);
      while left != {}
        invariant left == AttachmentsOf(View(), m)
        invariant RemoveAll(old(View()), m) == RemoveAll(View(), m)
        decreases left
      {
        var a := Least(left);
        if !(attachments[a].blob in blobs && m in messages && messages[m].sender.Some? && messages[m].sender.value in boxes) {
          return false;
        }
        ghost var before := View();
        Remove(a);
        assert AttachmentsOf(View(), m) == AttachmentsOf(before, m) - {a};
        left := left - {a};
      }
      ok := true;
    }

    method PruneOne(m: int) returns (ok: bool)
      modifies this`boxes, this`messages, this`attachments, this`blobs, this`gc, this`queued
      ensures ok <==> PruneMessage(old(View()), m).Some?
      ensures ok ==> View() == PruneMessage(old(View()), m).value
    {
      if exists i :: i in items && items[i].message == m {
        assert HasItem(View(), m);
        return true;
      }
      assert !HasItem(View(), m);
      ok := PruneBlobs(m);
      if !ok || exists c :: c in messages && messages[c].parent == Some(m) { return; }
      if m in messages && (m in events || m in addressed || exists e :: e in receipts && receipts[e].message == m) {
        assert Named(View(), m);
        return false;
      }
      messages := messages - {m};
    }

    // All messages of `todo`, in an order left open; stops where one fails.
    method PruneAll(todo: set<int>) returns (ok: bool, ghost order: seq<int>)
      modifies this`boxes, this`messages, this`attachments, this`blobs, this`gc, this`queued
      ensures forall i, j :: 0 <= i < j < |order| ==> order[i] != order[j]
      ensures ok ==> (set m | m in order) == todo && PruneMessages(old(View()), order) == Some(View())
      ensures !ok ==> PruneMessages(old(View()), order).None?
    {
      ghost var start := View();
      ghost var seen: set<int> := {};
      var left := todo;
      ok, order := true, [];
      while left != {}
        invariant PruneMessages(start, order) == Some(View())
        invariant seen == (set m | m in order) && seen + left == todo && seen !! left
        invariant forall i, j :: 0 <= i < j < |order| ==> order[i] != order[j]
        decreases left
      {
        var m := Least(left);
        left := left - {m};
        seen := seen + {m};
        assert (order + [m])[..|order|] == order;
        order := order + [m];
        ok := PruneOne(m);
        if !ok { return; }
      }
    }

    // The oldest expired items that are not locked.
    method PickExpired(now: int, limit: int, locked: set<int>) returns (picked: set<int>)
      ensures Picks(items, now, limit, locked, picked)
    {
      var expired := Expired(items, now, locked);
      var left := expired;
      picked := {};
      while |picked| < PruneLimit(limit) && left != {}
        invariant picked + left == expired && picked !! left && |picked| <= PruneLimit(limit)
        invariant forall i, j :: i in picked && j in left ==> Before(items, i, j)
        decreases left
      {
        FirstExists(items, left);
        var i :| IsFirst(items, left, i);
        picked, left := picked + {i}, left - {i};
      }
      SplitSize(picked, left);
    }

    // The transaction on the items picked; a failure rolls everything back.
    method PrunePicked(ghost now: int, picked: set<int>) returns (ok: bool, ghost order: seq<int>)
      requires forall i :: i in picked ==> IsDoomed(View(), i, now)
      modifies this
      ensures View() == PruneStep(old(View()), now, picked, order) && Distinct(order)
      ensures ok ==> (set m | m in order) == MessagesOf(old(View()), picked)
      ensures !ok ==> View() == old(View()) && PruneMessages(old(View()).(items := old(items) - picked), order).None?
    {
      var affected := set i | i in picked :: items[i].message;
      assert affected == MessagesOf(View(), picked);
      var oldBoxes, oldMessages, oldItems := boxes, messages, items;
      var oldAttachments, oldBlobs, oldGc := attachments, blobs, gc;
      ghost var oldQueued, before := queued, View();
      items := items - picked;
      ok, order := PruneAll(affected);
      if !ok { Restore(oldBoxes, oldMessages, oldItems, oldAttachments, oldBlobs, oldGc, oldQueued, before); }
      PruneStepIs(before, now, picked, order);
    }

    // The rollback.
    method Restore(oldBoxes: map<int, Mailbox>, oldMessages: map<int, Message>, oldItems: map<int, Item>,
                   oldAttachments: map<int, Attachment>, oldBlobs: map<int, Blob>, oldGc: map<string, nat>,
                   ghost oldQueued: set<string>, ghost before: Db)
      requires before == View().(boxes := oldBoxes, messages := oldMessages, items := oldItems, attachments := oldAttachments,
                                 blobs := oldBlobs, gc := oldGc, queued := oldQueued)
      modifies this`boxes, this`messages, this`items, this`attachments, this`blobs, this`gc, this`queued
      ensures View() == before
    {
      boxes, messages, items := oldBoxes, oldMessages, oldItems;
      attachments, blobs, gc := oldAttachments, oldBlobs, oldGc;
      queued := oldQueued;
    }

    method PruneTrash(now: int, limit: int, locked: set<int>) returns (ok: bool, ghost doomed: set<int>, ghost order: seq<int>)
      modifies this
      ensures Picks(old(items), now, limit, locked, doomed)
      ensures View() == PruneStep(old(View()), now, doomed, order) && Distinct(order)
      ensures ok ==> (set m | m in order) == MessagesOf(old(View()), doomed)
      ensures !ok ==> View() == old(View()) && PruneMessages(old(View()).(items := old(items) - doomed), order).None?
    {
      var picked := PickExpired(now, limit, locked);
      doomed := picked;
      ok, order := PrunePicked(now, picked);
    }

    // RunBlobGC for the keys it read; `removable` says which files the disk let go.
    method RunBlobGC(keys: seq<string>, removable: set<string>)
      requires forall i :: 0 <= i < |keys| ==> keys[i] in queued
      modifies this`files, this`gc
      ensures files == old(files) - (set k | k in keys && k in removable)
      ensures gc == old(gc) - (set k | k in keys && (k in removable || k !in old(files)))
    {
      ghost var gone: set<string>, forgotten: set<string> := {}, {};
      for i := 0 to |keys|
        invariant gone == set k | k in keys[..i] && k in removable
        invariant forgotten == set k | k in keys[..i] && (k in removable || k !in old(files))
        invariant files == old(files) - gone && gc == old(gc) - forgotten
      {
        var key := keys[i];
        assert keys[..i + 1] == keys[..i] + [key];
        if key in removable {
          files := files - {key};
          gone := gone + {key};
        }
        if key !in files {
          gc := gc - {key};
          forgotten := forgotten + {key};
        }
      }
      assert keys[..|keys|] == keys;
    }
  }
}
