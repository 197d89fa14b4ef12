/** Attachment storage over whole runs: conservation, delivery once for each event, and when pruning aborts. */
module StorageRuns {
  import opened Sets
  import opened Wrappers
  import opened StorageModel
  import opened StorageLaws

  /** In every run each mailbox is charged the exact size of the attachments it pays for, within its quota, and
      each live blob has its file, under a key the blob queue never held. */
  lemma {:induction false} StorageIsConserved(ops: seq<Op>)
    ensures Balanced(Run(EMPTY, ops))
    decreases |ops|
  {
    if ops != [] {
      StorageIsConserved(ops[..|ops| - 1]);
      StepKeepsBalance(Run(EMPTY, ops[..|ops| - 1]), ops[|ops| - 1]);
    }
  }

  // ---------- every message is named ----------

  // Each message has an event row: its draft or its acceptance.
  ghost predicate Recorded(db: Db) {
    db.messages.Keys <= db.events
  }

  // The same messages, items and rows that name messages.
  ghost predicate SameNames(s: Db, t: Db) {
    && t.messages == s.messages && t.items == s.items && t.receipts == s.receipts
    && t.events == s.events && t.addressed == s.addressed
  }

  lemma {:induction false} RemoveAllKeepsNames(db: Db, m: int)
    requires RemoveAll(db, m).Some?
    ensures SameNames(db, RemoveAll(db, m).value)
    decreases |AttachmentsOf(db, m)|
  {
    if AttachmentsOf(db, m) != {} {
      var a := Least(AttachmentsOf(db, m));
      assert AttachmentsOf(RemoveAttachment(db, a), m) == AttachmentsOf(db, m) - {a};
      RemoveAllKeepsNames(RemoveAttachment(db, a), m);
    }
  }

  lemma PruneMessageKeepsNames(db: Db, m: int)
    requires Recorded(db) && PruneMessage(db, m).Some?
    ensures SameNames(db, PruneMessage(db, m).value)
  {
    if !HasItem(db, m) {
      RemoveAllKeepsNames(db, m);
      assert m !in db.messages ==> db.messages - {m} == db.messages;
    }
  }

  lemma {:induction false} PruneMessagesKeepNames(db: Db, order: seq<int>)
    requires Recorded(db) && PruneMessages(db, order).Some?
    ensures SameNames(db, PruneMessages(db, order).value)
    decreases |order|
  {
    if order != [] {
      PruneMessagesKeepNames(db, order[..|order| - 1]);
      PruneMessageKeepsNames(PruneMessages(db, order[..|order| - 1]).value, order[|order| - 1]);
    }
  }

  lemma PruneKeepsNames(db: Db, now: int, doomed: set<int>, order: seq<int>)
    requires Recorded(db)
    ensures var t := PruneStep(db, now, doomed, order);
            && t.messages == db.messages && t.receipts == db.receipts
            && t.events == db.events && t.addressed == db.addressed
  {
    var s := db.(items := db.items - doomed);
    if PruneMessages(s, order).Some? { PruneMessagesKeepNames(s, order); }
  }

  lemma IngestNames(db: Db, event: string, address: string, mailbox: Option<int>, digest: string, parts: seq<Part>, m: int,
                    item: int)
    requires IngestStep(db, event, address, mailbox, digest, parts, m, item).1.Done?
    ensures var t := IngestStep(db, event, address, mailbox, digest, parts, m, item).0;
            && t.messages.Keys == db.messages.Keys + {m} && t.events == db.events + {m}
            && db.receipts.Keys <= t.receipts.Keys && event in t.receipts
            && forall e :: e in db.receipts ==> t.receipts[e] == db.receipts[e]
  {
    var created := db.(messages := db.messages[m := Message(None, mailbox.value, false, None)],
                       items := db.items[item := Item(mailbox.value, m, false, None)]);
    AddPartsKeepsNames(Charge(created, mailbox.value, TotalSize(parts)), m, parts);
  }

  lemma OtherStepsName(db: Db, op: Op)
    requires !op.PruneTrash? && !op.Ingest? && Recorded(db)
    ensures Recorded(Step(db, op)) && db.messages.Keys <= Step(db, op).messages.Keys
  {
  }

  lemma StepKeepsRecorded(db: Db, op: Op)
    requires Recorded(db)
    ensures Recorded(Step(db, op)) && db.messages.Keys <= Step(db, op).messages.Keys
  {
    match op
    case PruneTrash(now, doomed, order) => PruneKeepsNames(db, now, doomed, order);
    case Ingest(e, address, box, digest, parts, m, i) =>
      if IngestStep(db, e, address, box, digest, parts, m, i).1.Done? {
        IngestNames(db, e, address, box, digest, parts, m, i);
      }
    case _ => OtherStepsName(db, op);
  }

  lemma {:induction false} RunIsRecorded(ops: seq<Op>)
    ensures Recorded(Run(EMPTY, ops))
    decreases |ops|
  {
    if ops != [] {
      RunIsRecorded(ops[..|ops| - 1]);
      StepKeepsRecorded(Run(EMPTY, ops[..|ops| - 1]), ops[|ops| - 1]);
    }
  }

  /** No message is ever deleted: pruning the trash of any reachable database leaves every message, and so does any run. */
  lemma {:induction false} MessagesStay(ops: seq<Op>, more: seq<Op>)
    ensures Run(EMPTY, ops).messages.Keys <= Run(EMPTY, ops + more).messages.Keys
    decreases |more|
  {
    if more == [] {
      assert ops + more == ops;
    } else {
      var rest := more[..|more| - 1];
      MessagesStay(ops, rest);
      RunIsRecorded(ops + rest);
      assert (ops + more)[..|ops + more| - 1] == ops + rest;
      StepKeepsRecorded(Run(EMPTY, ops + rest), more[|more| - 1]);
    }
  }

  // ---------- one delivery for each event ----------

  lemma ReceiptStays(db: Db, op: Op, event: string)
    requires Recorded(db) && event in db.receipts
    ensures event in Step(db, op).receipts && Step(db, op).receipts[event] == db.receipts[event]
  {
    match op
    case Ingest(e, address, box, digest, parts, m, i) =>
      if IngestStep(db, e, address, box, digest, parts, m, i).1.Done? {
        IngestNames(db, e, address, box, digest, parts, m, i);
      }
    case PruneTrash(now, doomed, order) => PruneKeepsNames(db, now, doomed, order);
    case _ =>
  }

  /** An accepted event is never delivered or charged again, whatever happens in between. */
  lemma {:induction false} EventIsDeliveredOnce(db: Db, event: string, ops: seq<Op>, address: string, mailbox: Option<int>,
                                                digest: string, parts: seq<Part>, m: int,
                                                item: int)
    requires Recorded(db) && event in db.receipts
    ensures Recorded(Run(db, ops))
    ensures var t := Run(db, ops);
            && event in t.receipts && t.receipts[event] == db.receipts[event]
            && IngestStep(t, event, address, mailbox, digest, parts, m, item).0 == t
    decreases |ops|
  {
    if ops != [] {
      EventIsDeliveredOnce(db, event, ops[..|ops| - 1], address, mailbox, digest, parts, m, item);
      ReceiptStays(Run(db, ops[..|ops| - 1]), ops[|ops| - 1], event);
      StepKeepsRecorded(Run(db, ops[..|ops| - 1]), ops[|ops| - 1]);
    }
  }

  // ---------- when pruning aborts ----------

  // An inbound message with attachments, or one that nobody answered and some row names.
  predicate Undeletable(db: Db, m: int) {
    && m in db.messages
    && ((db.messages[m].sender.None? && AttachmentsOf(db, m) != {}) || (!HasAnswer(db, m) && Named(db, m)))
  }

  // Such a message when nobody holds it.
  predicate Stuck(db: Db, m: int) {
    !HasItem(db, m) && Undeletable(db, m)
  }

  lemma {:induction false} RemoveAllFails(db: Db, m: int)
    requires Rows(db)
    ensures RemoveAll(db, m).None? <==> AttachmentsOf(db, m) != {} && m in db.messages && db.messages[m].sender.None?
    decreases |AttachmentsOf(db, m)|
  {
    if AttachmentsOf(db, m) != {} {
      var a := Least(AttachmentsOf(db, m));
      assert AttachmentOk(db, a);
      assert MessageOk(db, m);
      if CanRemove(db, a) {
        assert AttachmentsOf(RemoveAttachment(db, a), m) == AttachmentsOf(db, m) - {a};
        RemoveKeepsRows(db, a);
        RemoveAllFails(RemoveAttachment(db, a), m);
      }
    }
  }

  lemma PruneMessageFails(db: Db, m: int)
    requires Balanced(db)
    ensures PruneMessage(db, m).None? <==> Stuck(db, m)
  {
    RemoveAllFails(db, m);
    if RemoveAll(db, m).Some? {
      var t := RemoveAll(db, m).value;
      RemoveAllKeepsNames(db, m);
      assert HasAnswer(t, m) == HasAnswer(db, m) && Named(t, m) == Named(db, m);
    }
  }

  // Removing one message's attachments leaves those of the others.
  lemma {:induction false} RemoveAllElsewhere(db: Db, m: int, other: int)
    requires m != other && RemoveAll(db, m).Some?
    ensures AttachmentsOf(RemoveAll(db, m).value, other) == AttachmentsOf(db, other)
    decreases |AttachmentsOf(db, m)|
  {
    if AttachmentsOf(db, m) != {} {
      var a := Least(AttachmentsOf(db, m));
      assert AttachmentsOf(RemoveAttachment(db, a), m) == AttachmentsOf(db, m) - {a};
      assert AttachmentsOf(RemoveAttachment(db, a), other) == AttachmentsOf(db, other);
      RemoveAllElsewhere(RemoveAttachment(db, a), m, other);
    }
  }

  lemma {:induction false} AttachmentsStay(db: Db, order: seq<int>, m: int)
    requires PruneMessages(db, order).Some? && m !in order
    ensures AttachmentsOf(PruneMessages(db, order).value, m) == AttachmentsOf(db, m)
    decreases |order|
  {
    if order != [] {
      AttachmentsStay(db, order[..|order| - 1], m);
      var s, last := PruneMessages(db, order[..|order| - 1]).value, order[|order| - 1];
      if !HasItem(s, last) { RemoveAllElsewhere(s, last, m); }
    }
  }

  lemma StuckStays(db: Db, order: seq<int>, m: int)
    requires Recorded(db) && PruneMessages(db, order).Some? && m !in order
    ensures Stuck(PruneMessages(db, order).value, m) <==> Stuck(db, m)
  {
    PruneMessagesKeepNames(db, order);
    AttachmentsStay(db, order, m);
    var t := PruneMessages(db, order).value;
    assert HasAnswer(t, m) == HasAnswer(db, m) && Named(t, m) == Named(db, m) && HasItem(t, m) == HasItem(db, m);
  }

  /** In a database whose messages are all recorded, as they are in every run, pruning aborts if and only if some message of
      the items is left without one and is either from outside with attachments, or unanswered and named by another row. */
  lemma {:induction false} PruneAbortsIff(db: Db, order: seq<int>)
    requires Balanced(db) && Recorded(db) && Distinct(order)
    ensures PruneMessages(db, order).None? <==> exists i :: 0 <= i < |order| && Stuck(db, order[i])
    decreases |order|
  {
    if order != [] {
      var rest, m := order[..|order| - 1], order[|order| - 1];
      PruneAbortsIff(db, rest);
      assert forall i :: 0 <= i < |rest| ==> order[i] == rest[i];
      if PruneMessages(db, rest).None? {
        var i :| 0 <= i < |rest| && Stuck(db, rest[i]);
        assert Stuck(db, order[i]);
      } else {
        var s := PruneMessages(db, rest).value;
        PruneMessagesKeeps(db, rest);
        StuckStays(db, rest, m);
        PruneMessageFails(s, m);
        assert forall i :: 0 <= i < |rest| ==> !Stuck(db, rest[i]);
      }
    }
  }

  // ---------- a stuck message stops all pruning ----------

  lemma WithoutItems(db: Db, doomed: set<int>)
    requires Balanced(db)
    ensures Balanced(db.(items := db.items - doomed))
  {
    NamesKeep(db, db.(items := db.items - doomed));
  }

  /** While all items of a message that is unanswered, or from outside with attachments, are among those picked, pruning
      changes nothing: not that message, nor any other. */
  lemma StuckBlocksPick(db: Db, now: int, doomed: set<int>, order: seq<int>, i: int)
    requires Balanced(db) && Recorded(db) && i in doomed && i in db.items
    requires Stuck(db.(items := db.items - doomed), db.items[i].message)
    ensures PruneStep(db, now, doomed, order) == db
  {
    var s := db.(items := db.items - doomed);
    if (set m | m in order) == MessagesOf(db, doomed) && Distinct(order) {
      WithoutItems(db, doomed);
      PruneAbortsIff(s, order);
      assert db.items[i].message in MessagesOf(db, doomed);
      assert db.items[i].message in (set m | m in order);
    }
  }

  // The item that alone holds an undeletable message.
  predicate OnlyHolder(db: Db, i: int) {
    && i in db.items && Undeletable(db, db.items[i].message)
    && forall j :: j in db.items && db.items[j].message == db.items[i].message ==> j == i
  }

  // Trashed before it.
  function Older(db: Db, i: int): set<int>
    requires i in db.items && db.items[i].deletedAt.Some?
  {
    set j | j in db.items && db.items[j].trash && db.items[j].deletedAt.Some? && Before(db.items, j, i)
  }

  lemma EarlyIsPicked(db: Db, now: int, limit: int, locked: set<int>, doomed: set<int>, i: int)
    requires IsDoomed(db, i, now) && |Older(db, i)| < PruneLimit(limit)
    requires i !in locked && Picks(db.items, now, limit, locked, doomed)
    ensures i in doomed
  {
    var expired := Expired(db.items, now, locked);
    assert i in expired;
    if i !in doomed {
      forall j | j in doomed ensures j in Older(db, i) { assert Before(db.items, j, i); }
      Fewer(doomed, Older(db, i));
      OneFewer(doomed, expired, i);
      assert false;
    }
  }

  lemma Fewer(a: set<int>, b: set<int>)
    requires a <= b
    ensures |a| <= |b|
  {
    assert b == a + (b - a);
    SplitSize(a, b - a);
  }

  lemma OneFewer(a: set<int>, b: set<int>, i: int)
    requires a <= b && i in b && i !in a
    ensures |a| < |b|
  {
    Fewer(a + {i}, b);
    SplitSize(a, {i});
  }

  // A call of PruneTrash, once the item has expired and while no other transaction holds it.
  ghost predicate IsPrune(db: Db, op: Op, i: int, limit: int) {
    && op.PruneTrash? && IsDoomed(db, i, op.now)
    && exists locked :: i !in locked && Picks(db.items, op.now, limit, locked, op.doomed)
  }

  /** One expired item that alone holds a message, when the message is unanswered or from outside with attachments and
      fewer than a batch of items are older, ends trash pruning: no number of calls prunes anything. */
  lemma {:induction false} StuckBlocksPruning(db: Db, i: int, limit: int, ops: seq<Op>)
    requires Balanced(db) && Recorded(db) && OnlyHolder(db, i)
    requires db.items[i].deletedAt.Some? && |Older(db, i)| < PruneLimit(limit)
    requires forall k :: 0 <= k < |ops| ==> IsPrune(db, ops[k], i, limit)
    ensures Run(db, ops) == db
    decreases |ops|
  {
    if ops != [] {
      var op := ops[|ops| - 1];
      StuckBlocksPruning(db, i, limit, ops[..|ops| - 1]);
      assert IsPrune(db, op, i, limit);
      var locked :| i !in locked && Picks(db.items, op.now, limit, locked, op.doomed);
      EarlyIsPicked(db, op.now, limit, locked, op.doomed, i);
      StuckWithoutItem(db, i, op.doomed);
      StuckBlocksPick(db, op.now, op.doomed, op.order, i);
    }
  }

  lemma StuckWithoutItem(db: Db, i: int, doomed: set<int>)
    requires OnlyHolder(db, i) && i in doomed
    ensures Stuck(db.(items := db.items - doomed), db.items[i].message)
  {
    var s, m := db.(items := db.items - doomed), db.items[i].message;
    assert AttachmentsOf(s, m) == AttachmentsOf(db, m) && HasAnswer(s, m) == HasAnswer(db, m) && Named(s, m) == Named(db, m);
  }

  // ---------- runs that end so ----------

  const EVENT := "0123456789abcdef"
  const PART := Part(1, "k", 5)
  const IN_TRASH := Item(1, 1, true, Some(0))

  // A call that picks the oldest expired items picks the one item, fails and changes nothing.
  ghost predicate CallFails(db: Db, now: int, limit: int, doomed: set<int>, order: seq<int>) {
    now > TRASH_RETENTION && Picks(db.items, now, limit, {}, doomed) ==>
      && doomed == {1} && PruneStep(db, now, doomed, order) == db
      && PruneMessages(db.(items := db.items - doomed), [1]).None?
  }

  // The only item is in the trash since time 0, and from its expiry on every call of PruneTrash fails.
  ghost predicate NeverPruned(db: Db) {
    && db.items == map[1 := IN_TRASH]
    && forall now, limit, doomed, order {:trigger CallFails(db, now, limit, doomed, order)} ::
         CallFails(db, now, limit, doomed, order)
  }

  lemma EveryCallFails(db: Db, now: int, limit: int, doomed: set<int>, order: seq<int>)
    requires Balanced(db) && Recorded(db) && db.items == map[1 := IN_TRASH] && OnlyHolder(db, 1)
    ensures CallFails(db, now, limit, doomed, order)
  {
    if now > TRASH_RETENTION && Picks(db.items, now, limit, {}, doomed) {
      assert Expired(db.items, now, {}) == {1};
      assert Older(db, 1) == {};
      EarlyIsPicked(db, now, limit, {}, doomed, 1);
      assert doomed == {1};
      StuckWithoutItem(db, 1, doomed);
      StuckBlocksPick(db, now, doomed, order, 1);
      WithoutItems(db, doomed);
      PruneAbortsIff(db.(items := db.items - doomed), [1]);
      assert [1][0] == 1;
    }
  }

  lemma TrashedIsStuck(ops: seq<Op>)
    requires var db := Run(EMPTY, ops);
             db.items == map[1 := IN_TRASH] && 1 in db.messages && !HasAnswer(db, 1)
    ensures NeverPruned(Run(EMPTY, ops))
  {
    var db := Run(EMPTY, ops);
    StorageIsConserved(ops);
    RunIsRecorded(ops);
    assert Named(db, 1);
    assert OnlyHolder(db, 1);
    forall now, limit, doomed, order ensures CallFails(db, now, limit, doomed, order) {
      EveryCallFails(db, now, limit, doomed, order);
    }
  }

  lemma Snoc(db: Db, ops: seq<Op>, op: Op)
    ensures Run(db, ops + [op]) == Step(Run(db, ops), op)
  {
    assert (ops + [op])[..|ops|] == ops;
  }

  // With an open mailbox.
  const OPEN: Db := EMPTY.(boxes := map[1 := Mailbox(MIN_QUOTA, 0, true)])

  // With a message from outside, without attachments, in the inbox.
  const DELIVERED: Db := OPEN.(messages := map[1 := Message(None, 1, false, None)], items := map[1 := Item(1, 1, false, None)],
                               receipts := map[EVENT := Receipt("d", "a", 1)], events := {1})

  lemma Delivers()
    ensures Step(OPEN, Ingest(EVENT, "a", Some(1), "d", [], 1, 1)) == DELIVERED
  {
    assert IsEventId(EVENT) && AllFresh(OPEN, []);
    assert OPEN.boxes[1 := OPEN.boxes[1].(used := 0)] == OPEN.boxes;
  }

  lemma DeliveredRun() returns (ops: seq<Op>)
    ensures Run(EMPTY, ops) == DELIVERED
  {
    var open, ingest := OpenMailbox(1, MIN_QUOTA), Ingest(EVENT, "a", Some(1), "d", [], 1, 1);
    assert Step(EMPTY, open) == OPEN;
    Delivers();
    Snoc(EMPTY, [], open);
    Snoc(EMPTY, [] + [open], ingest);
    ops := [] + [open] + [ingest];
  }

  /** A message from outside, even without attachments: once it is in the trash for thirty days every call of PruneTrash
      fails. */
  lemma InboundTrashIsNeverPruned() returns (ops: seq<Op>)
    ensures NeverPruned(Run(EMPTY, ops)) && 1 in Run(EMPTY, ops).messages && Run(EMPTY, ops).messages[1].sender.None?
  {
    ops := DeliveredRun();
    Snoc(EMPTY, ops, PutItem(1, IN_TRASH));
    ops := ops + [PutItem(1, IN_TRASH)];
    var db := Run(EMPTY, ops);
    assert db == DELIVERED.(items := map[1 := IN_TRASH]);
    TrashedIsStuck(ops);
  }

  // With a draft, then with its attachment, then sent.
  const DRAFTED: Db := OPEN.(messages := map[1 := Message(Some(1), 1, true, None)], items := map[1 := Item(1, 1, false, None)],
                             events := {1})
  const ATTACHED: Db := DRAFTED.(boxes := map[1 := Mailbox(MIN_QUOTA, 5, true)], files := {"k"}, issued := {"k"},
                                 blobs := map[1 := Blob("k", 5)], attachments := map[0 := Attachment(1, 1)],
                                 nextAttachment := 1)
  const SENT: Db := ATTACHED.(messages := map[1 := Message(Some(1), 1, false, None)])

  lemma Uploads()
    ensures Step(DRAFTED, Upload(1, 1, PART, true)) == ATTACHED
  {
    assert AttachmentsOf(DRAFTED, 1) == {};
  }

  lemma SentRun() returns (ops: seq<Op>)
    ensures Run(EMPTY, ops) == SENT
  {
    var open, draft := OpenMailbox(1, MIN_QUOTA), CreateDraft(1, 1, 1, None, false);
    var upload, send := Upload(1, 1, PART, true), MarkSent(1);
    assert Step(EMPTY, open) == OPEN && Step(OPEN, draft) == DRAFTED;
    Uploads();
    assert Step(ATTACHED, send) == SENT;
    Snoc(EMPTY, [], open);
    Snoc(EMPTY, [] + [open], draft);
    Snoc(EMPTY, [] + [open] + [draft], upload);
    Snoc(EMPTY, [] + [open] + [draft] + [upload], send);
    ops := [] + [open] + [draft] + [upload] + [send];
  }

  /** A sent message whose last copy has expired: it is never pruned, and the sender keeps paying for its attachment. */
  lemma SentTrashIsNeverPruned() returns (ops: seq<Op>)
    ensures NeverPruned(Run(EMPTY, ops)) && 1 in Run(EMPTY, ops).messages && Run(EMPTY, ops).messages[1].sender == Some(1)
    ensures 1 in Run(EMPTY, ops).boxes && Run(EMPTY, ops).boxes[1].used == 5
  {
    ops := SentRun();
    Snoc(EMPTY, ops, PutItem(1, IN_TRASH));
    ops := ops + [PutItem(1, IN_TRASH)];
    var db := Run(EMPTY, ops);
    assert db == SENT.(items := map[1 := IN_TRASH]);
    TrashedIsStuck(ops);
  }
}
