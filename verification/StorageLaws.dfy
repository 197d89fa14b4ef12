/** Conservation of storage: what a mailbox is charged is the size of what it holds, and every live blob has its file. */
module StorageLaws {
  import opened Sets
  import opened Wrappers
  import opened StorageModel

  datatype Op =
    | OpenMailbox(box: int, quota: int)
    | CreateDraft(box: int, message: int, item: int, parent: Option<int>, external: bool)
    | EditDraft(message: int, external: bool)
    | MarkSent(message: int)
    | PutItem(item: int, row: Item)
    | Upload(box: int, message: int, part: Part, allowed: bool)
    | Detach(box: int, message: int, attachment: int)
    | Ingest(event: string, address: string, mailbox: Option<int>, digest: string, parts: seq<Part>, message: int,
             item: int)
    | Crash(key: string)
    | PruneTrash(now: int, doomed: set<int>, order: seq<int>)
    | Collect(key: string)
    | Forget(key: string)

  function Step(db: Db, op: Op): Db {
    match op
    case OpenMailbox(b, quota) => OpenStep(db, b, quota)
    case CreateDraft(b, m, i, parent, external) => DraftStep(db, b, m, i, parent, external)
    case EditDraft(m, external) => EditStep(db, m, external)
    case MarkSent(m) => SendStep(db, m)
    case PutItem(i, row) => PutItemStep(db, i, row)
    case Upload(b, m, p, allowed) => UploadStep(db, b, m, p, allowed).0
    case Detach(b, m, a) => DetachStep(db, b, m, a).0
    case Ingest(e, address, box, digest, parts, m, i) => IngestStep(db, e, address, box, digest, parts, m, i).0
    case Crash(key) => AbandonFile(db, key)
    case PruneTrash(now, doomed, order) => PruneStep(db, now, doomed, order)
    case Collect(key) => CollectFile(db, key)
    case Forget(key) => ForgetKey(db, key)
  }

  function Run(db: Db, ops: seq<Op>): Db
    decreases |ops|
  {
    if ops == [] then db else Step(Run(db, ops[..|ops| - 1]), ops[|ops| - 1])
  }

  const EMPTY := Db(map[], map[], map[], map[], map[], map[], {}, map[], 0, {}, {}, {}, {})

  // ---------- what a mailbox is charged ----------

  ghost function SizeFor(db: Db, b: int, a: int): nat {
    if a in db.attachments && db.attachments[a].blob in db.blobs && db.attachments[a].message in db.messages
       && Payer(db.messages[db.attachments[a].message]) == b
    then db.blobs[db.attachments[a].blob].size else 0
  }

  // The attachments with identities below n that b pays for.
  ghost function Charged(db: Db, b: int, n: nat): nat {
    if n == 0 then 0 else Charged(db, b, n - 1) + SizeFor(db, b, n - 1)
  }

  lemma {:induction false} SameCharge(s: Db, t: Db, b: int, n: nat)
    requires forall a: nat :: a < n ==> SizeFor(s, b, a) == SizeFor(t, b, a)
    ensures Charged(s, b, n) == Charged(t, b, n)
  {
    if n > 0 { SameCharge(s, t, b, n - 1); }
  }

  // One attachment less.
  lemma {:induction false} ChargeWithout(s: Db, t: Db, b: int, n: nat, a: nat)
    requires a < n && SizeFor(t, b, a) == 0 && forall c: nat :: c < n && c != a ==> SizeFor(s, b, c) == SizeFor(t, b, c)
    ensures Charged(s, b, n) == Charged(t, b, n) + SizeFor(s, b, a)
  {
    if a == n - 1 { SameCharge(s, t, b, n - 1); } else { ChargeWithout(s, t, b, n - 1, a); }
  }

  // ---------- the invariant ----------

  ghost predicate BoxOk(db: Db, b: int) {
    b in db.boxes && db.boxes[b].used == Charged(db, b, db.nextAttachment) && 0 <= db.boxes[b].used <= db.boxes[b].quota
  }

  ghost predicate MessageOk(db: Db, m: int) {
    m in db.messages && Payer(db.messages[m]) in db.boxes && (db.messages[m].sender.None? ==> !db.messages[m].draft)
  }

  ghost predicate AttachmentOk(db: Db, a: int) {
    a in db.attachments && 0 <= a < db.nextAttachment
    && db.attachments[a].message in db.messages && db.attachments[a].blob in db.blobs
  }

  // A live blob's file is there and no collector may touch it.
  ghost predicate BlobOk(db: Db, l: int) {
    l in db.blobs && db.blobs[l].key in db.files && db.blobs[l].key !in db.queued && db.blobs[l].key in db.issued
  }

  ghost predicate BlobsApart(db: Db, a: int, c: int) {
    a in db.attachments && c in db.attachments && db.attachments[a].blob == db.attachments[c].blob ==> a == c
  }

  ghost predicate KeysApart(db: Db, l: int, k: int) {
    l in db.blobs && k in db.blobs && db.blobs[l].key == db.blobs[k].key ==> l == k
  }

  ghost predicate Rows(db: Db) {
    && (forall m {:trigger MessageOk(db, m)} :: m in db.messages ==> MessageOk(db, m))
    && (forall a {:trigger AttachmentOk(db, a)} :: a in db.attachments ==> AttachmentOk(db, a))
    && (forall a, c {:trigger BlobsApart(db, a, c)} :: BlobsApart(db, a, c))
  }

  ghost predicate Files(db: Db) {
    && (forall l {:trigger BlobOk(db, l)} :: l in db.blobs ==> BlobOk(db, l))
    && (forall l, k {:trigger KeysApart(db, l, k)} :: KeysApart(db, l, k))
    && db.gc.Keys <= db.queued <= db.issued
  }

  ghost predicate Boxes(db: Db) {
    forall b {:trigger BoxOk(db, b)} :: b in db.boxes ==> BoxOk(db, b)
  }

  ghost predicate Balanced(db: Db) {
    Rows(db) && Files(db) && Boxes(db)
  }

  // ---------- adding keeps it ----------

  lemma AddKeeps(db: Db, m: int, p: Part)
    requires Rows(db) && Files(db) && m in db.messages && IsFresh(db, p)
    ensures Rows(AddAttachment(db, m, p)) && Files(AddAttachment(db, m, p))
  {
    var t := AddAttachment(db, m, p);
    forall c | c in t.messages ensures MessageOk(t, c) { assert MessageOk(db, c); }
    forall a | a in t.attachments ensures AttachmentOk(t, a) {
      if a in db.attachments { assert AttachmentOk(db, a); }
    }
    forall l | l in t.blobs ensures BlobOk(t, l) {
      if l in db.blobs { assert BlobOk(db, l); }
    }
    forall l | l in db.blobs ensures db.blobs[l].key != p.key { assert BlobOk(db, l); }
    forall a | a in db.attachments ensures db.attachments[a].blob != p.blob && a != db.nextAttachment {
      assert AttachmentOk(db, a);
    }
    forall a, c ensures BlobsApart(t, a, c) { assert BlobsApart(db, a, c); }
    forall l, k ensures KeysApart(t, l, k) { assert KeysApart(db, l, k); }
  }

  lemma AddCharges(db: Db, m: int, p: Part, b: int)
    requires Rows(db) && m in db.messages && IsFresh(db, p)
    ensures var t := AddAttachment(db, m, p);
            Charged(t, b, t.nextAttachment)
            == Charged(db, b, db.nextAttachment) + if Payer(db.messages[m]) == b then p.size else 0
  {
    var t := AddAttachment(db, m, p);
    forall a: nat | a < db.nextAttachment ensures SizeFor(t, b, a) == SizeFor(db, b, a) {
      if a in db.attachments { assert AttachmentOk(db, a); }
    }
    SameCharge(t, db, b, db.nextAttachment);
  }

  lemma {:induction false} AddPartsKeeps(db: Db, m: int, parts: seq<Part>, b: int)
    requires Rows(db) && Files(db) && m in db.messages && AllFresh(db, parts)
    ensures var t := AddParts(db, m, parts);
            && Rows(t) && Files(t) && t.messages == db.messages && t.boxes == db.boxes && t.gc == db.gc
            && Charged(t, b, t.nextAttachment)
               == Charged(db, b, db.nextAttachment) + (if Payer(db.messages[m]) == b then TotalSize(parts) else 0)
            && (forall p :: IsFresh(db, p) && (forall i :: 0 <= i < |parts| ==> p.key != parts[i].key && p.blob != parts[i].blob)
                            ==> IsFresh(t, p))
    decreases |parts|
  {
    if parts != [] {
      var rest, p := parts[..|parts| - 1], parts[|parts| - 1];
      AddPartsKeeps(db, m, rest, b);
      var s := AddParts(db, m, rest);
      AddKeeps(s, m, p);
      AddCharges(s, m, p, b);
    }
  }

  // ---------- removing keeps it ----------

  lemma ChargedHasEach(db: Db, b: int, n: nat, a: nat)
    requires a < n
    ensures Charged(db, b, n) >= SizeFor(db, b, a)
  {
  }

  /** The clamp at zero never acts: a mailbox is charged at least the size of each attachment it pays for. */
  lemma ClampNeverActs(db: Db, a: int)
    requires Balanced(db) && CanRemove(db, a)
    ensures var owner := db.messages[db.attachments[a].message].sender.value;
            Discharged(db.boxes[owner].used, db.blobs[db.attachments[a].blob].size)
            == db.boxes[owner].used - db.blobs[db.attachments[a].blob].size
  {
    var owner := db.messages[db.attachments[a].message].sender.value;
    assert AttachmentOk(db, a) && BoxOk(db, owner);
    ChargedHasEach(db, owner, db.nextAttachment, a);
  }

  lemma RemoveKeepsFiles(db: Db, a: int)
    requires Rows(db) && Files(db) && CanRemove(db, a)
    ensures Files(RemoveAttachment(db, a))
  {
    var t := RemoveAttachment(db, a);
    assert BlobOk(db, db.attachments[a].blob);
    forall l | l in t.blobs ensures BlobOk(t, l) { assert BlobOk(db, l) && KeysApart(db, l, db.attachments[a].blob); }
    forall l, k ensures KeysApart(t, l, k) { assert KeysApart(db, l, k); }
  }

  lemma RemoveKeepsRows(db: Db, a: int)
    requires Rows(db) && CanRemove(db, a)
    ensures Rows(RemoveAttachment(db, a))
  {
    var t := RemoveAttachment(db, a);
    forall m | m in t.messages ensures MessageOk(t, m) { assert MessageOk(db, m); }
    forall c | c in t.attachments ensures AttachmentOk(t, c) {
      assert AttachmentOk(db, c) && BlobsApart(db, a, c);
    }
    forall c, d ensures BlobsApart(t, c, d) { assert BlobsApart(db, c, d); }
  }

  lemma RemoveKeepsBoxes(db: Db, a: int)
    requires Balanced(db) && CanRemove(db, a)
    ensures Boxes(RemoveAttachment(db, a))
  {
    var t := RemoveAttachment(db, a);
    assert AttachmentOk(db, a);
    ClampNeverActs(db, a);
    forall b | b in t.boxes ensures BoxOk(t, b) {
      assert BoxOk(db, b);
      forall c: nat | c < db.nextAttachment && c != a ensures SizeFor(db, b, c) == SizeFor(t, b, c) {
        if c in db.attachments { assert AttachmentOk(db, c) && BlobsApart(db, a, c); }
      }
      ChargeWithout(db, t, b, db.nextAttachment, a);
    }
  }

  lemma RemoveKeeps(db: Db, a: int)
    requires Balanced(db) && CanRemove(db, a)
    ensures Balanced(RemoveAttachment(db, a))
  {
    RemoveKeepsFiles(db, a);
    RemoveKeepsRows(db, a);
    RemoveKeepsBoxes(db, a);
  }

  lemma {:induction false} RemoveAllKeeps(db: Db, m: int)
    requires Balanced(db)
    ensures RemoveAll(db, m).Some? ==>
              var t := RemoveAll(db, m).value;
              Balanced(t) && AttachmentsOf(t, m) == {} && t.messages == db.messages && t.items == db.items
    decreases |AttachmentsOf(db, m)|
  {
    if AttachmentsOf(db, m) != {} {
      var a := Least(AttachmentsOf(db, m));
      if CanRemove(db, a) {
        assert AttachmentsOf(RemoveAttachment(db, a), m) == AttachmentsOf(db, m) - {a};
        RemoveKeeps(db, a);
        RemoveAllKeeps(RemoveAttachment(db, a), m);
      }
    }
  }

  // The charges depend on attachments, blobs and payers only.
  lemma SameChargesKeep(s: Db, t: Db)
    requires Balanced(s) && t.boxes == s.boxes && t.nextAttachment == s.nextAttachment
    requires t.attachments == s.attachments && t.blobs == s.blobs
    requires forall a :: a in s.attachments ==> s.attachments[a].message in t.messages
    requires forall m :: m in t.messages && m in s.messages ==>
                           t.messages[m].sender == s.messages[m].sender && t.messages[m].receiver == s.messages[m].receiver
    ensures Boxes(t)
  {
    forall a: nat, b | a < s.nextAttachment ensures SizeFor(t, b, a) == SizeFor(s, b, a) {
      if a in s.attachments { assert AttachmentOk(s, a); }
    }
    forall b | b in t.boxes ensures BoxOk(t, b) {
      assert BoxOk(s, b);
      SameCharge(s, t, b, s.nextAttachment);
    }
  }

  lemma SameMessagesKeep(s: Db, t: Db)
    requires Balanced(s) && t.boxes == s.boxes && t.nextAttachment == s.nextAttachment && t.messages == s.messages
    requires t.attachments == s.attachments && t.blobs == s.blobs
    requires t.gc.Keys <= t.queued <= t.issued && t.queued == s.queued && s.issued <= t.issued
    requires forall l :: l in s.blobs ==> s.blobs[l].key in t.files
    ensures Balanced(t)
  {
    forall m | m in t.messages ensures MessageOk(t, m) { assert MessageOk(s, m); }
    forall a | a in t.attachments ensures AttachmentOk(t, a) { assert AttachmentOk(s, a); }
    forall l | l in t.blobs ensures BlobOk(t, l) { assert BlobOk(s, l); }
    forall a, c ensures BlobsApart(t, a, c) { assert BlobsApart(s, a, c); }
    forall l, k ensures KeysApart(t, l, k) { assert KeysApart(s, l, k); }
    SameChargesKeep(s, t);
  }

  lemma LiveBlobs(db: Db)
    requires Files(db)
    ensures forall l :: l in db.blobs ==> db.blobs[l].key in db.files && db.blobs[l].key !in db.queued
  {
    forall l | l in db.blobs ensures db.blobs[l].key in db.files && db.blobs[l].key !in db.queued { assert BlobOk(db, l); }
  }

  // Items and the rows that name messages hold no bytes.
  lemma NamesKeep(s: Db, t: Db)
    requires Balanced(s) && t == s.(items := t.items, events := t.events, addressed := t.addressed)
    ensures Balanced(t)
  {
    LiveBlobs(s);
    SameMessagesKeep(s, t);
  }

  // Messages may go or change otherwise, as long as payers and attachments stay.
  lemma MessagesKeep(s: Db, t: Db)
    requires Balanced(s) && t == s.(messages := t.messages)
    requires forall a :: a in s.attachments ==> s.attachments[a].message in t.messages
    requires forall m :: m in t.messages ==>
                           m in s.messages && t.messages[m].sender == s.messages[m].sender
                           && t.messages[m].receiver == s.messages[m].receiver && (t.messages[m].draft ==> s.messages[m].draft)
    ensures Balanced(t)
  {
    forall m | m in t.messages ensures MessageOk(t, m) { assert MessageOk(s, m); }
    forall a | a in t.attachments ensures AttachmentOk(t, a) { assert AttachmentOk(s, a); }
    forall l | l in t.blobs ensures BlobOk(t, l) { assert BlobOk(s, l); }
    forall a, c ensures BlobsApart(t, a, c) { assert BlobsApart(s, a, c); }
    forall l, k ensures KeysApart(t, l, k) { assert KeysApart(s, l, k); }
    SameChargesKeep(s, t);
  }

  lemma DropKeeps(db: Db, m: int)
    requires Balanced(db) && AttachmentsOf(db, m) == {} && DropMessage(db, m).Some?
    ensures Balanced(DropMessage(db, m).value)
  {
    forall a | a in db.attachments ensures db.attachments[a].message in db.messages && db.attachments[a].message != m {
      assert AttachmentOk(db, a) && a !in AttachmentsOf(db, m);
    }
    MessagesKeep(db, DropMessage(db, m).value);
  }

  lemma {:induction false} PruneMessagesKeeps(db: Db, order: seq<int>)
    requires Balanced(db)
    ensures PruneMessages(db, order).Some? ==> Balanced(PruneMessages(db, order).value)
    decreases |order|
  {
    if order != [] {
      var rest, m := order[..|order| - 1], order[|order| - 1];
      PruneMessagesKeeps(db, rest);
      if PruneMessages(db, rest).Some? {
        var s := PruneMessages(db, rest).value;
        RemoveAllKeeps(s, m);
        if !HasItem(s, m) && RemoveAll(s, m).Some? && PruneMessage(s, m).Some? { DropKeeps(RemoveAll(s, m).value, m); }
      }
    }
  }

  // ---------- every step keeps it ----------

  lemma UploadKeeps(db: Db, b: int, m: int, p: Part, allowed: bool)
    requires Balanced(db)
    ensures Balanced(UploadStep(db, b, m, p, allowed).0)
  {
    var (t, outcome) := UploadStep(db, b, m, p, allowed);
    if outcome.Done? {
      var s := AddAttachment(db, m, p);
      var charged := Charge(s, b, p.size);
      AddKeeps(db, m, p);
      RechargedRows(s, b, p.size);
      forall c | c in charged.boxes ensures BoxOk(charged, c) {
        assert BoxOk(db, c);
        AddCharges(db, m, p, c);
        SameCharge(s, charged, c, s.nextAttachment);
      }
      NamesKeep(charged, t);
    }
  }

  lemma DetachKeeps(db: Db, b: int, m: int, a: int)
    requires Balanced(db)
    ensures Balanced(DetachStep(db, b, m, a).0)
  {
    if DetachStep(db, b, m, a).1.Done? {
      RemoveKeeps(db, a);
      NamesKeep(RemoveAttachment(db, a), DetachStep(db, b, m, a).0);
    }
  }

  lemma RechargedRows(db: Db, b: int, size: int)
    requires Rows(db) && Files(db) && b in db.boxes
    ensures Rows(Charge(db, b, size)) && Files(Charge(db, b, size))
  {
    var t := Charge(db, b, size);
    forall m | m in t.messages ensures MessageOk(t, m) { assert MessageOk(db, m); }
    forall a | a in t.attachments ensures AttachmentOk(t, a) { assert AttachmentOk(db, a); }
    forall l | l in t.blobs ensures BlobOk(t, l) { assert BlobOk(db, l); }
    forall a, c ensures BlobsApart(t, a, c) { assert BlobsApart(db, a, c); }
    forall l, k ensures KeysApart(t, l, k) { assert KeysApart(db, l, k); }
  }

  lemma NewMessageKeeps(db: Db, m: int, row: Message)
    requires Balanced(db) && m !in db.messages && Payer(row) in db.boxes && (row.sender.None? ==> !row.draft)
    ensures Balanced(db.(messages := db.messages[m := row]))
  {
    var t := db.(messages := db.messages[m := row]);
    forall c | c in t.messages ensures MessageOk(t, c) { if c in db.messages { assert MessageOk(db, c); } }
    forall a | a in t.attachments ensures AttachmentOk(t, a) && t.attachments[a].message in db.messages {
      assert AttachmentOk(db, a);
    }
    forall l | l in t.blobs ensures BlobOk(t, l) { assert BlobOk(db, l); }
    forall a, c ensures BlobsApart(t, a, c) { assert BlobsApart(db, a, c); }
    forall l, k ensures KeysApart(t, l, k) { assert KeysApart(db, l, k); }
    SameChargesKeep(db, t);
  }

  lemma {:induction false} AddPartsKeepsNames(db: Db, m: int, parts: seq<Part>)
    ensures var t := AddParts(db, m, parts);
            t.events == db.events && t.addressed == db.addressed && t.receipts == db.receipts
            && t.messages == db.messages && t.items == db.items
    decreases |parts|
  {
    if parts != [] { AddPartsKeepsNames(db, m, parts[..|parts| - 1]); }
  }

  lemma IngestKeeps(db: Db, op: Op)
    requires Balanced(db) && op.Ingest?
    ensures Balanced(Step(db, op))
  {
    var (t, outcome) := IngestStep(db, op.event, op.address, op.mailbox, op.digest, op.parts, op.message, op.item);
    if outcome.Done? {
      var b, m := op.mailbox.value, op.message;
      var delivered := db.(messages := db.messages[m := Message(None, b, false, None)]);
      var created := delivered.(items := db.items[op.item := Item(b, m, false, None)]);
      NewMessageKeeps(db, m, Message(None, b, false, None));
      NamesKeep(delivered, created);
      var s := t.(events := db.events);
      assert s == AddParts(Charge(created, b, TotalSize(op.parts)), m, op.parts).(receipts := t.receipts) by {
        AddPartsKeepsNames(Charge(created, b, TotalSize(op.parts)), m, op.parts);
      }
      IngestedBoxes(created, b, m, op.parts, s);
      NamesKeep(s, t);
    }
  }

  lemma IngestedBoxes(created: Db, b: int, m: int, parts: seq<Part>, t: Db)
    requires Balanced(created) && m in created.messages && Payer(created.messages[m]) == b && b in created.boxes
    requires AllFresh(created, parts) && created.boxes[b].used + TotalSize(parts) <= created.boxes[b].quota
    requires t == AddParts(Charge(created, b, TotalSize(parts)), m, parts).(receipts := t.receipts)
    ensures Balanced(t)
  {
    var charged := Charge(created, b, TotalSize(parts));
    RechargedRows(created, b, TotalSize(parts));
    var s := AddParts(charged, m, parts);
    AddPartsKeeps(charged, m, parts, b);
    forall c | c in t.messages ensures MessageOk(t, c) { assert MessageOk(s, c); }
    forall a | a in t.attachments ensures AttachmentOk(t, a) { assert AttachmentOk(s, a); }
    forall l | l in t.blobs ensures BlobOk(t, l) { assert BlobOk(s, l); }
    forall a, c ensures BlobsApart(t, a, c) { assert BlobsApart(s, a, c); }
    forall l, k ensures KeysApart(t, l, k) { assert KeysApart(s, l, k); }
    forall c | c in t.boxes ensures BoxOk(t, c) {
      assert BoxOk(created, c);
      AddPartsKeeps(charged, m, parts, c);
      SameCharge(created, charged, c, created.nextAttachment);
      SameCharge(s, t, c, s.nextAttachment);
    }
  }

  lemma CrashKeeps(db: Db, key: string)
    requires Balanced(db)
    ensures Balanced(AbandonFile(db, key))
  {
    if key !in db.issued {
      LiveBlobs(db);
      var files, issued := db.files + {key}, db.issued + {key};
      assert db.files <= files && db.gc.Keys <= db.queued <= issued;
      SameMessagesKeep(db, db.(files := files, issued := issued));
    }
  }

  lemma CollectKeeps(db: Db, key: string)
    requires Balanced(db)
    ensures Balanced(CollectFile(db, key))
  {
    LiveBlobs(db);
    var t := CollectFile(db, key);
    assert t == db.(files := t.files);
    assert forall k :: k in db.files && k !in db.queued ==> k in t.files;
    SameMessagesKeep(db, t);
  }

  lemma ForgetKeeps(db: Db, key: string)
    requires Balanced(db)
    ensures Balanced(ForgetKey(db, key))
  {
    LiveBlobs(db);
    var t := ForgetKey(db, key);
    assert t == db.(gc := t.gc) && t.gc.Keys <= db.gc.Keys;
    SameMessagesKeep(db, t);
  }

  lemma SendKeeps(db: Db, m: int)
    requires Balanced(db)
    ensures Balanced(SendStep(db, m))
  {
    if m in db.messages {
      var sent := db.(messages := db.messages[m := db.messages[m].(draft := false)]);
      SentMessageKeeps(db, m);
      if SendStep(db, m) != db { NamesKeep(sent, SendStep(db, m)); }
    }
  }

  lemma SentMessageKeeps(db: Db, m: int)
    requires Balanced(db) && m in db.messages
    ensures Balanced(db.(messages := db.messages[m := db.messages[m].(draft := false)]))
  {
    forall a | a in db.attachments ensures db.attachments[a].message in db.messages { assert AttachmentOk(db, a); }
    MessagesKeep(db, db.(messages := db.messages[m := db.messages[m].(draft := false)]));
  }

  lemma DraftKeeps(db: Db, b: int, m: int, i: int, parent: Option<int>, external: bool)
    requires Balanced(db)
    ensures Balanced(DraftStep(db, b, m, i, parent, external))
  {
    var t := DraftStep(db, b, m, i, parent, external);
    if t != db {
      NewMessageKeeps(db, m, Message(Some(b), b, true, parent));
      NamesKeep(db.(messages := db.messages[m := Message(Some(b), b, true, parent)]), t);
    }
  }

  lemma {:induction false} NobodyPays(db: Db, b: int, n: nat)
    requires Rows(db) && b !in db.boxes
    ensures Charged(db, b, n) == 0
  {
    if n > 0 {
      NobodyPays(db, b, n - 1);
      if n - 1 in db.attachments {
        assert AttachmentOk(db, n - 1);
        assert MessageOk(db, db.attachments[n - 1].message);
      }
    }
  }

  lemma OpenKeeps(db: Db, b: int, quota: int)
    requires Balanced(db)
    ensures Balanced(Step(db, OpenMailbox(b, quota)))
  {
    var t := Step(db, OpenMailbox(b, quota));
    if t != db {
      forall m | m in t.messages ensures MessageOk(t, m) { assert MessageOk(db, m); }
      forall a | a in t.attachments ensures AttachmentOk(t, a) { assert AttachmentOk(db, a); }
      forall l | l in t.blobs ensures BlobOk(t, l) { assert BlobOk(db, l); }
      forall a, c ensures BlobsApart(t, a, c) { assert BlobsApart(db, a, c); }
      forall l, k ensures KeysApart(t, l, k) { assert KeysApart(db, l, k); }
      forall c | c in t.boxes ensures BoxOk(t, c) {
        SameCharge(db, t, c, db.nextAttachment);
        if c in db.boxes { assert BoxOk(db, c); } else { NobodyPays(db, c, db.nextAttachment); }
      }
    }
  }

  lemma PruneKeeps(db: Db, now: int, doomed: set<int>, order: seq<int>)
    requires Balanced(db)
    ensures Balanced(PruneStep(db, now, doomed, order))
  {
    var s := db.(items := db.items - doomed);
    forall l | l in db.blobs ensures db.blobs[l].key in db.files { assert BlobOk(db, l); }
    SameMessagesKeep(db, s);
    PruneMessagesKeeps(s, order);
  }

  lemma StepKeepsBalance(db: Db, op: Op)
    requires Balanced(db)
    ensures Balanced(Step(db, op))
  {
    match op
    case OpenMailbox(b, quota) => OpenKeeps(db, b, quota);
    case CreateDraft(b, m, i, parent, external) => DraftKeeps(db, b, m, i, parent, external);
    case EditDraft(m, external) => NamesKeep(db, EditStep(db, m, external));
    case Upload(b, m, p, allowed) => UploadKeeps(db, b, m, p, allowed);
    case Detach(b, m, a) => DetachKeeps(db, b, m, a);
    case Ingest(_, _, _, _, _, _, _) => IngestKeeps(db, op);
    case PruneTrash(now, doomed, order) => PruneKeeps(db, now, doomed, order);
    case MarkSent(m) => SendKeeps(db, m);
    case PutItem(i, row) => NamesKeep(db, PutItemStep(db, i, row));
    case Crash(key) => CrashKeeps(db, key);
    case Collect(key) => CollectKeeps(db, key);
    case Forget(key) => ForgetKeeps(db, key);
  }
}
