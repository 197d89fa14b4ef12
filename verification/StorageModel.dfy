/** Attachment storage: mailboxes with quotas, messages, attachments, blobs, the blob queue and the blob files. */
module StorageModel {
  import opened Sets
  import opened Wrappers

  datatype Mailbox = Mailbox(quota: int, used: int, active: bool)

  // `receiver` is the mailbox an inbound message (no sender) was delivered to.
  datatype Message = Message(sender: Option<int>, receiver: int, draft: bool, parent: Option<int>)

  datatype Item = Item(mailbox: int, message: int, trash: bool, deletedAt: Option<int>)

  datatype Attachment = Attachment(message: int, blob: int)

  datatype Blob = Blob(key: string, size: nat)

  datatype Receipt = Receipt(digest: string, recipient: string, message: int)

  // `events` and `addressed` are the messages named by a row of the mail or gateway events, and of the external recipients
  // and outbound deliveries; `issued` and `queued` record every storage key ever drawn and every key ever given to the
  // blob queue.
  datatype Db = Db(
    boxes: map<int, Mailbox>, messages: map<int, Message>, items: map<int, Item>,
    attachments: map<int, Attachment>, blobs: map<int, Blob>, gc: map<string, nat>, files: set<string>,
    receipts: map<string, Receipt>, nextAttachment: nat, events: set<int>, addressed: set<int>,
    issued: set<string>, queued: set<string>)

  datatype Error = Invalid | Forbidden | NotFound | Conflict | RateLimited

  datatype Outcome = Done(id: int) | Duplicate(message: int) | Refused(error: Error)

  // A new blob: fresh identity and storage key, and the size of its data.
  datatype Part = Part(blob: int, key: string, size: nat)

  const MIN_QUOTA := 1048576
  const MAX_QUOTA := 10737418240
  const MAX_BYTES := 25 * 1024 * 1024
  const MAX_COUNT := 20
  const TRASH_RETENTION := 30 * 24 * 3600

  function Payer(m: Message): int {
    if m.sender.Some? then m.sender.value else m.receiver
  }

  function AttachmentsOf(db: Db, m: int): set<int> {
    set a | a in db.attachments && db.attachments[a].message == m
  }

  // ---------- mailboxes, drafts and items ----------

  function OpenStep(db: Db, b: int, quota: int): Db {
    if b in db.boxes || quota < MIN_QUOTA || quota > MAX_QUOTA then db else db.(boxes := db.boxes[b := Mailbox(quota, 0, true)])
  }

  predicate Holds(db: Db, b: int, m: int) {
    exists i :: i in db.items && db.items[i].message == m && db.items[i].mailbox == b
  }

  // An answer or a forward needs a sent message that the sender can see.
  predicate IsParent(db: Db, b: int, p: int) {
    p in db.messages && !db.messages[p].draft && Holds(db, b, p)
  }

  // CreateDraft: the message, its item and its event; `external` tells whether it has external recipients.
  function DraftStep(db: Db, b: int, m: int, item: int, parent: Option<int>, external: bool): Db {
    if b !in db.boxes || m in db.messages || item in db.items || (parent.Some? && !IsParent(db, b, parent.value)) then db
    else db.(messages := db.messages[m := Message(Some(b), b, true, parent)], items := db.items[item := Item(b, m, false, None)],
             events := db.events + {m}, addressed := if external then db.addressed + {m} else db.addressed)
  }

  // UpdateDraft replaces the recipients.
  function EditStep(db: Db, m: int, external: bool): Db {
    if m !in db.messages || !db.messages[m].draft then db
    else db.(events := db.events + {m}, addressed := if external then db.addressed + {m} else db.addressed - {m})
  }

  // SendDraft; the item of the draft and the items of the copies are steps of their own.
  function SendStep(db: Db, m: int): Db {
    if m !in db.messages || !db.messages[m].draft then db
    else db.(messages := db.messages[m := db.messages[m].(draft := false)], events := db.events + {m})
  }

  // Delivering, moving or restoring an item, with its event.
  function PutItemStep(db: Db, i: int, row: Item): Db {
    if row.message !in db.messages then db else db.(items := db.items[i := row], events := db.events + {row.message})
  }

  // ---------- adding ----------

  predicate IsFresh(db: Db, p: Part) {
    p.key !in db.issued && p.blob !in db.blobs
  }

  // The file is in place before the rows are.
  function AddAttachment(db: Db, m: int, p: Part): Db {
    db.(files := db.files + {p.key}, issued := db.issued + {p.key},
        blobs := db.blobs[p.blob := Blob(p.key, p.size)],
        attachments := db.attachments[db.nextAttachment := Attachment(m, p.blob)],
        nextAttachment := db.nextAttachment + 1)
  }

  function Charge(db: Db, b: int, size: int): Db
    requires b in db.boxes
  {
    db.(boxes := db.boxes[b := db.boxes[b].(used := db.boxes[b].used + size)])
  }

  // Upload; `allowed` is the verdict of the hourly byte bucket. A refused upload removes its file again.
  function UploadStep(db: Db, b: int, m: int, p: Part, allowed: bool): (Db, Outcome) {
    if p.size <= 0 || p.size > MAX_BYTES then (db, Refused(Invalid))
    else if b !in db.boxes then (db, Refused(NotFound))
    else if !db.boxes[b].active then (db, Refused(Forbidden))
    else if db.boxes[b].used + p.size > db.boxes[b].quota then (db, Refused(RateLimited))
    else if !(m in db.messages && db.messages[m].sender == Some(b) && db.messages[m].draft) then (db, Refused(Forbidden))
    else if |AttachmentsOf(db, m)| >= MAX_COUNT then (db, Refused(RateLimited))
    else if !allowed then (db, Refused(RateLimited))
    else if !IsFresh(db, p) then (db, Refused(Conflict))
    else (Charge(AddAttachment(db, m, p), b, p.size).(events := db.events + {m}), Done(db.nextAttachment))
  }

  function TotalSize(parts: seq<Part>): nat
    decreases |parts|
  {
    if parts == [] then 0 else TotalSize(parts[..|parts| - 1]) + parts[|parts| - 1].size
  }

  function AddParts(db: Db, m: int, parts: seq<Part>): Db
    decreases |parts|
  {
    if parts == [] then db else AddAttachment(AddParts(db, m, parts[..|parts| - 1]), m, parts[|parts| - 1])
  }

  predicate AllFresh(db: Db, parts: seq<Part>) {
    && (forall i :: 0 <= i < |parts| ==> IsFresh(db, parts[i]))
    && (forall i, j :: 0 <= i < j < |parts| ==> parts[i].key != parts[j].key && parts[i].blob != parts[j].blob)
  }

  predicate IsEventId(event: string) {
    16 <= |event| <= 160 && '\r' !in event && '\n' !in event && '\0' !in event
  }

  // Ingest of a parsed message for the resolved mailbox; `m` and `item` are the next identities of a message and of the
  // item that delivers it to the inbox.
  function IngestStep(db: Db, event: string, address: string, mailbox: Option<int>, digest: string,
                      parts: seq<Part>, m: int, item: int): (Db, Outcome) {
    if !IsEventId(event) then (db, Refused(Invalid))
    else if mailbox.None? then (db, Refused(NotFound))
    else if event in db.receipts then
      var r := db.receipts[event];
      if r.digest != digest || r.recipient != address then (db, Refused(Conflict)) else (db, Duplicate(r.message))
    else
      var b := mailbox.value;
      if b !in db.boxes then (db, Refused(NotFound))
      else if !db.boxes[b].active then (db, Refused(Forbidden))
      else if db.boxes[b].used + TotalSize(parts) > db.boxes[b].quota then (db, Refused(RateLimited))
      else if m in db.messages || item in db.items || !AllFresh(db, parts) then (db, Refused(Conflict))
      else
        var created := db.(messages := db.messages[m := Message(None, b, false, None)],
                           items := db.items[item := Item(b, m, false, None)]);
        var t := AddParts(Charge(created, b, TotalSize(parts)), m, parts);
        (t.(receipts := t.receipts[event := Receipt(digest, address, m)], events := t.events + {m}), Done(m))
  }

  // A crash after the file was written and before its rows were committed.
  function AbandonFile(db: Db, key: string): Db {
    if key in db.issued then db else db.(files := db.files + {key}, issued := db.issued + {key})
  }

  // ---------- removing ----------

  predicate CanRemove(db: Db, a: int) {
    && a in db.attachments && db.attachments[a].blob in db.blobs && db.attachments[a].message in db.messages
    && db.messages[db.attachments[a].message].sender.Some?
    && db.messages[db.attachments[a].message].sender.value in db.boxes
  }

  // GREATEST(0, used - size).
  function Discharged(used: int, size: int): int {
    if used - size < 0 then 0 else used - size
  }

  // The blob goes to the queue, its rows go, the sender is credited.
  function RemoveAttachment(db: Db, a: int): Db
    requires CanRemove(db, a)
  {
    var blob := db.blobs[db.attachments[a].blob];
    var owner := db.messages[db.attachments[a].message].sender.value;
    db.(attachments := db.attachments - {a}, blobs := db.blobs - {db.attachments[a].blob},
        gc := if blob.key in db.gc then db.gc else db.gc[blob.key := blob.size],
        queued := db.queued + {blob.key},
        boxes := db.boxes[owner := db.boxes[owner].(used := Discharged(db.boxes[owner].used, blob.size))])
  }

  function DetachStep(db: Db, b: int, m: int, a: int): (Db, Outcome) {
    if !(a in db.attachments && db.attachments[a].message == m && m in db.messages && db.messages[m].sender == Some(b)
         && db.messages[m].draft && CanRemove(db, a))
    then (db, Refused(NotFound))
    else (RemoveAttachment(db, a).(events := db.events + {m}), Done(a))
  }

  // ---------- pruning the trash ----------

  predicate IsDoomed(db: Db, i: int, now: int) {
    i in db.items && db.items[i].trash && db.items[i].deletedAt.Some?
    && db.items[i].deletedAt.value < now - TRASH_RETENTION
  }

  predicate HasItem(db: Db, m: int) {
    exists i :: i in db.items && db.items[i].message == m
  }

  // All attachments of a message; an inbound message's missing sender cannot be read and fails the transaction.
  function RemoveAll(db: Db, m: int): Option<Db>
    decreases |AttachmentsOf(db, m)|
  {
    if AttachmentsOf(db, m) == {} then Some(db)
    else
      var a := Least(AttachmentsOf(db, m));
      if !CanRemove(db, a) then None
      else
        assert AttachmentsOf(RemoveAttachment(db, a), m) == AttachmentsOf(db, m) - {a};
        RemoveAll(RemoveAttachment(db, a), m)
  }

  predicate HasAnswer(db: Db, m: int) {
    exists c :: c in db.messages && db.messages[c].parent == Some(m)
  }

  // A row that refers to the message and that PruneTrash does not delete.
  predicate Named(db: Db, m: int) {
    m in db.events || m in db.addressed || exists e :: e in db.receipts && db.receipts[e].message == m
  }

  // A message that was answered stays; the deletion of another is refused while a row names it.
  function DropMessage(db: Db, m: int): Option<Db> {
    if HasAnswer(db, m) then Some(db)
    else if m in db.messages && Named(db, m) then None
    else Some(db.(messages := db.messages - {m}))
  }

  function PruneMessage(db: Db, m: int): Option<Db> {
    if HasItem(db, m) then Some(db)
    else match RemoveAll(db, m) case None => None case Some(t) => DropMessage(t, m)
  }

  function PruneMessages(db: Db, order: seq<int>): Option<Db>
    decreases |order|
  {
    if order == [] then Some(db)
    else match PruneMessages(db, order[..|order| - 1])
         case None => None
         case Some(t) => PruneMessage(t, order[|order| - 1])
  }

  function MessagesOf(db: Db, items: set<int>): set<int> {
    set i | i in items && i in db.items :: db.items[i].message
  }

  // The order of the query: by the time of deletion, then by identity.
  predicate Before(items: map<int, Item>, i: int, j: int)
    requires i in items && j in items && items[i].deletedAt.Some? && items[j].deletedAt.Some?
  {
    var ti, tj := items[i].deletedAt.value, items[j].deletedAt.value;
    ti < tj || (ti == tj && i < j)
  }

  function PruneLimit(limit: int): nat {
    if limit <= 0 then 200 else if limit > 1000 then 1000 else limit
  }

  // The expired items that no other transaction holds.
  function Expired(items: map<int, Item>, now: int, locked: set<int>): set<int> {
    set i | i in items && items[i].trash && items[i].deletedAt.Some? && items[i].deletedAt.value < now - TRASH_RETENTION
            && i !in locked
  }

  // The oldest of them, up to the limit.
  predicate Picks(items: map<int, Item>, now: int, limit: int, locked: set<int>, doomed: set<int>) {
    var expired := Expired(items, now, locked);
    && doomed <= expired
    && |doomed| == (if |expired| < PruneLimit(limit) then |expired| else PruneLimit(limit))
    && forall i, j :: i in doomed && j in expired && j !in doomed ==> Before(items, i, j)
  }

  predicate IsFirst(items: map<int, Item>, among: set<int>, i: int)
    requires forall j :: j in among ==> j in items && items[j].deletedAt.Some?
  {
    i in among && forall j :: j in among && j != i ==> Before(items, i, j)
  }

  lemma FirstExists(items: map<int, Item>, among: set<int>)
    requires among != {} && forall j :: j in among ==> j in items && items[j].deletedAt.Some?
    ensures exists i :: IsFirst(items, among, i)
    decreases |among|
  {
    var i := Least(among);
    var rest := among - {i};
    assert among == rest + {i};
    if rest == {} {
      assert IsFirst(items, among, i);
    } else {
      FirstExists(items, rest);
      var j :| IsFirst(items, rest, j);
      assert IsFirst(items, among, if Before(items, i, j) then i else j);
    }
  }

  lemma SplitSize(a: set<int>, b: set<int>)
    requires a !! b
    ensures |a + b| == |a| + |b|
  {
  }

  predicate Distinct(order: seq<int>) {
    forall i, j :: 0 <= i < j < |order| ==> order[i] != order[j]
  }

  // PruneTrash on the doomed items it picked; `order` is how the map of their messages is traversed.
  function PruneStep(db: Db, now: int, doomed: set<int>, order: seq<int>): Db {
    if (exists i :: i in doomed && !IsDoomed(db, i, now)) || (set m | m in order) != MessagesOf(db, doomed) || !Distinct(order)
    then db
    else match PruneMessages(db.(items := db.items - doomed), order)
         case None => db
         case Some(t) => t
  }

  // ---------- collecting blob files ----------

  // RunBlobGC removes the file of a key it read from the queue, possibly a while ago, and then the queue row.
  function CollectFile(db: Db, key: string): Db {
    if key in db.queued then db.(files := db.files - {key}) else db
  }

  function ForgetKey(db: Db, key: string): Db {
    if key in db.files then db else db.(gc := db.gc - {key})
  }
}
