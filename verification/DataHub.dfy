/** Directory pages with an append-only version history: rebuilding, suppressing, reopening and rolling back. */
module DataHub {
  import opened Wrappers

  // The page identities, with their normalised segments.
  datatype PageKey = City(city: string) | Category(category: string) | CityCategory(city: string, category: string)
    | Organization(slug: string) | Website(slug: string)

  function CanonicalPath(k: PageKey): string {
    match k
    case City(city) => "/data/city/" + city
    case Category(category) => "/data/category/" + category
    case CityCategory(city, category) => "/data/city/" + city + "/" + category
    case Organization(slug) => "/data/organization/" + slug
    case Website(slug) => "/data/website/" + slug
  }

  // What is hashed and stored as JSON; `body` stands for the remaining fields.
  datatype Snapshot = Snapshot(path: string, publish: bool, title: string, meta: string, body: string)

  // Hashing is injective.
  datatype Hash = Hash(of: Snapshot)

  datatype PageState = Draft | Published | Suppressed

  datatype Page = Page(path: string, state: PageState, manual: bool, version: int, hash: Hash, title: string, meta: string)

  datatype VersionKey = VersionKey(page: PageKey, version: int)

  datatype Version = Version(hash: Hash, snapshot: Snapshot)

  datatype Action = Build | Publish | Unpublish | Suppress | Rollback

  datatype Event = Event(page: PageKey, action: Action, fromVersion: Option<int>, toVersion: int)

  // `guarded` tells whether the trigger of migration 000033 is installed.
  datatype Db = Db(guarded: bool, pages: map<PageKey, Page>, versions: map<VersionKey, Version>, events: seq<Event>)

  // UPDATE datahub_pages with the trigger: a page suppressed by hand before and after stays SUPPRESSED.
  function Update(db: Db, k: PageKey, page: Page): Db
    requires k in db.pages
  {
    db.(pages := db.pages[k := if db.guarded && db.pages[k].manual && page.manual then page.(state := Suppressed) else page])
  }

  function Gated(s: Snapshot): PageState {
    if s.publish then Published else Draft
  }

  // ---------- rebuilding ----------

  function NewState(before: PageState, s: Snapshot): PageState {
    if s.publish then Published else if before == Published || before == Suppressed then Suppressed else Draft
  }

  function BuildAction(before: PageState, after: PageState): Action {
    if after == Published && before != Published then Publish
    else if before == Published && after != Published then Unpublish
    else Build
  }

  // applyAggregate and applyEntitySnapshot; the flag tells whether a version was added.
  function RebuildStep(db: Db, k: PageKey, s: Snapshot): (Db, bool) {
    if s.path != CanonicalPath(k) then (db, false)
    else if k !in db.pages then
      (Db(db.guarded, db.pages[k := Page(s.path, Gated(s), false, 1, Hash(s), s.title, s.meta)],
          db.versions[VersionKey(k, 1) := Version(Hash(s), s)],
          db.events + [Event(k, if s.publish then Publish else Build, None, 1)]), true)
    else
      var page := db.pages[k];
      var state := NewState(page.state, s);
      if page.hash == Hash(s) && page.state == state then (db, false)
      else
        var next := page.version + 1;
        var t := Update(db, k, page.(state := state, version := next, hash := Hash(s), title := s.title, meta := s.meta));
        (t.(versions := db.versions[VersionKey(k, next) := Version(Hash(s), s)],
            events := db.events + [Event(k, BuildAction(page.state, state), Some(page.version), next)]), true)
  }

  // ---------- operator actions ----------

  predicate IsReason(reason: string) {
    2 <= |reason| <= 160
  }

  function SuppressStep(db: Db, k: PageKey, reason: string): Db {
    if k !in db.pages || !IsReason(reason) then db
    else
      var page := db.pages[k];
      Update(db, k, page.(manual := true, state := Suppressed))
        .(events := db.events + [Event(k, Suppress, Some(page.version), page.version)])
  }

  function ReopenStep(db: Db, k: PageKey, reason: string): Db {
    if k !in db.pages || !IsReason(reason) || VersionKey(k, db.pages[k].version) !in db.versions then db
    else
      var page := db.pages[k];
      var state := Gated(db.versions[VersionKey(k, page.version)].snapshot);
      Update(db, k, page.(manual := false, state := state))
        .(events := db.events + [Event(k, if state == Published then Publish else Build, Some(page.version), page.version)])
  }

  // max(version) of the page's history.
  predicate IsHighest(db: Db, k: PageKey, v: int) {
    VersionKey(k, v) in db.versions && forall w :: w in db.versions && w.page == k ==> w.version <= v
  }

  function RollbackStep(db: Db, k: PageKey, target: int, highest: int, reason: string): (Db, bool) {
    if k !in db.pages || target <= 0 || !IsReason(reason) || VersionKey(k, target) !in db.versions then (db, false)
    else
      var page, version := db.pages[k], db.versions[VersionKey(k, target)];
      var s := version.snapshot;
      if s.path != "" && s.path != page.path then (db, false)
      else
        var next := highest + 1;
        var t := Update(db, k, page.(version := next, state := Gated(s), manual := false, hash := version.hash,
                                     title := s.title, meta := s.meta));
        (t.(versions := db.versions[VersionKey(k, next) := version],
            events := db.events + [Event(k, Rollback, Some(page.version), next)]), true)
  }

  // ---------- every mix of them ----------

  datatype Op =
    | Rebuild(page: PageKey, snapshot: Snapshot)
    | SuppressPage(page: PageKey, reason: string)
    | ReopenPage(page: PageKey, reason: string)
    | RollbackPage(page: PageKey, target: int, highest: int, reason: string)

  // The rollback reads the highest version of the page.
  predicate Enabled(db: Db, op: Op) {
    op.RollbackPage? ==> IsHighest(db, op.page, op.highest)
  }

  function Step(db: Db, op: Op): Db {
    match op
    case Rebuild(k, s) => RebuildStep(db, k, s).0
    case SuppressPage(k, reason) => SuppressStep(db, k, reason)
    case ReopenPage(k, reason) => ReopenStep(db, k, reason)
    case RollbackPage(k, target, highest, reason) => RollbackStep(db, k, target, highest, reason).0
  }

  ghost predicate ValidRun(db: Db, ops: seq<Op>)
    decreases |ops|, 0
  {
    ops == [] || (ValidRun(db, ops[..|ops| - 1]) && Enabled(Run(db, ops[..|ops| - 1]), ops[|ops| - 1]))
  }

  ghost function Run(db: Db, ops: seq<Op>): Db
    requires ValidRun(db, ops)
    decreases |ops|, 1
  {
    if ops == [] then db else Step(Run(db, ops[..|ops| - 1]), ops[|ops| - 1])
  }

  function Empty(guarded: bool): Db {
    Db(guarded, map[], map[], [])
  }

  // ---------- the history ----------

  // The versions of a page are 1 to its version, and it shows the last one.
  ghost predicate PageOk(db: Db, k: PageKey) {
    && k in db.pages && var page := db.pages[k];
    && page.version >= 1 && page.path == CanonicalPath(k)
    && (forall v :: VersionKey(k, v) in db.versions <==> 1 <= v <= page.version)
    && var current := db.versions[VersionKey(k, page.version)];
    && page.hash == current.hash && page.title == current.snapshot.title && page.meta == current.snapshot.meta
    && (db.guarded && page.manual ==> page.state == Suppressed)
  }

  ghost predicate VersionOk(db: Db, r: VersionKey) {
    r in db.versions && r.page in db.pages && db.versions[r].hash == Hash(db.versions[r].snapshot)
    && db.versions[r].snapshot.path == CanonicalPath(r.page)
  }

  ghost predicate Sound(db: Db) {
    && (forall k {:trigger PageOk(db, k)} :: k in db.pages ==> PageOk(db, k))
    && (forall r {:trigger VersionOk(db, r)} :: r in db.versions ==> VersionOk(db, r))
  }

  // History only grows.
  ghost predicate Extends(db: Db, t: Db) {
    forall r :: r in db.versions ==> r in t.versions && t.versions[r] == db.versions[r]
  }

  lemma HighestIsCurrent(db: Db, k: PageKey, highest: int)
    requires Sound(db) && k in db.pages && IsHighest(db, k, highest)
    ensures highest == db.pages[k].version
  {
    assert PageOk(db, k);
    assert VersionKey(k, db.pages[k].version) in db.versions;
  }

  ghost predicate Keeps(db: Db, t: Db) {
    Sound(t) && Extends(db, t) && t.guarded == db.guarded
  }

  // One page changes, and at most one version is added above its history.
  lemma OnePageKeeps(db: Db, t: Db, k: PageKey)
    requires Sound(db) && t.guarded == db.guarded && db.pages.Keys <= t.pages.Keys
    requires forall l :: l in t.pages && l != k ==> l in db.pages && t.pages[l] == db.pages[l]
    requires Extends(db, t) && forall r :: r in t.versions && r !in db.versions ==> r.page == k
    requires k in t.pages ==> PageOk(t, k)
    requires forall r :: r in t.versions && r !in db.versions ==> VersionOk(t, r)
    ensures Keeps(db, t)
  {
    forall r | r in t.versions ensures VersionOk(t, r) {
      if r in db.versions { assert VersionOk(db, r); }
    }
    forall l | l in t.pages ensures PageOk(t, l) {
      if l != k { assert PageOk(db, l); }
    }
  }

  lemma RebuildKeeps(db: Db, k: PageKey, s: Snapshot)
    requires Sound(db)
    ensures Keeps(db, RebuildStep(db, k, s).0)
  {
    if k in db.pages {
      assert PageOk(db, k);
    } else {
      forall r | r in db.versions ensures r.page != k { assert VersionOk(db, r); }
    }
    OnePageKeeps(db, RebuildStep(db, k, s).0, k);
  }

  lemma OperatorKeeps(db: Db, k: PageKey, reason: string)
    requires Sound(db)
    ensures Keeps(db, SuppressStep(db, k, reason)) && Keeps(db, ReopenStep(db, k, reason))
  {
    if k in db.pages { assert PageOk(db, k); }
    OnePageKeeps(db, SuppressStep(db, k, reason), k);
    OnePageKeeps(db, ReopenStep(db, k, reason), k);
  }

  lemma RollbackKeeps(db: Db, k: PageKey, target: int, highest: int, reason: string)
    requires Sound(db) && IsHighest(db, k, highest)
    ensures Keeps(db, RollbackStep(db, k, target, highest, reason).0)
  {
    if k in db.pages {
      assert PageOk(db, k);
      HighestIsCurrent(db, k, highest);
      if VersionKey(k, target) in db.versions { assert VersionOk(db, VersionKey(k, target)); }
    }
    OnePageKeeps(db, RollbackStep(db, k, target, highest, reason).0, k);
  }

  lemma StepKeepsSound(db: Db, op: Op)
    requires Sound(db) && Enabled(db, op)
    ensures Keeps(db, Step(db, op))
  {
    match op
    case Rebuild(k, s) => RebuildKeeps(db, k, s);
    case SuppressPage(k, reason) => OperatorKeeps(db, k, reason);
    case ReopenPage(k, reason) => OperatorKeeps(db, k, reason);
    case RollbackPage(k, target, highest, reason) => RollbackKeeps(db, k, target, highest, reason);
  }

  /** Over any mix of operations a page's versions are exactly 1 to its version, and it shows the last of them. */
  lemma {:induction false} HistoryIsComplete(guarded: bool, ops: seq<Op>)
    requires ValidRun(Empty(guarded), ops)
    ensures Sound(Run(Empty(guarded), ops)) && Run(Empty(guarded), ops).guarded == guarded
    ensures ops != [] ==> Extends(Run(Empty(guarded), ops[..|ops| - 1]), Run(Empty(guarded), ops))
    decreases |ops|
  {
    if ops != [] {
      HistoryIsComplete(guarded, ops[..|ops| - 1]);
      StepKeepsSound(Run(Empty(guarded), ops[..|ops| - 1]), ops[|ops| - 1]);
    }
  }

  /** A version once written never changes. */
  lemma {:induction false} OldVersionsStay(guarded: bool, ops: seq<Op>, more: seq<Op>)
    requires ValidRun(Empty(guarded), ops) && ValidRun(Empty(guarded), ops + more)
    ensures Extends(Run(Empty(guarded), ops), Run(Empty(guarded), ops + more))
    decreases |more|
  {
    if more == [] {
      assert ops + more == ops;
    } else {
      var all := ops + more;
      assert all[..|all| - 1] == ops + more[..|more| - 1];
      OldVersionsStay(guarded, ops, more[..|more| - 1]);
      HistoryIsComplete(guarded, all);
    }
  }

  /** The join of a page with its current version never misses, and finds the hash the page carries. */
  lemma CurrentVersionIsThere(guarded: bool, ops: seq<Op>, k: PageKey)
    requires ValidRun(Empty(guarded), ops) && k in Run(Empty(guarded), ops).pages
    ensures var db := Run(Empty(guarded), ops); var r := VersionKey(k, db.pages[k].version);
            r in db.versions && db.versions[r].hash == db.pages[k].hash
  {
    HistoryIsComplete(guarded, ops);
    assert PageOk(Run(Empty(guarded), ops), k);
  }

  /** Rolling back to any version of a page is accepted, adds one version that repeats it, and lifts a suppression. */
  lemma RollbackRepeatsTarget(guarded: bool, ops: seq<Op>, k: PageKey, target: int, highest: int, reason: string)
    requires ValidRun(Empty(guarded), ops) && IsReason(reason)
    requires var db := Run(Empty(guarded), ops);
             k in db.pages && IsHighest(db, k, highest) && 1 <= target <= db.pages[k].version
    ensures var db := Run(Empty(guarded), ops);
            var (t, done) := RollbackStep(db, k, target, highest, reason);
            && done && VersionKey(k, target) in db.versions && t.pages[k].version == db.pages[k].version + 1
            && VersionKey(k, t.pages[k].version) in t.versions
            && t.versions[VersionKey(k, t.pages[k].version)] == db.versions[VersionKey(k, target)]
            && t.pages[k].hash == db.versions[VersionKey(k, target)].hash
            && t.pages[k].state == Gated(db.versions[VersionKey(k, target)].snapshot) && !t.pages[k].manual
  {
    var db := Run(Empty(guarded), ops);
    HistoryIsComplete(guarded, ops);
    assert PageOk(db, k);
    HighestIsCurrent(db, k, highest);
    assert VersionOk(db, VersionKey(k, target));
  }

  /** Rebuilding twice from the same facts adds no second version, unless the trigger holds a publishable page down:
      then every rebuild adds one. */
  lemma RebuildIsIdempotentIff(guarded: bool, ops: seq<Op>, k: PageKey, s: Snapshot)
    requires ValidRun(Empty(guarded), ops) && s.path == CanonicalPath(k)
    ensures var t := RebuildStep(Run(Empty(guarded), ops), k, s).0;
            && k in t.pages
            && (if guarded && t.pages[k].manual && s.publish
                then RebuildStep(t, k, s).1 && k in RebuildStep(t, k, s).0.pages
                     && RebuildStep(t, k, s).0.pages[k].version == t.pages[k].version + 1
                else RebuildStep(t, k, s) == (t, false))
  {
    var db := Run(Empty(guarded), ops);
    HistoryIsComplete(guarded, ops);
    if k in db.pages { assert PageOk(db, k); }
  }

  // ---------- suppression by hand ----------

  // Neither reopened nor rolled back.
  predicate Leaves(op: Op, k: PageKey) {
    (op.ReopenPage? || op.RollbackPage?) ==> op.page != k
  }

  predicate Rebuilds(op: Op, k: PageKey) {
    op.Rebuild? && op.page == k && op.snapshot.path == CanonicalPath(k)
  }

  // The last rebuild or suppression of the page was a rebuild of a publishable snapshot.
  predicate LastPublishes(ops: seq<Op>, k: PageKey)
    decreases |ops|
  {
    ops != [] && var op := ops[|ops| - 1];
    if Rebuilds(op, k) then op.snapshot.publish
    else !(op.SuppressPage? && op.page == k && IsReason(op.reason)) && LastPublishes(ops[..|ops| - 1], k)
  }

  ghost predicate IsManual(db: Db, k: PageKey, state: PageState) {
    k in db.pages && db.pages[k].manual && db.pages[k].state == state
  }

  lemma ManualStep(db: Db, op: Op, k: PageKey, state: PageState)
    requires Enabled(db, op) && Leaves(op, k) && IsManual(db, k, state)
    requires state == Suppressed || (state == Published && !db.guarded)
    ensures IsManual(Step(db, op), k,
                     if Rebuilds(op, k) then (if op.snapshot.publish && !db.guarded then Published else Suppressed)
                     else if op.SuppressPage? && op.page == k && IsReason(op.reason) then Suppressed else state)
    ensures Step(db, op).guarded == db.guarded
  {
  }

  /** A page suppressed by hand, until it is reopened or rolled back: with the trigger it stays down through every run,
      and without it, it is up if and only if the last word was a rebuild of a publishable snapshot. */
  lemma {:induction false} SuppressionHoldsIff(db: Db, ops: seq<Op>, k: PageKey)
    requires ValidRun(db, ops) && IsManual(db, k, Suppressed) && forall i :: 0 <= i < |ops| ==> Leaves(ops[i], k)
    ensures Run(db, ops).guarded == db.guarded
    ensures IsManual(Run(db, ops), k, if db.guarded || !LastPublishes(ops, k) then Suppressed else Published)
    decreases |ops|
  {
    if ops != [] {
      var rest := ops[..|ops| - 1];
      SuppressionHoldsIff(db, rest, k);
      assert Leaves(ops[|ops| - 1], k);
      ManualStep(Run(db, rest), ops[|ops| - 1], k, if db.guarded || !LastPublishes(rest, k) then Suppressed else Published);
    }
  }

  // ---------- the operations as they run ----------

  class Repository {
    const guarded: bool
    var pages: map<PageKey, Page>
    var versions: map<VersionKey, Version>
    var events: seq<Event>

    ghost function View(): Db
      reads this
    {
      Db(guarded, pages, versions, events)
    }

    constructor (guarded: bool)
      ensures View() == Empty(guarded)
    {
      this.guarded := guarded;
      pages, versions, events := map[], map[], [];
    }

    // The trigger on every update of a page.
    method Write(k: PageKey, page: Page)
      requires k in pages
      modifies this`pages
      ensures View() == Update(old(View()), k, page)
    {
      var row := page;
      if guarded && pages[k].manual && page.manual { row := page.(state := Suppressed); }
      pages := pages[k := row];
    }

    method ApplySnapshot(k: PageKey, s: Snapshot) returns (changed: bool)
      modifies this
      ensures (View(), changed) == RebuildStep(old(View()), k, s)
    {
      if s.path != CanonicalPath(k) { return false; }
      if k !in pages {
        pages := pages[k := Page(s.path, Gated(s), false, 1, Hash(s), s.title, s.meta)];
        versions := versions[VersionKey(k, 1) := Version(Hash(s), s)];
        events := events + [Event(k, if s.publish then Publish else Build, None, 1)];
        return true;
      }
      var page := pages[k];
      var state := Draft;
      if s.publish { state := Published; } else if page.state == Published || page.state == Suppressed { state := Suppressed; }
      if page.hash == Hash(s) && page.state == state { return false; }
      var next := page.version + 1;
      Write(k, page.(state := state, version := next, hash := Hash(s), title := s.title, meta := s.meta));
      versions := versions[VersionKey(k, next) := Version(Hash(s), s)];
      var action := Build;
      if state == Published && page.state != Published { action := Publish; }
      else if page.state == Published && state != Published { action := Unpublish; }
      events := events + [Event(k, action, Some(page.version), next)];
      changed := true;
    }

    method SuppressPage(k: PageKey, reason: string) returns (ok: bool)
      modifies this
      ensures View() == SuppressStep(old(View()), k, reason) && ok == (k in old(pages) && IsReason(reason))
    {
      ok := k in pages && IsReason(reason);
      if ok {
        var version := pages[k].version;
        Write(k, pages[k].(manual := true, state := Suppressed));
        events := events + [Event(k, Suppress, Some(version), version)];
      }
    }

    method ReopenPage(k: PageKey, reason: string) returns (ok: bool)
      modifies this
      ensures View() == ReopenStep(old(View()), k, reason)
    {
      if k !in pages || !IsReason(reason) || VersionKey(k, pages[k].version) !in versions { return false; }
      var page := pages[k];
      var state := if versions[VersionKey(k, page.version)].snapshot.publish then Published else Draft;
      Write(k, page.(manual := false, state := state));
      events := events + [Event(k, if state == Published then Publish else Build, Some(page.version), page.version)];
      ok := true;
    }

    // max(version) over the page's history.
    method MaxVersion(k: PageKey) returns (highest: int)
      requires Sound(View()) && k in pages
      ensures highest == pages[k].version
    {
      assert PageOk(View(), k);
      var history := set r | r in versions && r.page == k :: r.version;
      assert VersionKey(k, pages[k].version) in versions;
      assert pages[k].version in history && forall v :: v in history ==> v <= pages[k].version;
      highest :| highest in history && forall v :: v in history ==> v <= highest;
    }

    method RollbackPage(k: PageKey, target: int, reason: string) returns (ok: bool)
      requires Sound(View())
      modifies this
      ensures k !in old(pages) ==> !ok && View() == old(View())
      ensures k in old(pages) ==>
                (View(), ok) == RollbackStep(old(View()), k, target, old(pages)[k].version, reason)
    {
      if k !in pages || target <= 0 || !IsReason(reason) || VersionKey(k, target) !in versions { return false; }
      var page, version := pages[k], versions[VersionKey(k, target)];
      var s := version.snapshot;
      if s.path != "" && s.path != page.path { return false; }
      var highest := MaxVersion(k);
      var next := highest + 1;
      Write(k, page.(version := next, state := Gated(s), manual := false, hash := version.hash,
                     title := s.title, meta := s.meta));
      versions := versions[VersionKey(k, next) := version];
      events := events + [Event(k, Rollback, Some(page.version), next)];
      ok := true;
    }
  }
}
