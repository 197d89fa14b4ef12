/** Staged GAR objects of one import batch and the canonical addresses grown from them. */
module AddressModel {
  import opened Wrappers

  datatype Key = Key(region: int, objectId: int)

  datatype Kind = AddrObj | House

  // NULL text is the empty string: staging stores no empty text.
  datatype Object = Object(kind: Kind, name: string, typeName: string, houseNum: string,
                           actual: Option<bool>, active: Option<bool>)

  // What resolving never changes: one row per object and at most one hierarchy row, which may lack a parent.
  datatype Tree = Tree(objects: map<Key, Object>, parents: map<Key, Option<int>>)

  datatype State = Valid | Ignored | Applied | Orphan

  datatype Address = Address(version: nat, parent: Option<Key>, display: string, full: string)

  datatype Upsert = Upsert(address: Key, version: nat)

  datatype Batch = Batch(tree: Tree, states: map<Key, State>, addresses: map<Key, Address>, outbox: set<Upsert>)

  const PAGE := 5000
  const PASSES := 128

  predicate Current(o: Object) {
    o.actual != Some(false) && o.active != Some(false)
  }

  function Parent(t: Tree, k: Key): Option<Key> {
    if k in t.parents && t.parents[k].Some? then Some(Key(k.region, t.parents[k].value)) else None
  }

  // ---------- names ----------

  // btrim: outer spaces only.
  function TrimStart(s: string): string {
    if s != [] && s[0] == ' ' then TrimStart(s[1..]) else s
  }

  function TrimEnd(s: string): string {
    if s != [] && s[|s| - 1] == ' ' then TrimEnd(s[..|s| - 1]) else s
  }

  function Trim(s: string): string {
    TrimEnd(TrimStart(s))
  }

  // concat_ws on two texts, skipping the missing ones.
  function ConcatWs(separator: string, a: string, b: string): string {
    if a == "" then b else if b == "" then a else a + separator + b
  }

  function Display(o: Object): string {
    match o.kind
    case House => Trim(ConcatWs(" ", "д.", o.houseNum))
    case AddrObj => Trim(ConcatWs(" ", o.typeName, o.name))
  }

  // An empty parent address counts as missing; the display is never NULL, so it is never skipped.
  function FullAddress(parentFull: string, o: Object): string {
    Trim(if parentFull == "" then Display(o) else parentFull + ", " + Display(o))
  }

  // ---------- one pass ----------

  predicate IsCandidate(b: Batch, k: Key) {
    && k in b.tree.objects && k in b.states && b.states[k] == Valid
    && (Parent(b.tree, k).None? || Parent(b.tree, k).value in b.addresses)
  }

  function Candidates(b: Batch): set<Key> {
    set k | k in b.tree.objects && IsCandidate(b, k)
  }

  function NewAddress(b: Batch, k: Key): Address
    requires IsCandidate(b, k)
  {
    var parent := Parent(b.tree, k);
    var o := b.tree.objects[k];
    Address(if k in b.addresses then b.addresses[k].version + 1 else 1, parent, Display(o),
            FullAddress(if parent.Some? then b.addresses[parent.value].full else "", o))
  }

  // A page of candidates: all of them, or PAGE of them.
  predicate IsPage(b: Batch, page: set<Key>) {
    page <= Candidates(b) && |page| == if |Candidates(b)| < PAGE then |Candidates(b)| else PAGE
  }

  function ApplyPage(b: Batch, page: set<Key>): Batch
    requires page <= Candidates(b)
  {
    b.(states := map k | k in b.states :: if k in page then Applied else b.states[k],
       addresses := map k | k in b.addresses.Keys + page ::
         if k in page then NewAddress(b, k) else b.addresses[k],
       outbox := b.outbox + set k | k in page :: Upsert(k, NewAddress(b, k).version))
  }

  // ---------- the steps around the passes ----------

  function IgnoreStep(b: Batch): Batch {
    b.(states := map k | k in b.states ::
      if b.states[k] == Valid && k in b.tree.objects && !Current(b.tree.objects[k]) then Ignored else b.states[k])
  }

  function OrphanStep(b: Batch): Batch {
    b.(states := map k | k in b.states :: if b.states[k] == Valid then Orphan else b.states[k])
  }

  function WithState(b: Batch, s: State): set<Key> {
    set k | k in b.states && b.states[k] == s
  }

  // A run of passes, each taking one page.
  ghost predicate ValidPages(b: Batch, pages: seq<set<Key>>)
    decreases |pages|, 0
  {
    pages == [] || (ValidPages(b, pages[..|pages| - 1])
                    && IsPage(AfterPages(b, pages[..|pages| - 1]), pages[|pages| - 1]))
  }

  ghost function AfterPages(b: Batch, pages: seq<set<Key>>): Batch
    requires ValidPages(b, pages)
    decreases |pages|, 1
  {
    if pages == [] then b else ApplyPage(AfterPages(b, pages[..|pages| - 1]), pages[|pages| - 1])
  }
}
