/** The shape of the address table: parent links form a forest, full addresses spell the path from the root. */
module AddressForest {
  import opened Wrappers
  import opened AddressModel
  import opened Resolver
  import Text

  // ---------- no cycles ----------

  ghost function Depth(t: Tree, k: Key): nat
    requires Reachable(t, k)
  {
    var path :| Leads(t, path, k);
    |path|
  }

  lemma DepthOf(t: Tree, path: seq<Key>, k: Key)
    requires Leads(t, path, k)
    ensures Reachable(t, k) && Depth(t, k) == |path|
  {
    forall other | Leads(t, other, k) ensures other == path { PathIsUnique(t, path, other, k); }
  }

  lemma ParentIsOneUp(t: Tree, k: Key, p: Key)
    requires Reachable(t, k) && Parent(t, k) == Some(p)
    ensures Reachable(t, p) && Depth(t, p) + 1 == Depth(t, k)
  {
    var path :| Leads(t, path, k);
    DepthOf(t, path, k);
    var above := path[..|path| - 1];
    assert Leads(t, above, p);
    DepthOf(t, above, p);
  }

  ghost predicate ParentCycle(addresses: map<Key, Address>, cycle: seq<Key>) {
    && cycle != [] && (forall i :: 0 <= i < |cycle| ==> cycle[i] in addresses)
    && (forall i :: 0 < i < |cycle| ==> addresses[cycle[i - 1]].parent == Some(cycle[i]))
    && addresses[cycle[|cycle| - 1]].parent == Some(cycle[0])
  }

  lemma {:induction false} ClimbsBy(b: Batch, cycle: seq<Key>, i: nat)
    requires Grown(b) && ParentCycle(b.addresses, cycle) && i < |cycle|
    requires Reachable(b.tree, cycle[0])
    ensures Reachable(b.tree, cycle[i]) && Depth(b.tree, cycle[i]) + i == Depth(b.tree, cycle[0])
  {
    if i > 0 {
      ClimbsBy(b, cycle, i - 1);
      assert Grounded(b, cycle[i - 1]);
      ParentIsOneUp(b.tree, cycle[i - 1], cycle[i]);
    }
  }

  /** No address is its own ancestor, whatever cycles the staged hierarchy holds. */
  lemma AddressesFormForest(b: Batch, cycle: seq<Key>)
    requires Grown(b)
    ensures !ParentCycle(b.addresses, cycle)
  {
    if ParentCycle(b.addresses, cycle) {
      assert Grounded(b, cycle[0]) && Grounded(b, cycle[|cycle| - 1]);
      ClimbsBy(b, cycle, |cycle| - 1);
      ParentIsOneUp(b.tree, cycle[|cycle| - 1], cycle[0]);
      assert false;
    }
  }

  // ---------- full addresses ----------

  // Text without outer spaces, as normalisation leaves it.
  predicate Tidy(s: string) {
    s == "" || (s[0] != ' ' && s[|s| - 1] != ' ')
  }

  // What normalisation guarantees of a staged object.
  predicate Named(o: Object) {
    Tidy(o.name) && Tidy(o.typeName) && Tidy(o.houseNum) && (o.kind == AddrObj ==> o.name != "")
  }

  // Staged texts are compacted, and an address object has a name.
  lemma NormalizedIsNamed(o: Object, name: string, typeName: string, houseNum: string)
    requires o.name == Text.Compact(name) && o.typeName == Text.Compact(typeName) && o.houseNum == Text.Compact(houseNum)
    requires o.kind == AddrObj ==> o.name != ""
    ensures Named(o)
  {
    CompactIsTidy(name);
    CompactIsTidy(typeName);
    CompactIsTidy(houseNum);
  }

  lemma CompactIsTidy(s: string)
    ensures Tidy(Text.Compact(s))
  {
    var words := Text.Fields(Text.Trim(s));
    if words != [] {
      Text.JoinEnds(words);
      assert Text.IsSpace(' ');
    }
  }

  lemma TidyConcat(separator: string, a: string, b: string)
    requires Tidy(a) && Tidy(b)
    ensures Tidy(ConcatWs(separator, a, b)) && (b != "" ==> ConcatWs(separator, a, b) != "")
  {
    if a != "" && b != "" {
      var s := ConcatWs(separator, a, b);
      assert s[0] == a[0] && s[|s| - 1] == b[|b| - 1];
    }
  }

  lemma DisplayIsTidy(o: Object)
    requires Named(o)
    ensures Tidy(Display(o)) && Display(o) != ""
  {
    match o.kind
    case House => TidyConcat(" ", "д.", o.houseNum);
    case AddrObj => TidyConcat(" ", o.typeName, o.name);
  }

  ghost function Displays(t: Tree, path: seq<Key>): seq<string>
    requires forall i :: 0 <= i < |path| ==> path[i] in t.objects
  {
    seq(|path|, i requires 0 <= i < |path| => Display(t.objects[path[i]]))
  }

  lemma {:induction false} PathInTree(t: Tree, path: seq<Key>)
    requires RootPath(t, path)
    ensures forall i :: 0 <= i < |path| ==> Live(t, path[i])
    decreases |path|
  {
    if |path| > 1 {
      PathInTree(t, path[..|path| - 1]);
      assert forall i :: 0 <= i < |path| - 1 ==> path[i] == path[..|path| - 1][i];
    }
  }

  lemma {:induction false} FullIsJoin(t: Tree, path: seq<Key>)
    requires RootPath(t, path) && forall k :: k in t.objects ==> Named(t.objects[k])
    ensures forall i :: 0 <= i < |path| ==> path[i] in t.objects
    ensures FullAlong(t, path) == Text.Join(Displays(t, path), ", ")
    ensures Tidy(FullAlong(t, path)) && FullAlong(t, path) != ""
    decreases |path|
  {
    PathInTree(t, path);
    var last := t.objects[path[|path| - 1]];
    DisplayIsTidy(last);
    if |path| > 1 {
      var above := path[..|path| - 1];
      FullIsJoin(t, above);
      TidyConcat(", ", FullAlong(t, above), Display(last));
      assert FullAlong(t, path) == Trim(ConcatWs(", ", FullAlong(t, above), Display(last)));
      DisplaysExtend(t, path);
    } else {
      TidyConcat(", ", "", Display(last));
    }
  }

  lemma DisplaysExtend(t: Tree, path: seq<Key>)
    requires |path| > 1 && forall i :: 0 <= i < |path| ==> path[i] in t.objects
    ensures Text.Join(Displays(t, path), ", ")
            == Text.Join(Displays(t, path[..|path| - 1]), ", ") + ", " + Display(t.objects[path[|path| - 1]])
  {
    assert Displays(t, path)[..|path| - 1] == Displays(t, path[..|path| - 1]);
  }

  /** An address spells the display names on its path from the root, joined by commas. */
  lemma FullAddressSpellsPath(b: Batch, k: Key)
    requires Grown(b) && k in b.addresses && forall o :: o in b.tree.objects ==> Named(b.tree.objects[o])
    ensures exists path :: Leads(b.tree, path, k)
                           && (forall i :: 0 <= i < |path| ==> path[i] in b.tree.objects)
                           && b.addresses[k].full == Text.Join(Displays(b.tree, path), ", ")
  {
    assert Grounded(b, k);
    var path :| Leads(b.tree, path, k) && b.addresses[k].full == FullAlong(b.tree, path);
    FullIsJoin(b.tree, path);
  }
}
