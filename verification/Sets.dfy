/** Sets of identities: the least element, which ordered queries pick next, and identities not yet drawn. */
module Sets {
  lemma NonEmpty(s: set<int>)
    requires s != {}
    ensures exists x :: x in s
  {
    if forall x :: x !in s {
      assert false;
    }
  }

  predicate IsLeast(p: int, among: set<int>) {
    p in among && forall q :: q in among ==> p <= q
  }

  lemma LeastExists(among: set<int>)
    requires among != {}
    ensures exists p :: IsLeast(p, among)
    decreases |among|
  {
    NonEmpty(among);
    var p :| p in among;
    if among == {p} {
      assert IsLeast(p, among);
    } else {
      var rest := among - {p};
      assert among == rest + {p};
      LeastExists(rest);
      var q :| IsLeast(q, rest);
      assert IsLeast(if p < q then p else q, among);
    }
  }

  function Least(among: set<int>): (p: int)
    requires among != {}
    ensures IsLeast(p, among)
  {
    LeastExists(among);
    var p :| IsLeast(p, among);
    p
  }

  lemma GreatestExists(among: set<int>)
    requires among != {}
    ensures exists p :: p in among && forall q :: q in among ==> q <= p
    decreases |among|
  {
    var least := Least(among);
    var rest := among - {least};
    assert among == rest + {least};
    if rest == {} {
      assert among == {least};
    } else {
      GreatestExists(rest);
      var p :| p in rest && forall q :: q in rest ==> q <= p;
      assert p in among && forall q :: q in among ==> q <= p;
    }
  }

  function Greatest(among: set<int>): (p: int)
    requires among != {}
    ensures p in among && forall q :: q in among ==> q <= p
  {
    GreatestExists(among);
    var p :| p in among && forall q :: q in among ==> q <= p;
    p
  }

  // A number above all of them.
  lemma Above(keys: set<int>) returns (n: int)
    ensures forall k :: k in keys ==> k < n
    decreases |keys|
  {
    n := 0;
    if keys != {} {
      NonEmpty(keys);
      var k :| k in keys;
      var rest := keys - {k};
      var m := Above(rest);
      assert keys == rest + {k};
      n := if k < m then m else k + 1;
    }
  }
}
