/** Which bound sessions belong to a native session: its own binding and all that descend from it. */
module SessionFamily {

  datatype Option<+T> = None | Some(value: T)

  /** A session the Host has attached; `agent` tells bindings apart. */
  datatype Binding = Binding(agent: nat, provider: nat, native: nat, parent: Option<nat>)

  datatype NativeRef = NativeRef(controller: nat, provider: nat, native: nat)

  ghost predicate Distinct(s: seq<Binding>) {
    forall i, j | 0 <= i < j < |s| :: s[i].agent != s[j].agent
  }

  /** Bindings that lead from the root, or one that names it as its parent, down through parent links. */
  ghost predicate IsChain(bindings: seq<Binding>, provider: nat, root: nat, c: seq<Binding>) {
    && c != [] && (c[0].native == root || c[0].parent == Some(root))
    && (forall i | 0 <= i < |c| :: c[i] in bindings && c[i].provider == provider)
    && (forall i | 0 <= i < |c| - 1 :: c[i + 1].parent == Some(c[i].native))
  }

  ghost predicate Descends(bindings: seq<Binding>, provider: nat, root: nat, b: Binding) {
    exists c :: IsChain(bindings, provider, root, c) && c[|c| - 1] == b
  }

  lemma ChainGrows(bindings: seq<Binding>, provider: nat, root: nat, above: Binding, b: Binding)
    requires Descends(bindings, provider, root, above) && b in bindings && b.provider == provider && b.parent == Some(above.native)
    ensures Descends(bindings, provider, root, b)
  {
    var c :| IsChain(bindings, provider, root, c) && c[|c| - 1] == above;
    assert IsChain(bindings, provider, root, c + [b]);
    assert (c + [b])[|c + [b]| - 1] == b;
  }

  lemma ChainStarts(bindings: seq<Binding>, provider: nat, root: nat, b: Binding)
    requires b in bindings && b.provider == provider && (b.native == root || b.parent == Some(root))
    ensures Descends(bindings, provider, root, b)
  {
    assert IsChain(bindings, provider, root, [b]);
    assert [b][|[b]| - 1] == b;
  }

  /** Nothing can be added to `family` any more. */
  ghost predicate Closed(bindings: seq<Binding>, provider: nat, root: nat, family: seq<Binding>) {
    forall b | b in bindings && b.provider == provider ::
      b.native == root || b.parent == Some(root) || (exists x | x in family :: b.parent == Some(x.native)) ==> b in family
  }

  lemma {:induction false} ClosedHoldsChains(bindings: seq<Binding>, provider: nat, root: nat, family: seq<Binding>, c: seq<Binding>)
    requires Closed(bindings, provider, root, family) && IsChain(bindings, provider, root, c)
    ensures c[|c| - 1] in family
    decreases |c|
  {
    if |c| > 1 {
      var n := |c| - 1;
      assert IsChain(bindings, provider, root, c[..n]);
      ClosedHoldsChains(bindings, provider, root, family, c[..n]);
      assert c[..n][n - 1] == c[n - 1] && c[(n - 1) + 1].parent == Some(c[n - 1].native);
    }
  }

  /** Every member but the root's own children comes after a member that is its parent. */
  ghost predicate ParentsFirst(root: nat, family: seq<Binding>) {
    forall i | 0 <= i < |family| ::
      family[i].native == root || family[i].parent == Some(root) || exists j | 0 <= j < i :: family[i].parent == Some(family[j].native)
  }

  predicate Joins(provider: nat, root: nat, ids: set<nat>, family: seq<Binding>, b: Binding) {
    b.provider == provider && b !in family && (b.native == root || (b.parent.Some? && b.parent.value in ids))
  }

  method Found(bindings: seq<Binding>, provider: nat, root: nat, ids: set<nat>, family: seq<Binding>) returns (found: seq<Binding>)
    requires Distinct(bindings)
    ensures Distinct(found) && forall b :: b in found <==> b in bindings && Joins(provider, root, ids, family, b)
  {
    found := [];
    var i := 0;
    while i < |bindings|
      invariant 0 <= i <= |bindings|
      invariant Distinct(found) && forall b :: b in found <==> b in bindings[..i] && Joins(provider, root, ids, family, b)
    {
      assert bindings[..i + 1] == bindings[..i] + [bindings[i]];
      forall k | 0 <= k < |found| ensures found[k].agent != bindings[i].agent {
        assert found[k] in bindings[..i];
        var j :| 0 <= j < i && bindings[..i][j] == found[k];
        assert bindings[j] == found[k];
      }
      if Joins(provider, root, ids, family, bindings[i]) { found := found + [bindings[i]]; }
      i := i + 1;
    }
    assert bindings[..i] == bindings;
  }

  /** The family ends even when parent links run in circles, and is exactly the closure: the bindings
      of the provider that are the root or descend from it, each once, parents first. */
  method NativeFamily(bindings: seq<Binding>, provider: nat, root: nat) returns (family: seq<Binding>)
    requires Distinct(bindings)
    ensures Distinct(family) && ParentsFirst(root, family)
    ensures forall b :: b in family <==> Descends(bindings, provider, root, b)
  {
    family := [];
    var ids := {root};
    while true
      invariant Distinct(family) && ParentsFirst(root, family) && |family| <= |bindings|
      invariant forall id :: id in ids <==> id == root || exists x | x in family :: x.native == id
      invariant forall b | b in family :: b in bindings && Descends(bindings, provider, root, b)
      decreases |bindings| - |family|
    {
      var found := Found(bindings, provider, root, ids, family);
      if found == [] { break; }
      JoinedDescend(bindings, provider, root, ids, family, found);
      JoinedAreDistinct(bindings, family, found);
      CountMembers(bindings, family + found);
      family := family + found;
      ids := ids + set x | x in found :: x.native;
    }
    assert Closed(bindings, provider, root, family);
    forall b ensures b in family <==> Descends(bindings, provider, root, b) {
      if Descends(bindings, provider, root, b) {
        var c :| IsChain(bindings, provider, root, c) && c[|c| - 1] == b;
        ClosedHoldsChains(bindings, provider, root, family, c);
      }
    }
  }

  lemma JoinedDescend(bindings: seq<Binding>, provider: nat, root: nat, ids: set<nat>, family: seq<Binding>, found: seq<Binding>)
    requires forall id :: id in ids <==> id == root || exists x | x in family :: x.native == id
    requires forall b | b in family :: b in bindings && Descends(bindings, provider, root, b)
    requires forall b | b in found :: b in bindings && Joins(provider, root, ids, family, b)
    requires ParentsFirst(root, family)
    ensures forall b | b in found :: Descends(bindings, provider, root, b)
    ensures ParentsFirst(root, family + found)
  {
    forall b | b in found ensures Descends(bindings, provider, root, b) {
      if b.native == root || b.parent == Some(root) {
        ChainStarts(bindings, provider, root, b);
      } else {
        var x :| x in family && x.native == b.parent.value;
        ChainGrows(bindings, provider, root, x, b);
      }
    }
    var all := family + found;
    forall i | 0 <= i < |all| && all[i].native != root && all[i].parent != Some(root) ensures exists j | 0 <= j < i :: all[i].parent == Some(all[j].native) {
      if i < |family| {
        var j :| 0 <= j < i && family[i].parent == Some(family[j].native);
        assert all[j] == family[j];
      } else {
        assert all[i] in found;
        var x :| x in family && x.native == all[i].parent.value;
        var j :| 0 <= j < |family| && family[j] == x;
        assert all[j] == x;
      }
    }
  }

  lemma JoinedAreDistinct(bindings: seq<Binding>, family: seq<Binding>, found: seq<Binding>)
    requires Distinct(bindings) && Distinct(family) && Distinct(found)
    requires (forall b | b in family :: b in bindings) && forall b | b in found :: b in bindings && b !in family
    ensures Distinct(family + found) && forall b | b in family + found :: b in bindings
  {
    forall i, j | 0 <= i < |family| && 0 <= j < |found| ensures family[i].agent != found[j].agent {
      assert family[i] in family && found[j] in found;
    }
  }

  lemma {:induction false} CountMembers(bindings: seq<Binding>, some: seq<Binding>)
    requires Distinct(some) && forall b | b in some :: b in bindings
    ensures |some| <= |bindings|
    decreases |some|
  {
    if some != [] {
      var n := |some| - 1;
      assert some[n] in some;
      var k :| 0 <= k < |bindings| && bindings[k] == some[n];
      var others := bindings[..k] + bindings[k + 1..];
      forall b | b in some[..n] ensures b in others {
        var i :| 0 <= i < n && some[..n][i] == b;
        assert some[i] in bindings && some[i].agent != some[n].agent;
        var j :| 0 <= j < |bindings| && bindings[j] == b;
        assert j != k;
        if j < k { assert others[j] == b; } else { assert others[j - 1] == b; }
      }
      CountMembers(others, some[..n]);
    }
  }

  // ---- The sessions a change of several targets touches ----

  /** Bindings are sessions of this Host's own controller. */
  function RefOf(controller: nat, b: Binding): NativeRef {
    NativeRef(controller, b.provider, b.native)
  }

  /** A target keeps the controller it names; its family is found by provider and native identity. */
  ghost predicate Touched(controller: nat, bindings: seq<Binding>, targets: seq<NativeRef>, r: NativeRef) {
    r in targets || exists t, b :: t in targets && Descends(bindings, t.provider, t.native, b) && RefOf(controller, b) == r
  }

  method AddNew(refs: seq<NativeRef>, r: NativeRef) returns (more: seq<NativeRef>)
    requires forall i, j | 0 <= i < j < |refs| :: refs[i] != refs[j]
    ensures forall i, j | 0 <= i < j < |more| :: more[i] != more[j]
    ensures forall x :: x in more <==> x in refs || x == r
  {
    more := if r in refs then refs else refs + [r];
  }

  /** Every target and every bound descendant of one, no reference twice. */
  method MutationFamily(controller: nat, bindings: seq<Binding>, targets: seq<NativeRef>) returns (refs: seq<NativeRef>)
    requires Distinct(bindings)
    ensures forall i, j | 0 <= i < j < |refs| :: refs[i] != refs[j]
    ensures forall r :: r in refs <==> Touched(controller, bindings, targets, r)
  {
    refs := [];
    var i := 0;
    while i < |targets|
      invariant 0 <= i <= |targets|
      invariant forall a, b | 0 <= a < b < |refs| :: refs[a] != refs[b]
      invariant forall r :: r in refs <==> Touched(controller, bindings, targets[..i], r)
    {
      var t := targets[i];
      ghost var before := refs;
      refs := AddNew(refs, t);
      var family := NativeFamily(bindings, t.provider, t.native);
      var k := 0;
      while k < |family|
        invariant 0 <= k <= |family|
        invariant forall a, b | 0 <= a < b < |refs| :: refs[a] != refs[b]
        invariant forall r :: r in refs <==> r in before || r == t || exists b | b in family[..k] :: RefOf(controller, b) == r
      {
        assert family[..k + 1] == family[..k] + [family[k]];
        refs := AddNew(refs, RefOf(controller, family[k]));
        k := k + 1;
      }
      assert family[..k] == family;
      assert targets[..i + 1] == targets[..i] + [t];
      i := i + 1;
    }
    assert targets[..i] == targets;
  }

}
