// The CRUSH tree of an OSD map: which OSDs a rule can choose, as a walk over the tree and as the
// paths down it.
module Crush {
  import opened Wrappers

  // OSDs have ids from 0 up, buckets have negative ones.
  datatype Node = Node(id: int, typ: string, name: string, children: Option<seq<int>>)

  type Tree = map<int, Node>

  function Children(tree: Tree, n: int): seq<int>
    requires n in tree
  {
    if tree[n].children.Some? then tree[n].children.value else []
  }

  // A tree as Ceph reports it: nodes go by their ids, the children of a node are nodes, buckets
  // have children and OSDs do not, and no node is below itself, as the rank shows.
  ghost predicate Ranked(tree: Tree, rank: map<int, nat>) {
    && (forall n :: n in tree ==> n in rank && tree[n].id == n)
    && (forall n, c :: n in tree && c in Children(tree, n) ==> c in tree && rank[c] < rank[n])
    && (forall n :: n in tree ==> (n < 0 ==> tree[n].children.Some?) && (n >= 0 ==> Children(tree, n) == []))
  }

  // ---------------------------------------------------------------- paths

  // A way down the tree.
  ghost predicate IsPath(tree: Tree, p: seq<int>) {
    && p != []
    && (forall k :: 0 <= k < |p| ==> p[k] in tree)
    && (forall k :: 0 <= k < |p| - 1 ==> tree[p[k]].children.Some? && p[k + 1] in tree[p[k]].children.value)
  }

  ghost predicate Leads(tree: Tree, p: seq<int>, n: int, d: int) {
    IsPath(tree, p) && p[0] == n && p[|p| - 1] == d
  }

  // d is n or somewhere below it.
  ghost predicate Below(tree: Tree, n: int, d: int) {
    exists p :: Leads(tree, p, n, d)
  }

  // d is below n and of a type that nothing between them has.
  ghost predicate IsNearest(tree: Tree, p: seq<int>, n: int, typ: string, d: int) {
    && Leads(tree, p, n, d) && |p| >= 2 && tree[d].typ == typ
    && forall k :: 0 < k < |p| - 1 ==> tree[p[k]].typ != typ
  }

  ghost predicate Nearest(tree: Tree, n: int, typ: string, d: int) {
    exists p :: IsNearest(tree, p, n, typ, d)
  }

  // Going down p, nodes of these types are met in this order, each strictly below the last and
  // the first strictly below the start.
  ghost predicate MeetsInOrder(tree: Tree, types: seq<string>, p: seq<int>)
    requires forall k :: 0 <= k < |p| ==> p[k] in tree
  {
    types == []
    || exists k :: 0 < k < |p| && tree[p[k]].typ == types[0] && MeetsInOrder(tree, types[1..], p[k..])
  }

  // The OSD can be reached from n through nodes of these types.
  ghost predicate Reaches(tree: Tree, n: int, types: seq<string>, o: int) {
    o >= 0 && exists p :: Leads(tree, p, n, o) && MeetsInOrder(tree, types, p)
  }

  lemma PathDown(tree: Tree, n: int, c: int, q: seq<int>, d: int)
    requires n in tree && c in Children(tree, n) && Leads(tree, q, c, d)
    ensures Leads(tree, [n] + q, n, d)
  {
    var p := [n] + q;
    forall k | 0 <= k < |p| - 1
      ensures p[k + 1] in Children(tree, p[k])
    {
      if k > 0 {
        assert q[k - 1 + 1] in Children(tree, q[k - 1]);
      }
    }
  }

  lemma PathStep(tree: Tree, p: seq<int>, n: int, d: int)
    requires Leads(tree, p, n, d) && |p| >= 2
    ensures p[1] in Children(tree, n) && Leads(tree, p[1..], p[1], d)
  {
    assert p[0 + 1] in Children(tree, p[0]);
    var q := p[1..];
    forall k | 0 <= k < |q| - 1
      ensures q[k + 1] in Children(tree, q[k])
    {
      assert p[k + 1 + 1] in Children(tree, p[k + 1]);
    }
  }

  lemma BelowSelf(tree: Tree, n: int)
    requires n in tree
    ensures Below(tree, n, n)
  {
    assert Leads(tree, [n], n, n);
  }

  // Below n is n itself and what is below its children.
  lemma BelowStep(tree: Tree, n: int, d: int)
    requires n in tree
    ensures Below(tree, n, d) <==> d == n || exists c :: c in Children(tree, n) && Below(tree, c, d)
  {
    if Below(tree, n, d) && d != n {
      var p :| Leads(tree, p, n, d);
      PathStep(tree, p, n, d);
      assert Below(tree, p[1], d);
    }
    if c :| c in Children(tree, n) && Below(tree, c, d) {
      var q :| Leads(tree, q, c, d);
      PathDown(tree, n, c, q, d);
    }
    if d == n {
      BelowSelf(tree, n);
    }
  }

  // d is c itself, if it is of the type, or nearest to it.
  ghost predicate NearestFrom(tree: Tree, c: int, typ: string, d: int) {
    c in tree && if tree[c].typ == typ then d == c else Nearest(tree, c, typ, d)
  }

  // The nearest nodes of a type are the children of that type, and those nearest to other children.
  lemma NearestStep(tree: Tree, n: int, typ: string, d: int)
    requires n in tree
    ensures Nearest(tree, n, typ, d) <==> exists c :: c in Children(tree, n) && NearestFrom(tree, c, typ, d)
  {
    if Nearest(tree, n, typ, d) {
      var p :| IsNearest(tree, p, n, typ, d);
      PathStep(tree, p, n, d);
      var c := p[1];
      if |p| > 2 {
        assert tree[c].typ != typ;
        assert forall k :: 0 < k < |p[1..]| - 1 ==> p[1..][k] == p[k + 1];
        assert IsNearest(tree, p[1..], c, typ, d);
      }
    }
    if c :| c in Children(tree, n) && NearestFrom(tree, c, typ, d) {
      if tree[c].typ == typ {
        PathDown(tree, n, c, [c], c);
        assert IsNearest(tree, [n] + [c], n, typ, d);
      } else {
        var q :| IsNearest(tree, q, c, typ, d);
        PathDown(tree, n, c, q, d);
        assert IsNearest(tree, [n] + q, n, typ, d);
      }
    }
  }

  // ---------------------------------------------------------------- types met on the way

  // Starting earlier meets no less.
  lemma MeetsFromEarlier(tree: Tree, types: seq<string>, p: seq<int>, i: nat, j: nat)
    requires i <= j <= |p| && forall k :: 0 <= k < |p| ==> p[k] in tree
    requires MeetsInOrder(tree, types, p[j..])
    ensures MeetsInOrder(tree, types, p[i..])
  {
    if types != [] {
      var k :| 0 < k < |p[j..]| && tree[p[j..][k]].typ == types[0] && MeetsInOrder(tree, types[1..], p[j..][k..]);
      assert p[j..][k..] == p[i..][j - i + k..];
      assert p[i..][j - i + k] == p[j..][k];
    }
  }

  // The first node of a type on the way down to one.
  lemma {:induction false} FirstOfType(tree: Tree, p: seq<int>, typ: string, k: nat) returns (first: nat)
    requires IsPath(tree, p) && 0 < k < |p| && tree[p[k]].typ == typ
    ensures 0 < first <= k && tree[p[first]].typ == typ
    ensures forall i :: 0 < i < first ==> tree[p[i]].typ != typ
    decreases k
  {
    if i :| 0 < i < k && tree[p[i]].typ == typ {
      first := FirstOfType(tree, p, typ, i);
    } else {
      first := k;
    }
  }

  lemma SplitPath(tree: Tree, p: seq<int>, n: int, o: int, k: nat)
    requires Leads(tree, p, n, o) && k < |p|
    ensures Leads(tree, p[..k + 1], n, p[k]) && Leads(tree, p[k..], p[k], o)
  {
    var q := p[k..];
    forall i | 0 <= i < |q| - 1
      ensures q[i + 1] in Children(tree, q[i])
    {
      assert p[k + i + 1] in Children(tree, p[k + i]);
    }
  }

  lemma JoinPaths(tree: Tree, p: seq<int>, q: seq<int>, n: int, d: int, o: int)
    requires Leads(tree, p, n, d) && Leads(tree, q, d, o)
    ensures Leads(tree, p + q[1..], n, o) && (p + q[1..])[|p| - 1..] == q
  {
    var r, m := p + q[1..], |p| - 1;
    assert forall i :: m <= i < |r| ==> r[i] == q[i - m];
    forall i | 0 <= i < |r| - 1
      ensures r[i + 1] in Children(tree, r[i])
    {
      if i >= m {
        assert q[i - m + 1] in Children(tree, q[i - m]);
      } else {
        assert p[i + 1] in Children(tree, p[i]);
      }
    }
  }

  lemma ReachesVia(tree: Tree, n: int, types: seq<string>, o: int) returns (d: int)
    requires types != [] && Reaches(tree, n, types, o)
    ensures Nearest(tree, n, types[0], d) && Reaches(tree, d, types[1..], o)
  {
    var p :| Leads(tree, p, n, o) && MeetsInOrder(tree, types, p);
    var k :| 0 < k < |p| && tree[p[k]].typ == types[0] && MeetsInOrder(tree, types[1..], p[k..]);
    var first := FirstOfType(tree, p, types[0], k);
    SplitPath(tree, p, n, o, first);
    MeetsFromEarlier(tree, types[1..], p, first, k);
    d := p[first];
    assert IsNearest(tree, p[..first + 1], n, types[0], d);
    assert Leads(tree, p[first..], d, o) && MeetsInOrder(tree, types[1..], p[first..]);
  }

  lemma ViaReaches(tree: Tree, n: int, types: seq<string>, d: int, o: int)
    requires types != [] && Nearest(tree, n, types[0], d) && Reaches(tree, d, types[1..], o)
    ensures Reaches(tree, n, types, o)
  {
    var p :| IsNearest(tree, p, n, types[0], d);
    var q :| Leads(tree, q, d, o) && MeetsInOrder(tree, types[1..], q);
    JoinPaths(tree, p, q, n, d, o);
    var r := p + q[1..];
    assert r[|p| - 1] == d;
    assert 0 < |p| - 1 < |r| && tree[r[|p| - 1]].typ == types[0] && MeetsInOrder(tree, types[1..], r[|p| - 1..]);
    assert MeetsInOrder(tree, types, r);
  }

  // To go through nodes of these types is to go to a nearest node of the first type, and on from
  // there through the others.
  lemma ReachesStep(tree: Tree, n: int, types: seq<string>, o: int)
    requires types != []
    ensures Reaches(tree, n, types, o) <==> exists d :: Nearest(tree, n, types[0], d) && Reaches(tree, d, types[1..], o)
  {
    if Reaches(tree, n, types, o) {
      var d := ReachesVia(tree, n, types, o);
    }
    if d :| Nearest(tree, n, types[0], d) && Reaches(tree, d, types[1..], o) {
      ViaReaches(tree, n, types, d, o);
    }
  }

  lemma ReachesNone(tree: Tree, n: int, o: int)
    ensures Reaches(tree, n, [], o) <==> o >= 0 && Below(tree, n, o)
  {
    if o >= 0 && Below(tree, n, o) {
      var p :| Leads(tree, p, n, o);
      assert MeetsInOrder(tree, [], p);
    }
  }

  // ---------------------------------------------------------------- the walks

  method GatherLeafIds(tree: Tree, ghost rank: map<int, nat>, n: int) returns (leaves: set<int>)
    requires Ranked(tree, rank) && n in tree
    ensures forall o :: o in leaves <==> o >= 0 && Below(tree, n, o)
    decreases rank[n]
  {
    forall o
      ensures Below(tree, n, o) <==> o == n || exists c :: c in Children(tree, n) && Below(tree, c, o)
    {
      BelowStep(tree, n, o);
    }
    if n >= 0 {
      return {n};
    }
    leaves := {};
    var children := tree[n].children.value;
    for i := 0 to |children|
      invariant forall o :: o in leaves <==> o >= 0 && exists k :: 0 <= k < i && Below(tree, children[k], o)
    {
      var c := children[i];
      assert c in Children(tree, n);
      if c >= 0 {
        forall o
          ensures Below(tree, c, o) <==> o == c
        {
          BelowStep(tree, c, o);
        }
        leaves := leaves + {c};
      } else {
        var more := GatherLeafIds(tree, rank, c);
        leaves := leaves + more;
      }
    }
  }

  method GatherDescendantIds(tree: Tree, ghost rank: map<int, nat>, n: int, typ: string) returns (found: set<int>)
    requires Ranked(tree, rank) && n in tree && tree[n].children.Some?
    ensures forall d :: d in found <==> Nearest(tree, n, typ, d)
    decreases rank[n]
  {
    forall d
      ensures Nearest(tree, n, typ, d) <==> exists c :: c in Children(tree, n) && NearestFrom(tree, c, typ, d)
    {
      NearestStep(tree, n, typ, d);
    }
    found := {};
    var children := tree[n].children.value;
    for i := 0 to |children|
      invariant forall d :: d in found <==> exists k :: 0 <= k < i && NearestFrom(tree, children[k], typ, d)
    {
      var c := children[i];
      assert c in Children(tree, n);
      var child := tree[c];
      if child.typ == typ {
        found := found + {child.id};
      } else if child.children.Some? {
        var more := GatherDescendantIds(tree, rank, c, typ);
        found := found + more;
      } else {
        forall d
          ensures !Nearest(tree, c, typ, d)
        {
          NearestStep(tree, c, typ, d);
        }
      }
    }
  }

  // ---------------------------------------------------------------- rules

  datatype Step = Take(item: int) | ChooseFirstn(typ: string) | ChooseLeafFirstn(typ: string) | Emit | OtherStep

  // Not only choices: otherwise the walk runs off the end of the steps.
  ghost predicate Ends(steps: seq<Step>) {
    exists k :: 0 <= k < |steps| && !steps[k].ChooseFirstn?
  }

  // The OSDs that the steps after a take choose from a node, one step at a time.
  ghost predicate Chooses(tree: Tree, n: int, steps: seq<Step>, o: int)
    decreases |steps|
  {
    if n >= 0 then o == n
    else if steps == [] then false
    else
      match steps[0]
      case ChooseFirstn(typ) => exists d :: Nearest(tree, n, typ, d) && Chooses(tree, d, steps[1..], o)
      case ChooseLeafFirstn(typ) => o >= 0 && exists d :: Nearest(tree, n, typ, d) && Below(tree, d, o)
      case _ => false
  }

  method GatherOsds(tree: Tree, ghost rank: map<int, nat>, root: int, steps: seq<Step>) returns (osds: set<int>)
    requires Ranked(tree, rank) && root in tree && Ends(steps)
    ensures forall o :: o in osds <==> Chooses(tree, root, steps, o)
    ensures Typed(tree, steps) ==> forall o :: o in osds <==> Selects(tree, root, steps, o)
    decreases |steps|
  {
    OsdsAreSelected(tree, rank, root, steps);
    hide Selects, Typed;
    if root >= 0 {
      return {root};
    }
    osds := {};
    match steps[0]
    case ChooseFirstn(typ) =>
      var found := GatherDescendantIds(tree, rank, root, typ);
      var rest := found;
      while rest != {}
        invariant rest <= found
        invariant forall o :: o in osds <==> exists d :: d in found && d !in rest && Chooses(tree, d, steps[1..], o)
      {
        ghost var some := Pick(rest);
        var d :| d in rest;
        NearestIsNode(tree, root, typ, d);
        EndsLater(steps);
        var more := GatherOsds(tree, rank, d, steps[1..]);
        osds := osds + more;
        rest := rest - {d};
      }
    case ChooseLeafFirstn(typ) =>
      var found := GatherDescendantIds(tree, rank, root, typ);
      var rest := found;
      while rest != {}
        invariant rest <= found
        invariant forall o :: o in osds <==> o >= 0 && exists d :: d in found && d !in rest && Below(tree, d, o)
      {
        ghost var some := Pick(rest);
        var d :| d in rest;
        NearestIsNode(tree, root, typ, d);
        var more := GatherLeafIds(tree, rank, d);
        osds := osds + more;
        rest := rest - {d};
      }
    case _ =>
  }

  lemma NearestIsNode(tree: Tree, n: int, typ: string, d: int)
    requires Nearest(tree, n, typ, d)
    ensures d in tree && tree[d].typ == typ
  {
  }

  lemma EndsLater(steps: seq<Step>)
    requires Ends(steps) && steps[0].ChooseFirstn?
    ensures Ends(steps[1..])
  {
    var k :| 0 <= k < |steps| && !steps[k].ChooseFirstn?;
    assert !steps[1..][k - 1].ChooseFirstn?;
  }

  // The OSDs that a rule can choose.
  ghost predicate ChosenByRule(tree: Tree, steps: seq<Step>, o: int) {
    exists i :: 0 <= i < |steps| && steps[i].Take? && Chooses(tree, steps[i].item, steps[i + 1..], o)
  }

  // Each item taken is a node, and something other than choices follows.
  ghost predicate IsRule(tree: Tree, steps: seq<Step>) {
    forall i :: 0 <= i < |steps| && steps[i].Take? ==> steps[i].item in tree && Ends(steps[i + 1..])
  }

  method GetCrushRuleOsds(tree: Tree, ghost rank: map<int, nat>, steps: seq<Step>) returns (osds: set<int>)
    requires Ranked(tree, rank) && IsRule(tree, steps)
    ensures forall o :: o in osds <==> ChosenByRule(tree, steps, o)
    ensures Typed(tree, steps) ==> forall o :: o in osds <==> ReachedByRule(tree, steps, o)
  {
    osds := {};
    for i := 0 to |steps|
      invariant forall o :: o in osds <==>
        exists k :: 0 <= k < i && steps[k].Take? && Chooses(tree, steps[k].item, steps[k + 1..], o)
    {
      if steps[i].Take? {
        var more := GatherOsds(tree, rank, steps[i].item, steps[i + 1..]);
        osds := osds + more;
      }
    }
    hide Typed, ReachedByRule;
    forall o | Typed(tree, steps)
      ensures ChosenByRule(tree, steps, o) <==> ReachedByRule(tree, steps, o)
    {
      RuleIsExact(tree, rank, steps, o);
    }
  }

  // ---------------------------------------------------------------- what rules choose

  ghost predicate IsBucketType(tree: Tree, typ: string) {
    forall n :: n in tree && tree[n].typ == typ ==> n < 0
  }

  ghost predicate IsOsdType(tree: Tree, typ: string) {
    forall n :: n in tree && tree[n].typ == typ ==> n >= 0
  }

  // No bucket and OSD have the same type, of the types that these steps choose.
  ghost predicate Typed(tree: Tree, steps: seq<Step>) {
    forall k :: 0 <= k < |steps| && steps[k].ChooseFirstn? ==>
      IsBucketType(tree, steps[k].typ) || IsOsdType(tree, steps[k].typ)
  }

  // The types of the nodes that steps go through, in order, on the way to what they choose: up to a
  // choice of OSDs, or of leaves. None, if anything else comes first, and they choose nothing.
  ghost function Selection(tree: Tree, steps: seq<Step>): Option<seq<string>> {
    if steps == [] then None
    else
      match steps[0]
      case ChooseFirstn(typ) =>
        if IsOsdType(tree, typ) then Some([typ])
        else
          var rest := Selection(tree, steps[1..]);
          if rest.None? then None else Some([typ] + rest.value)
      case ChooseLeafFirstn(typ) => Some([typ])
      case _ => None
  }

  // The steps after a take choose an OSD: itself, if it is what was taken, or one that is reached
  // through nodes of these types, each strictly below the last.
  ghost predicate Selects(tree: Tree, n: int, steps: seq<Step>, o: int) {
    if n >= 0 then o == n
    else var types := Selection(tree, steps); types.Some? && Reaches(tree, n, types.value, o)
  }

  // Below an OSD there is nothing.
  lemma OsdIsLeaf(tree: Tree, rank: map<int, nat>, n: int, p: seq<int>, o: int)
    requires Ranked(tree, rank) && n >= 0 && Leads(tree, p, n, o)
    ensures p == [n] && o == n
  {
    if |p| > 1 {
      PathStep(tree, p, n, o);
    }
  }

  lemma OsdReaches(tree: Tree, rank: map<int, nat>, d: int, o: int)
    requires Ranked(tree, rank) && d in tree && d >= 0
    ensures Reaches(tree, d, [], o) <==> o == d
  {
    ReachesNone(tree, d, o);
    BelowSelf(tree, d);
    if p :| Leads(tree, p, d, o) {
      OsdIsLeaf(tree, rank, d, p, o);
    }
  }

  lemma TypedFrom(tree: Tree, steps: seq<Step>, i: nat)
    requires Typed(tree, steps) && i <= |steps|
    ensures Typed(tree, steps[i..])
  {
    forall k | 0 <= k < |steps[i..]| && steps[i..][k].ChooseFirstn?
      ensures IsBucketType(tree, steps[i..][k].typ) || IsOsdType(tree, steps[i..][k].typ)
    {
      assert steps[i..][k] == steps[i + k];
    }
  }

  // Whatever steps a rule has, they choose exactly the OSDs that are reached from the node through nodes
  // of the chosen types, in their order and each strictly below the last.
  lemma {:induction false} ChoiceIsExact(tree: Tree, rank: map<int, nat>, n: int, steps: seq<Step>, o: int)
    requires Ranked(tree, rank) && Typed(tree, steps) && n in tree
    ensures Chooses(tree, n, steps, o) <==> Selects(tree, n, steps, o)
    decreases |steps|
  {
    if n < 0 && steps != [] {
      match steps[0]
      case ChooseFirstn(typ) =>
        var types := Selection(tree, steps);
        TypedFrom(tree, steps, 1);
        forall d | Nearest(tree, n, typ, d)
          ensures if IsOsdType(tree, typ) then Chooses(tree, d, steps[1..], o) <==> Reaches(tree, d, [], o)
                  else Chooses(tree, d, steps[1..], o) <==> Selects(tree, d, steps[1..], o) && d < 0
        {
          NearestIsNode(tree, n, typ, d);
          if IsOsdType(tree, typ) {
            OsdReaches(tree, rank, d, o);
          } else {
            ChoiceIsExact(tree, rank, d, steps[1..], o);
          }
        }
        if types.Some? {
          assert types.value[1..] == if IsOsdType(tree, typ) then [] else Selection(tree, steps[1..]).value;
          ReachesStep(tree, n, types.value, o);
        }
      case ChooseLeafFirstn(typ) =>
        assert [typ][1..] == [];
        ReachesStep(tree, n, [typ], o);
        forall d
          ensures Reaches(tree, d, [], o) <==> o >= 0 && Below(tree, d, o)
        {
          ReachesNone(tree, d, o);
        }
      case _ =>
    }
  }

  lemma OsdsAreSelected(tree: Tree, rank: map<int, nat>, n: int, steps: seq<Step>)
    requires Ranked(tree, rank) && n in tree
    ensures Typed(tree, steps) ==> forall o :: Chooses(tree, n, steps, o) <==> Selects(tree, n, steps, o)
  {
    forall o | Typed(tree, steps)
      ensures Chooses(tree, n, steps, o) <==> Selects(tree, n, steps, o)
    {
      ChoiceIsExact(tree, rank, n, steps, o);
    }
  }

  // The OSDs that a rule can choose, in terms of the ways down the tree.
  ghost predicate ReachedByRule(tree: Tree, steps: seq<Step>, o: int) {
    exists i :: 0 <= i < |steps| && steps[i].Take? && Selects(tree, steps[i].item, steps[i + 1..], o)
  }

  lemma RuleIsExact(tree: Tree, rank: map<int, nat>, steps: seq<Step>, o: int)
    requires Ranked(tree, rank) && Typed(tree, steps) && IsRule(tree, steps)
    ensures ChosenByRule(tree, steps, o) <==> ReachedByRule(tree, steps, o)
  {
    forall i | 0 <= i < |steps| && steps[i].Take?
      ensures Chooses(tree, steps[i].item, steps[i + 1..], o) <==> Selects(tree, steps[i].item, steps[i + 1..], o)
    {
      TypedFrom(tree, steps, i + 1);
      ChoiceIsExact(tree, rank, steps[i].item, steps[i + 1..], o);
    }
  }

  // ---------------------------------------------------------------- rules that choose as one expects

  // A choice of OSDs below some choices of buckets chooses the OSDs below them, whatever comes then.
  lemma {:induction false} OsdsAreChosen(tree: Tree, types: seq<string>, osdType: string, steps: seq<Step>)
    requires IsOsdType(tree, osdType) && forall typ :: typ in types ==> !IsOsdType(tree, typ)
    requires |steps| > |types| && steps[|types|] == ChooseFirstn(osdType)
    requires forall k :: 0 <= k < |types| ==> steps[k] == ChooseFirstn(types[k])
    ensures Selection(tree, steps) == Some(types + [osdType])
    decreases |types|
  {
    if types != [] {
      assert types[0] in types && forall typ :: typ in types[1..] ==> typ in types;
      OsdsAreChosen(tree, types[1..], osdType, steps[1..]);
      assert [types[0]] + (types[1..] + [osdType]) == types + [osdType];
    } else {
      assert types + [osdType] == [osdType];
    }
  }

  // So does a choice of leaves below nodes of a type.
  lemma {:induction false} LeavesAreChosen(tree: Tree, types: seq<string>, leafType: string, steps: seq<Step>)
    requires forall typ :: typ in types ==> !IsOsdType(tree, typ)
    requires |steps| > |types| && steps[|types|] == ChooseLeafFirstn(leafType)
    requires forall k :: 0 <= k < |types| ==> steps[k] == ChooseFirstn(types[k])
    ensures Selection(tree, steps) == Some(types + [leafType])
    decreases |types|
  {
    if types != [] {
      assert types[0] in types && forall typ :: typ in types[1..] ==> typ in types;
      LeavesAreChosen(tree, types[1..], leafType, steps[1..]);
      assert [types[0]] + (types[1..] + [leafType]) == types + [leafType];
    } else {
      assert types + [leafType] == [leafType];
    }
  }

  // Choices among bucket types that no other choice follows choose nothing at all: an emit does not add
  // the OSDs below the buckets chosen.
  lemma {:induction false} BucketsOnlyChooseNothing(tree: Tree, types: seq<string>, steps: seq<Step>)
    requires forall typ :: typ in types ==> !IsOsdType(tree, typ)
    requires |steps| > |types| && !steps[|types|].ChooseFirstn? && !steps[|types|].ChooseLeafFirstn?
    requires forall k :: 0 <= k < |types| ==> steps[k] == ChooseFirstn(types[k])
    ensures Selection(tree, steps) == None
    decreases |types|
  {
    if types != [] {
      assert types[0] in types && forall typ :: typ in types[1..] ==> typ in types;
      BucketsOnlyChooseNothing(tree, types[1..], steps[1..]);
    }
  }
}
