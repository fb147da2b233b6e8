// The tree of an OSD map upside down: the parents of each node, and the chains of ancestors
// above an OSD.
module CrushParents {
  import opened Crush

  type ParentMap = map<int, seq<Node>>

  function ChildrenOf(node: Node): seq<int> {
    if node.children.Some? then node.children.value else []
  }

  predicate HasId(nodes: seq<Node>, id: int) {
    exists i :: 0 <= i < |nodes| && nodes[i].id == id
  }

  // The parents of a node among the first so many of a list: in the list's order, each id once.
  function ParentsOf(nodes: seq<Node>, c: int): seq<Node> {
    if nodes == [] then []
    else
      var before, last := ParentsOf(nodes[..|nodes| - 1], c), nodes[|nodes| - 1];
      if c in ChildrenOf(last) && !HasId(before, last.id) then before + [last] else before
  }

  function Get(parents: ParentMap, c: int): seq<Node> {
    if c in parents then parents[c] else []
  }

  // ---------------------------------------------------------------- building the map

  // One node's children, up to the k-th of them.
  ghost predicate Mapped(parents: ParentMap, nodes: seq<Node>, node: Node, k: nat, c: int)
    requires k <= |ChildrenOf(node)|
  {
    var before := ParentsOf(nodes, c);
    && (c in parents <==> Get(parents, c) != [])
    && Get(parents, c) == if c in ChildrenOf(node)[..k] && !HasId(before, node.id) then before + [node] else before
  }

  // The pairs of child and parent met so far.
  ghost predicate Seen(mapped: set<(int, int)>, parents: ParentMap) {
    forall c, id :: (c, id) in mapped <==> HasId(Get(parents, c), id)
  }

  lemma HasIdAppend(nodes: seq<Node>, node: Node, id: int)
    ensures HasId(nodes + [node], id) <==> HasId(nodes, id) || id == node.id
  {
    assert (nodes + [node])[|nodes|] == node;
    if i :| 0 <= i < |nodes| && nodes[i].id == id {
      assert (nodes + [node])[i].id == id;
    }
  }

  lemma MappedOneMore(parents: ParentMap, parents': ParentMap, nodes: seq<Node>, node: Node, k: nat, c: int)
    requires k < |ChildrenOf(node)| && Mapped(parents, nodes, node, k, c)
    requires var child := ChildrenOf(node)[k];
             parents' == if HasId(Get(parents, child), node.id) then parents
                         else parents[child := Get(parents, child) + [node]]
    ensures Mapped(parents', nodes, node, k + 1, c)
  {
    var children := ChildrenOf(node);
    assert children[..k + 1] == children[..k] + [children[k]];
    HasIdAppend(ParentsOf(nodes, c), node, node.id);
  }

  lemma ParentsOfNext(parents: ParentMap, nodes: seq<Node>, i: nat, c: int)
    requires i < |nodes| && Mapped(parents, nodes[..i], nodes[i], |ChildrenOf(nodes[i])|, c)
    ensures (c in parents <==> Get(parents, c) != []) && Get(parents, c) == ParentsOf(nodes[..i + 1], c)
  {
    assert nodes[..i + 1][..i] == nodes[..i];
    assert ChildrenOf(nodes[i])[..|ChildrenOf(nodes[i])|] == ChildrenOf(nodes[i]);
  }

  lemma SeenOneMore(mapped: set<(int, int)>, parents: ParentMap, c: int, node: Node)
    requires Seen(mapped, parents)
    ensures Seen(mapped + {(c, node.id)}, parents[c := Get(parents, c) + [node]])
  {
    forall id
      ensures HasId(Get(parents, c) + [node], id) <==> HasId(Get(parents, c), id) || id == node.id
    {
      HasIdAppend(Get(parents, c), node, id);
    }
  }

  method ParentBucketByNodeId(nodes: seq<Node>) returns (parents: ParentMap)
    ensures forall c :: Get(parents, c) == ParentsOf(nodes, c)
    ensures forall c :: c in parents <==> ParentsOf(nodes, c) != []
  {
    parents := map[];
    var mapped: set<(int, int)> := {};
    for i := 0 to |nodes|
      invariant forall c :: (c in parents <==> Get(parents, c) != []) && Get(parents, c) == ParentsOf(nodes[..i], c)
      invariant Seen(mapped, parents)
    {
      var node := nodes[i];
      ghost var nodesBefore := nodes[..i];
      var children := ChildrenOf(node);
      for k := 0 to |children|
        invariant forall c :: Mapped(parents, nodesBefore, node, k, c)
        invariant Seen(mapped, parents)
      {
        var c := children[k];
        ghost var before, next := parents, k + 1;
        if (c, node.id) !in mapped {
          SeenOneMore(mapped, parents, c, node);
          parents := parents[c := Get(parents, c) + [node]];
          mapped := mapped + {(c, node.id)};
        }
        forall other
          ensures Mapped(parents, nodesBefore, node, next, other)
        {
          MappedOneMore(before, parents, nodesBefore, node, k, other);
        }
      }
      forall c
        ensures (c in parents <==> Get(parents, c) != []) && Get(parents, c) == ParentsOf(nodes[..i + 1], c)
      {
        ParentsOfNext(parents, nodes, i, c);
      }
    }
    assert nodes[..|nodes|] == nodes;
  }

  // ---------------------------------------------------------------- what the map says

  predicate HasChild(p: Node, c: int) {
    p.children.Some? && c in p.children.value
  }

  // With no two nodes of one id, the parents of a node are exactly the nodes that have it as a
  // child, each once, and no id occurs twice however the nodes are numbered.
  lemma {:induction false} ParentsAreExact(nodes: seq<Node>, c: int)
    ensures forall p :: p in ParentsOf(nodes, c) ==> p in nodes && HasChild(p, c)
    ensures forall i, j :: 0 <= i < j < |ParentsOf(nodes, c)| ==> ParentsOf(nodes, c)[i].id != ParentsOf(nodes, c)[j].id
    ensures forall p :: p in nodes && HasChild(p, c) ==> HasId(ParentsOf(nodes, c), p.id)
    ensures (forall i, j :: 0 <= i < j < |nodes| ==> nodes[i].id != nodes[j].id) ==>
              forall p :: p in ParentsOf(nodes, c) <==> p in nodes && HasChild(p, c)
  {
    if nodes != [] {
      var init, last := nodes[..|nodes| - 1], nodes[|nodes| - 1];
      assert nodes == init + [last];
      ParentsAreExact(init, c);
      var before := ParentsOf(init, c);
      forall id
        ensures HasId(before + [last], id) <==> HasId(before, id) || id == last.id
      {
        HasIdAppend(before, last, id);
      }
    }
  }

  // And in the order in which they are listed.
  lemma {:induction false} ParentsInOrder(nodes: seq<Node>, c: int, i: nat, j: nat) returns (a: nat, b: nat)
    requires i < j < |ParentsOf(nodes, c)|
    ensures a < b < |nodes| && nodes[a] == ParentsOf(nodes, c)[i] && nodes[b] == ParentsOf(nodes, c)[j]
  {
    var init, last := nodes[..|nodes| - 1], nodes[|nodes| - 1];
    if j < |ParentsOf(init, c)| {
      a, b := ParentsInOrder(init, c, i, j);
    } else {
      a := PlaceOfParent(init, c, i);
      b := |init|;
    }
  }

  lemma PlaceOfParent(nodes: seq<Node>, c: int, i: nat) returns (a: nat)
    requires i < |ParentsOf(nodes, c)|
    ensures a < |nodes| && nodes[a] == ParentsOf(nodes, c)[i]
  {
    ParentsAreExact(nodes, c);
    assert ParentsOf(nodes, c)[i] in nodes;
    a :| 0 <= a < |nodes| && nodes[a] == ParentsOf(nodes, c)[i];
  }

  // ---------------------------------------------------------------- ancestors

  // From a node up through the first parent of each, to one that has none.
  ghost predicate IsAncestry(parents: ParentMap, first: int, a: seq<int>) {
    && IsClimb(parents, first, a)
    && Get(parents, a[|a| - 1]) == []
  }

  ghost predicate IsClimb(parents: ParentMap, first: int, a: seq<int>) {
    && a != [] && a[0] == first
    && forall k :: 0 <= k < |a| - 1 ==> Get(parents, a[k]) != [] && Get(parents, a[k])[0].id == a[k + 1]
  }

  // No node is above itself, as this count of the levels above shows.
  ghost predicate Rooted(parents: ParentMap, above: map<int, nat>) {
    forall c, p :: c in parents && p in parents[c] ==> c in above && p.id in above && above[p.id] < above[c]
  }

  ghost function LevelsAbove(above: map<int, nat>, id: int): nat {
    if id in above then above[id] else 0
  }

  method LookupAncestry(osd: int, parents: ParentMap, ghost above: map<int, nat>) returns (ancestries: seq<seq<int>>)
    requires Rooted(parents, above)
    ensures |ancestries| == |Get(parents, osd)|
    ensures forall i :: 0 <= i < |ancestries| ==> IsAncestry(parents, Get(parents, osd)[i].id, ancestries[i])
  {
    ancestries := [];
    var direct := Get(parents, osd);
    for i := 0 to |direct|
      invariant |ancestries| == i
      invariant forall k :: 0 <= k < i ==> IsAncestry(parents, direct[k].id, ancestries[k])
    {
      var parentId := direct[i].id;
      var ancestry := [parentId];
      var more := true;
      while more
        invariant IsClimb(parents, direct[i].id, ancestry) && ancestry[|ancestry| - 1] == parentId
        invariant !more ==> Get(parents, parentId) == []
        decreases LevelsAbove(above, parentId), more
      {
        var next := Get(parents, parentId);
        more := next != [];
        if more {
          assert next[0] in parents[parentId];
          parentId := next[0].id;
          ancestry := ancestry + [parentId];
        }
      }
      ancestries := ancestries + [ancestry];
    }
  }

  // Some node of the list has this id and this child.
  ghost predicate IsParentId(nodes: seq<Node>, p: int, c: int) {
    exists i :: 0 <= i < |nodes| && nodes[i].id == p && c in ChildrenOf(nodes[i])
  }

  // Read backwards, an ancestry found in the map of parents is a way down the tree to the OSD,
  // from a node that is nobody's child.
  lemma AncestryIsWayDown(nodes: seq<Node>, parents: ParentMap, osd: int, i: nat, a: seq<int>)
    requires forall c :: Get(parents, c) == ParentsOf(nodes, c)
    requires i < |Get(parents, osd)| && IsAncestry(parents, Get(parents, osd)[i].id, a)
    ensures IsParentId(nodes, a[0], osd)
    ensures forall k :: 0 <= k < |a| - 1 ==> IsParentId(nodes, a[k + 1], a[k])
    ensures var top := a[|a| - 1]; forall p :: !IsParentId(nodes, p, top)
  {
    var top := a[|a| - 1];
    ParentIsParentId(nodes, osd, i);
    forall k | 0 <= k < |a| - 1
      ensures IsParentId(nodes, a[k + 1], a[k])
    {
      assert Get(parents, a[k])[0].id == a[k + 1];
      ParentIsParentId(nodes, a[k], 0);
    }
    forall p
      ensures !IsParentId(nodes, p, top)
    {
      if IsParentId(nodes, p, top) {
        ParentIsListed(nodes, p, top);
      }
    }
  }

  lemma ParentIsListed(nodes: seq<Node>, p: int, c: int)
    requires IsParentId(nodes, p, c)
    ensures ParentsOf(nodes, c) != []
  {
    ParentsAreExact(nodes, c);
  }

  lemma ParentIsParentId(nodes: seq<Node>, c: int, i: nat)
    requires i < |ParentsOf(nodes, c)|
    ensures IsParentId(nodes, ParentsOf(nodes, c)[i].id, c)
  {
    ParentsAreExact(nodes, c);
    assert ParentsOf(nodes, c)[i] in nodes;
  }
}
