// The hosts of a CRUSH tree and the OSDs below each, as the registry of servers needs them.
module CrushHosts {
  import opened Wrappers
  import opened Crush

  datatype Osd = Osd(osd: int, up: bool)

  // The type names for hosts and OSDs are configured.
  datatype TypeNames = TypeNames(host: string, osd: string)

  // Nodes above any OSD have a list of children.
  ghost predicate Descendable(tree: Tree, osdType: string) {
    forall n :: n in tree && tree[n].typ != osdType ==> tree[n].children.Some?
  }

  method FindDescendants(tree: Tree, ghost rank: map<int, nat>, n: int, osdType: string) returns (found: seq<int>)
    requires Ranked(tree, rank) && n in tree && Descendable(tree, osdType)
    ensures forall o :: o in found <==> NearestFrom(tree, n, osdType, o)
    decreases rank[n]
  {
    if tree[n].typ == osdType {
      return [n];
    }
    forall d
      ensures Nearest(tree, n, osdType, d) <==> exists c :: c in Children(tree, n) && NearestFrom(tree, c, osdType, d)
    {
      NearestStep(tree, n, osdType, d);
    }
    found := [];
    var children := tree[n].children.value;
    for i := 0 to |children|
      invariant forall o :: o in found <==> exists k :: 0 <= k < i && NearestFrom(tree, children[k], osdType, o)
    {
      assert children[i] in Children(tree, n);
      var more := FindDescendants(tree, rank, children[i], osdType);
      found := found + more;
    }
  }

  // A host with this OSD below it.
  ghost predicate Hosts(node: Node, tree: Tree, names: TypeNames, o: int) {
    node.typ == names.host && NearestFrom(tree, node.id, names.osd, o)
  }

  // The name of the last host in the list with this OSD below it.
  ghost function HostOf(nodes: seq<Node>, tree: Tree, names: TypeNames, o: int): Option<string> {
    if nodes == [] then None
    else if Hosts(nodes[|nodes| - 1], tree, names, o) then Some(nodes[|nodes| - 1].name)
    else HostOf(nodes[..|nodes| - 1], tree, names, o)
  }

  // The i-th node is a host, and some way down from it leads to the OSD, with nothing of its type in
  // between.
  ghost predicate IsAbove(node: Node, tree: Tree, names: TypeNames, o: int) {
    && node.typ == names.host && node.id in tree && o in tree
    && if tree[node.id].typ == names.osd then o == node.id
       else exists p :: IsNearest(tree, p, node.id, names.osd, o)
  }

  lemma HostIsAbove(node: Node, tree: Tree, names: TypeNames, o: int)
    ensures Hosts(node, tree, names, o) <==> IsAbove(node, tree, names, o)
  {
  }

  ghost predicate IsLastAbove(nodes: seq<Node>, tree: Tree, names: TypeNames, o: int, i: int) {
    && 0 <= i < |nodes| && IsAbove(nodes[i], tree, names, o)
    && forall j :: i < j < |nodes| ==> !IsAbove(nodes[j], tree, names, o)
  }

  // An OSD's host is the last node in the list that is a host above it; without one, it has none.
  lemma {:induction false} LastHostCounts(nodes: seq<Node>, tree: Tree, names: TypeNames, o: int)
    ensures match HostOf(nodes, tree, names, o)
            case None => forall i :: 0 <= i < |nodes| ==> !IsAbove(nodes[i], tree, names, o)
            case Some(name) => exists i :: IsLastAbove(nodes, tree, names, o, i) && nodes[i].name == name
  {
    hide IsAbove, Hosts;
    if nodes != [] {
      var init, last := nodes[..|nodes| - 1], nodes[|nodes| - 1];
      HostIsAbove(last, tree, names, o);
      LastHostCounts(init, tree, names, o);
      if Hosts(last, tree, names, o) {
        assert IsLastAbove(nodes, tree, names, o, |init|);
      } else if HostOf(init, tree, names, o).Some? {
        var i :| IsLastAbove(init, tree, names, o, i) && init[i].name == HostOf(init, tree, names, o).value;
        assert IsLastAbove(nodes, tree, names, o, i);
      }
    }
  }

  method MapOsdsToHosts(nodes: seq<Node>, tree: Tree, ghost rank: map<int, nat>, names: TypeNames)
    returns (hostOf: map<int, string>)
    requires Ranked(tree, rank) && Descendable(tree, names.osd)
    requires forall i :: 0 <= i < |nodes| ==> nodes[i].id in tree
    ensures forall o :: HostOf(nodes, tree, names, o) == if o in hostOf then Some(hostOf[o]) else None
  {
    hostOf := map[];
    for i := 0 to |nodes|
      invariant forall o :: HostOf(nodes[..i], tree, names, o) == if o in hostOf then Some(hostOf[o]) else None
    {
      var node := nodes[i];
      assert nodes[..i + 1][..i] == nodes[..i];
      if node.typ == names.host {
        var found := FindDescendants(tree, rank, node.id, names.osd);
        hostOf := hostOf + map o | o in found :: node.name;
      }
    }
    assert nodes[..|nodes|] == nodes;
  }

  predicate ListedUnder(hosts: map<string, seq<Osd>>, host: string, osd: Osd) {
    host in hosts && osd in hosts[host]
  }

  // The OSDs of the map under the host that the tree puts them below; one that the tree does not
  // put below any host is left out.
  method GetHostnameToOsds(nodes: seq<Node>, tree: Tree, ghost rank: map<int, nat>, names: TypeNames, osds: seq<Osd>)
    returns (hosts: map<string, seq<Osd>>)
    requires Ranked(tree, rank) && Descendable(tree, names.osd)
    requires forall i :: 0 <= i < |nodes| ==> nodes[i].id in tree
    ensures forall host, osd :: ListedUnder(hosts, host, osd) <==>
              osd in osds && HostOf(nodes, tree, names, osd.osd) == Some(host)
  {
    var hostOf := MapOsdsToHosts(nodes, tree, rank, names);
    hosts := map[];
    for i := 0 to |osds|
      invariant forall host, osd :: ListedUnder(hosts, host, osd) <==>
                  osd in osds[..i] && osd.osd in hostOf && hostOf[osd.osd] == host
    {
      var osd := osds[i];
      assert forall x :: x in osds[..i + 1] <==> x in osds[..i] || x == osd;
      if osd.osd in hostOf {
        ghost var before := hosts;
        var host := hostOf[osd.osd];
        hosts := hosts[host := (if host in hosts then hosts[host] else []) + [osd]];
        assert forall h, x :: ListedUnder(hosts, h, x) <==> ListedUnder(before, h, x) || (h == host && x == osd);
      }
    }
    assert osds[..|osds|] == osds;
  }
}
