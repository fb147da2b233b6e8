// Whole runs of the registry, one entry point after another, and one run that shows how an OSD map
// can fail.
module RegistryRuns {
  import opened Wrappers
  import opened Placements
  import opened Rolls
  import opened HostRolls
  import opened HostOrders
  import opened DeletionRolls
  import opened ServerRegistry

  datatype Call =
    | Heartbeat(fqdn: string, grains: Option<string>, seen: map<ServiceId, Status>)
    | OsdMap(fsid: Fsid, hosts: Hosts)
    | MdsMap(fsid: Fsid, names: set<string>)
    | MonMap(fsid: Fsid, names: set<string>)
    | DeleteServer(fqdn: string)
    | DeleteCluster(fsid: Fsid)

  // What came of a call: `halfway` is the roll once a heartbeat's sender is found, or once the hosts
  // of an OSD map are walked in the order given.
  datatype Answer = Answer(raised: bool, server: ServerState?, order: seq<string>, halfway: Roll, after: Roll)

  ghost predicate Answers(call: Call, m: Roll, a: Answer)
    requires m.Valid()
  {
    match call
    case Heartbeat(fqdn, grains, seen) =>
      HeartbeatAnswered(m, fqdn, grains, seen, a.server, a.halfway, a.after, a.raised)
    case OsdMap(fsid, hosts) => MapAnswered(m, a.order, a.halfway, a.after, fsid, hosts, a.raised)
    case MdsMap(fsid, names) =>
      !a.raised && a.after == m.(rel := Pruned(m.rel, fsid, "mds", set n | n in names :: ServiceId(fsid, "mds", n)))
    case MonMap(fsid, names) =>
      !a.raised && a.after == m.(rel := Pruned(m.rel, fsid, "mon", set n | n in names :: ServiceId(fsid, "mon", n)))
    case DeleteServer(fqdn) =>
      && (a.raised <==> fqdn !in m.servers)
      && a.after == (if a.raised then m else Struck(m, fqdn))
    case DeleteCluster(fsid) => DeletionAnswered(m, fsid, a.after, a.raised)
  }

  method Serve(m: ServerMonitor, call: Call) returns (raised: bool, ghost a: Answer)
    requires m.Valid()
    modifies m, m.known, m.states
    ensures fresh(m.known - old(m.known)) && fresh(m.states - old(m.states))
    ensures m.Agrees() && m.Named() && (!raised || !call.DeleteCluster? ==> m.Valid())
    ensures old(m.Roster().Valid()) && Answers(call, old(m.Roster()), a)
    ensures a.raised == raised && m.Roster() == a.after && a.after.Valid()
  {
    hide HeartbeatAnswered, MapAnswered, DeletionAnswered, Pruned, Roll.Valid, ServerMonitor.Valid;
    hide ServerMonitor.Roster, ServerMonitor.Agrees, ServerMonitor.Named, Reported, Stopped;
    m.RosterValid();
    m.RosterIs();
    ghost var server: ServerState?, order: seq<string>, halfway := null, [], m.Roster();
    match call {
      case Heartbeat(fqdn, grains, seen) =>
        server, raised, halfway := m.OnServerHeartbeat(fqdn, grains, seen);
      case OsdMap(fsid, hosts) =>
        raised, order, halfway := m.OnOsdMap(fsid, hosts);
      case MdsMap(fsid, names) =>
        m.OnMdsMap(fsid, names);
        raised := false;
      case MonMap(fsid, names) =>
        m.OnMonMap(fsid, names);
        raised := false;
      case DeleteServer(fqdn) => raised := m.Delete(fqdn);
      case DeleteCluster(fsid) => raised := m.DeleteCluster(fsid);
    }
    a := Answer(raised, server, order, halfway, m.Roster());
    m.InOrder();
    m.RosterInOrder();
  }

  // ---------------------------------------------------------------- one call after another

  function RollAt(trail: seq<Answer>, i: nat): Roll
    requires i <= |trail|
  {
    if i == 0 then Roll(map[], map[], map[], map[], {}) else trail[i - 1].after
  }

  // The answers to the first calls, each given to the roll that the one before has left.
  ghost predicate IsTrail(calls: seq<Call>, trail: seq<Answer>) {
    && |trail| <= |calls|
    && forall i :: 0 <= i < |trail| ==> RollAt(trail, i).Valid() && Answers(calls[i], RollAt(trail, i), trail[i])
  }

  // The deletion of a cluster that stops halfway is the last call.
  predicate Stops(calls: seq<Call>, trail: seq<Answer>, i: int)
    requires |trail| <= |calls|
  {
    0 <= i < |trail| && calls[i].DeleteCluster? && trail[i].raised
  }

  // A new registry answers whatever is asked of it, in whatever order, and its dictionaries go on to
  // describe one relation; also after calls that raise, except for the deletion of a cluster that
  // stops halfway.
  method ServeAll(calls: seq<Call>) returns (m: ServerMonitor, outcomes: seq<bool>, ghost trail: seq<Answer>)
    ensures fresh(m) && IsTrail(calls, trail) && m.Roster() == RollAt(trail, |trail|)
    ensures |outcomes| == |trail| && forall i :: 0 <= i < |trail| ==> outcomes[i] == trail[i].raised
    ensures forall i :: Stops(calls, trail, i) ==> i == |trail| - 1
    ensures if Stops(calls, trail, |trail| - 1) then m.Agrees() else |trail| == |calls| && m.Valid()
  {
    hide Answers, IsTrail, Roll.Valid, RollAt, ServerMonitor.Valid, ServerMonitor.Roster, ServerMonitor.Agrees;
    m := new ServerMonitor();
    EmptyRoster(m);
    NoTrail(calls);
    outcomes, trail := [], [];
    while |outcomes| < |calls|
      invariant fresh(m) && fresh(m.known) && fresh(m.states) && m.Valid()
      invariant |outcomes| == |trail| <= |calls| && IsTrail(calls, trail) && m.Roster() == RollAt(trail, |trail|)
      invariant forall i :: 0 <= i < |trail| ==> outcomes[i] == trail[i].raised
      invariant forall i :: !Stops(calls, trail, i)
    {
      var raised;
      ghost var a;
      raised, a := Serve(m, calls[|outcomes|]);
      TrailNext(calls, trail, a);
      StopsNext(calls, trail, a);
      outcomes, trail := outcomes + [raised], trail + [a];
      if raised && calls[|outcomes| - 1].DeleteCluster? {
        return;
      }
    }
  }

  lemma StopsNext(calls: seq<Call>, trail: seq<Answer>, a: Answer)
    requires |trail| < |calls| && forall i :: !Stops(calls, trail, i)
    ensures forall i :: Stops(calls, trail + [a], i) <==> i == |trail| && a.raised && calls[i].DeleteCluster?
  {
    forall i | 0 <= i < |trail|
      ensures !Stops(calls, trail + [a], i)
    {
      assert !Stops(calls, trail, i);
    }
  }

  lemma EmptyRoster(m: ServerMonitor)
    requires m.Valid() && m.relation == map[] && m.servers == map[] && m.hostnameToServer == map[] && m.known == {}
    ensures m.Roster() == Roll(map[], map[], map[], map[], {})
  {
  }

  lemma NoTrail(calls: seq<Call>)
    ensures IsTrail(calls, []) && RollAt([], 0) == Roll(map[], map[], map[], map[], {})
  {
  }

  lemma TrailNext(calls: seq<Call>, trail: seq<Answer>, a: Answer)
    requires IsTrail(calls, trail) && |trail| < |calls|
    requires RollAt(trail, |trail|).Valid() && Answers(calls[|trail|], RollAt(trail, |trail|), a)
    ensures IsTrail(calls, trail + [a]) && RollAt(trail + [a], |trail| + 1) == a.after
  {
    hide Answers, Roll.Valid;
    forall i | 0 <= i < |trail + [a]|
      ensures RollAt(trail + [a], i).Valid() && Answers(calls[i], RollAt(trail + [a], i), (trail + [a])[i])
    {
      assert RollAt(trail + [a], i) == RollAt(trail, i);
    }
  }

  // ---------------------------------------------------------------- an OSD map that fails

  function OsdId(fsid: Fsid, name: string): ServiceId {
    ServiceId(fsid, "osd", name)
  }

  lemma OneHost(fsid: Fsid, h: string, name: string)
    ensures var hosts: Hosts := map[h := map[name := true]];
            && IdsOf(fsid, hosts, h) == {OsdId(fsid, name)} && OsdsInMap(fsid, hosts) == {OsdId(fsid, name)}
            && Separate(fsid, hosts) && OnlyUnder(fsid, hosts, h, OsdId(fsid, name))
  {
    var hosts: Hosts := map[h := map[name := true]];
    assert hosts.Keys == {h} && hosts[h].Keys == {name};
    assert name in hosts[h];
  }

  // The registry knows one server, made up for host a, and one OSD on it.
  ghost predicate OnlyOn(m: Roll, h: string, id: ServiceId) {
    && h in m.byHost && !Managed(m, m.byHost[h]) && m.byHost[h] in m.fqdn && m.fqdn[m.byHost[h]] == h
    && m.rel.Keys == {id} && m.rel[id].server == m.byHost[h]
  }

  // The only host of a first map has a server, which is inferred and named after it.
  lemma FirstHost(fsid: Fsid, m0: Roll, m: Roll, h: string, name: string)
    requires m0.Valid() && m0.rel == map[] && m0.byHost == map[] && m0.servers == map[] && m.Valid()
    requires var hosts: Hosts := map[h := map[name := true]];
             Newcomers(m0, m, hosts.Keys) && Known(m0, m, fsid, hosts, hosts.Keys)
    ensures m.byHost.Keys == {h} && m.servers.Keys <= {h}
    ensures !Managed(m, m.byHost[h]) && m.byHost[h] in m.fqdn && m.fqdn[m.byHost[h]] == h
  {
    var hosts: Hosts := map[h := map[name := true]];
    OneHost(fsid, h, name);
    assert h in hosts.Keys && h in m.byHost;
    assert forall g :: g in m.byHost ==> g == h;
  }

  // A first map of an OSD, to an empty registry.
  lemma FirstMap(fsid: Fsid, m0: Roll, inferred: Roll, m: Roll, h: string, name: string)
    requires m0.Valid() && m0.rel == map[] && m0.byHost == map[] && m0.servers == map[] && inferred.Valid()
    requires var hosts: Hosts := map[h := map[name := true]];
             && PartHandled(m0, inferred, fsid, hosts, hosts.Keys) && m.Valid()
             && m == inferred.(rel := Pruned(inferred.rel, fsid, "osd", OsdsInMap(fsid, hosts)))
             && OsdMapApplied(m0.rel, m.rel, hosts, fsid) && AllAt(m, fsid, hosts, hosts.Keys)
    ensures OnlyOn(m, h, OsdId(fsid, name))
    ensures m.byHost.Keys == {h} && m.servers.Keys <= {h}
  {
    hide Inferred, HostsPlaced, ManagedStay, Known, StruckOff, AnyManaged, Grows, Newcomers;
    var hosts: Hosts := map[h := map[name := true]];
    FirstHost(fsid, m0, inferred, h, name);
    OneHost(fsid, h, name);
    assert PlacedAt(m, fsid, hosts, h, OsdId(fsid, name)) by {
      assert h in hosts.Keys;
    }
    hide AllAt, IdsOf, OnlyUnder;
    assert forall id :: id in m.rel ==> id == OsdId(fsid, name);
  }

  lemma EmptyIsSteady(fsid: Fsid, m: Roll, h: string, name: string)
    requires m.Valid() && m.rel == map[] && m.byHost == map[] && m.servers == map[]
    ensures var hosts: Hosts := map[h := map[name := true]]; Steady(m, fsid, hosts, hosts.Keys)
  {
    var hosts: Hosts := map[h := map[name := true]];
    assert SteadyHost(m, fsid, hosts, hosts.Keys, h);
  }

  // The OSD may move to another host, since its server is registered.
  lemma MoveIsSteady(fsid: Fsid, m0: Roll, m: Roll, h: string, g: string, name: string)
    requires m0.byHost == map[] && m.Valid() && NewRegistered(m0, m)
    requires OnlyOn(m, h, OsdId(fsid, name)) && m.byHost.Keys == {h} && m.servers.Keys <= {h} && g != h
    ensures var hosts: Hosts := map[g := map[name := true]]; Steady(m, fsid, hosts, hosts.Keys)
  {
    var hosts: Hosts := map[g := map[name := true]];
    OneHost(fsid, g, name);
    assert !Deserted(m.rel, m.byHost[h]);
    assert MayMove(m, hosts.Keys, g, OsdId(fsid, name));
    assert SteadyHost(m, fsid, hosts, hosts.Keys, g);
  }

  // A second map, with the OSD on another host: the first host's server is struck off, and is still
  // known under its hostname.
  lemma SecondMap(fsid: Fsid, m: Roll, inferred: Roll, m': Roll, h: string, g: string, name: string)
    requires m.Valid() && OnlyOn(m, h, OsdId(fsid, name)) && m.byHost.Keys == {h} && g != h && inferred.Valid()
    requires var hosts: Hosts := map[g := map[name := true]];
             && PartHandled(m, inferred, fsid, hosts, hosts.Keys) && m'.Valid()
             && m' == inferred.(rel := Pruned(inferred.rel, fsid, "osd", OsdsInMap(fsid, hosts)))
    ensures forall other :: other != name ==> Stray(m', h, OsdId(fsid, other))
  {
    hide Inferred, HostsPlaced, ManagedStay, Known, AnyManaged, AllAt, Newcomers;
    var hosts: Hosts := map[g := map[name := true]];
    OneHost(fsid, g, name);
    var u := m.byHost[h];
    OneOsd(fsid, m.rel, inferred.rel, g, name);
    SecondHost(fsid, m, inferred, h, g, name);
    assert Deserted(inferred.rel, u) && !Deserted(m.rel, u);
  }

  // The only OSD of a map is the only one that is placed.
  lemma OneOsd(fsid: Fsid, rel: Relation, rel': Relation, g: string, name: string)
    requires Inferred(rel, rel', map[g := map[name := true]], fsid)
    requires forall id :: id in rel ==> id == OsdId(fsid, name)
    ensures forall id :: id in rel' ==> id == OsdId(fsid, name)
  {
    forall id | id in rel'
      ensures id == OsdId(fsid, name)
    {
      assert id in rel || MapPlaces(map[g := map[name := true]], fsid, id, rel'[id]);
    }
  }

  lemma SecondHost(fsid: Fsid, m: Roll, inferred: Roll, h: string, g: string, name: string)
    requires m.Valid() && OnlyOn(m, h, OsdId(fsid, name)) && m.byHost.Keys == {h} && g != h && inferred.Valid()
    requires var hosts: Hosts := map[g := map[name := true]];
             PartHandled(m, inferred, fsid, hosts, hosts.Keys)
    ensures OsdId(fsid, name) in inferred.rel && inferred.rel[OsdId(fsid, name)].server != m.byHost[h]
  {
    var hosts: Hosts := map[g := map[name := true]];
    OneHost(fsid, g, name);
    assert g in hosts.Keys && !AnyManaged(m, IdsOf(fsid, hosts, g));
    assert g in inferred.byHost;
    assert PlacedAt(inferred, fsid, hosts, g, OsdId(fsid, name));
  }

  // The first map goes through, whatever the order.
  lemma FirstAnswer(fsid: Fsid, m: Roll, a: Answer, h: string, name: string)
    requires m.Valid() && m.rel == map[] && m.byHost == map[] && m.servers == map[]
    requires Answers(OsdMap(fsid, map[h := map[name := true]]), m, a)
    ensures !a.raised && a.after.Valid() && OnlyOn(a.after, h, OsdId(fsid, name))
    ensures a.after.byHost.Keys == {h} && a.after.servers.Keys <= {h} && NewRegistered(m, a.after)
  {
    hide Steady, NewRegistered, StraysStay, NoneDoomed, Walked, PartHandled, OsdMapApplied, HostsPlaced, AllAt;
    hide OnlyOn, Separate;
    EmptyIsSteady(fsid, m, h, name);
    OneHost(fsid, h, name);
    FirstMap(fsid, m, a.halfway, a.after, h, name);
  }

  // So does the second, which leaves the first host's server struck off.
  lemma SecondAnswer(fsid: Fsid, m0: Roll, m: Roll, a: Answer, h: string, g: string, name: string)
    requires m0.byHost == map[] && m.Valid() && NewRegistered(m0, m) && g != h
    requires OnlyOn(m, h, OsdId(fsid, name)) && m.byHost.Keys == {h} && m.servers.Keys <= {h}
    requires Answers(OsdMap(fsid, map[g := map[name := true]]), m, a)
    ensures !a.raised && a.after.Valid() && forall other :: other != name ==> Stray(a.after, h, OsdId(fsid, other))
  {
    hide Steady, NewRegistered, StraysStay, NoneDoomed, Walked, PartHandled, OsdMapApplied, HostsPlaced, AllAt;
    hide OnlyOn, Separate, Stray;
    MoveIsSteady(fsid, m0, m, h, g, name);
    OneHost(fsid, g, name);
    SecondMap(fsid, m, a.halfway, a.after, h, g, name);
  }

  // And the third, with a new OSD on the first host, fails.
  lemma ThirdAnswer(fsid: Fsid, m: Roll, a: Answer, h: string, other: string)
    requires m.Valid() && Stray(m, h, OsdId(fsid, other))
    requires Answers(OsdMap(fsid, map[h := map[other := true]]), m, a)
    ensures a.raised
  {
    hide Steady, NewRegistered, StraysStay, NoneDoomed, Walked, PartHandled, OsdMapApplied, HostsPlaced, AllAt;
    hide Separate, Stray;
    IsDoomed(m, fsid, h, other);
  }

  // Three OSD maps of a cluster whose servers do not report themselves. The first has one OSD, on a
  // host. In the second it is on another host, so that the first host's server is struck off, but is
  // still found by its hostname. In the third there is a new OSD on the first host: its server is
  // found, but not registered, and the map fails.
  function StrayCalls(fsid: Fsid, h: string, g: string, name: string, other: string): seq<Call> {
    [OsdMap(fsid, map[h := map[name := true]]),
     OsdMap(fsid, map[g := map[name := true]]),
     OsdMap(fsid, map[h := map[other := true]])]
  }

  lemma StrayTrail(fsid: Fsid, h: string, g: string, name: string, other: string, trail: seq<Answer>)
    requires h != g && name != other
    requires IsTrail(StrayCalls(fsid, h, g, name, other), trail) && |trail| == 3
    ensures !trail[0].raised && !trail[1].raised && trail[2].raised
  {
    hide Answers, OnlyOn, NewRegistered, Stray, Roll.Valid;
    var calls := StrayCalls(fsid, h, g, name, other);
    var m := RollAt(trail, 0);
    assert Answers(calls[0], m, trail[0]) && RollAt(trail, 1) == trail[0].after;
    assert Answers(calls[1], trail[0].after, trail[1]) && RollAt(trail, 2) == trail[1].after;
    assert Answers(calls[2], trail[1].after, trail[2]);
    FirstAnswer(fsid, m, trail[0], h, name);
    SecondAnswer(fsid, m, trail[0].after, trail[1], h, g, name);
    ThirdAnswer(fsid, trail[1].after, trail[2], h, other);
  }

  method StrayHost(fsid: Fsid, h: string, g: string, name: string, other: string)
    returns (m: ServerMonitor, outcomes: seq<bool>, ghost trail: seq<Answer>)
    requires h != g && name != other
    ensures fresh(m) && m.Valid() && m.Roster() == RollAt(trail, |trail|)
    ensures IsTrail(StrayCalls(fsid, h, g, name, other), trail) && |trail| == |outcomes|
    ensures forall i :: 0 <= i < |trail| ==> outcomes[i] == trail[i].raised
    ensures outcomes == [false, false, true]
  {
    hide RollAt, Answers;
    m, outcomes, trail := ServeAll(StrayCalls(fsid, h, g, name, other));
    StrayTrail(fsid, h, g, name, other, trail);
  }

  lemma IsDoomed(m: Roll, fsid: Fsid, h: string, other: string)
    requires m.Valid() && Stray(m, h, OsdId(fsid, other))
    ensures var hosts: Hosts := map[h := map[other := true]]; !NoneDoomed(m, fsid, hosts, hosts.Keys)
  {
    var hosts: Hosts := map[h := map[other := true]];
    OneHost(fsid, h, other);
    assert Doomed(m, fsid, hosts, h, OsdId(fsid, other));
  }
}
