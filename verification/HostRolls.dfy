// What an OSD map does to the roll of servers, one CRUSH host after another: when it is bound to go
// through, and when it is bound to fail halfway.
module HostRolls {
  import opened Wrappers
  import opened Placements
  import opened Rolls

  // A server that reports itself.
  predicate Managed(m: Roll, s: ServerState) {
    s !in m.inferred
  }

  ghost predicate AnyManaged(m: Roll, ids: set<ServiceId>) {
    exists id :: id in ids && id in m.rel && Managed(m, m.rel[id].server)
  }

  // A host of the map that nobody knows, with an OSD of a managed server, is that server by
  // another name.
  ghost predicate IsAlias(m: Roll, h: string, ids: set<ServiceId>) {
    h !in m.byHost && AnyManaged(m, ids)
  }

  // A server that is made up for a host.
  function Injected(m: Roll, h: string, server: ServerState): Roll {
    Roll(m.servers[h := server], m.byHost[h := server], m.rel, m.fqdn[server := h], m.inferred + {server})
  }

  // The roll once the host has a server.
  predicate Hosted(m: Roll, h: string, server: ServerState, m1: Roll) {
    if h in m.byHost then m1 == m && server == m.byHost[h]
    else server !in m.fqdn && server.hostname == h && m1 == Injected(m, h, server)
  }

  lemma HostedValid(m: Roll, h: string, server: ServerState, m1: Roll)
    requires m.Valid() && Hosted(m, h, server, m1)
    ensures m1.Valid() && server in m1.fqdn && h in m1.byHost && m1.byHost[h] == server
    ensures m1.rel == m.rel && Grows(m, m1)
  {
  }

  // Servers are added, but none is renamed or forgotten.
  predicate Grows(m: Roll, m': Roll) {
    && (forall s :: s in m.fqdn ==> s in m'.fqdn && m'.fqdn[s] == m.fqdn[s] && (s in m'.inferred <==> s in m.inferred))
    && (forall h :: h in m.byHost ==> h in m'.byHost && m'.byHost[h] == m.byHost[h])
  }

  lemma GrowsOn(m: Roll, m1: Roll, m2: Roll)
    requires Grows(m, m1) && Grows(m1, m2)
    ensures Grows(m, m2)
  {
  }

  // One host of an OSD map has been dealt with. Only of servers that do not report themselves does
  // the map say what they hold.
  ghost predicate HostHandled(m: Roll, h: string, reports: map<ServiceId, Report>, server: ServerState, m1: Roll,
                              m': Roll, raised: bool)
    requires m.Valid()
  {
    if IsAlias(m, h, reports.Keys) then m' == m && !raised
    else
      && Hosted(m, h, server, m1) && m1.Valid() && server in m1.fqdn
      && if Managed(m1, server) then m' == m1 && !raised else RegistersAll(m1, server, reports, m', raised)
  }

  // ---------------------------------------------------------------- what every host leaves

  // The names of servers, the hosts, and the placements after any part of a map.
  ghost predicate Widens(m: Roll, m': Roll, ids: set<ServiceId>, hosts: set<string>) {
    && Grows(m, m')
    && (forall f :: f in m'.servers ==> f in m.servers || f in hosts)
    && (forall id :: id in m'.rel ==> id in m.rel || id in ids)
    && (forall h :: h in m'.byHost ==> h in m.byHost || h in hosts)
    && (forall f :: f in m'.servers && f in m.byHost ==> f in m.servers && m'.servers[f] == m.servers[f])
  }

  lemma HostWidens(m: Roll, h: string, reports: map<ServiceId, Report>, server: ServerState, m1: Roll, m': Roll,
                   raised: bool)
    requires m.Valid() && HostHandled(m, h, reports, server, m1, m', raised)
    ensures m'.Valid() && Widens(m, m', reports.Keys, {h})
  {
    if !IsAlias(m, h, reports.Keys) {
      HostedValid(m, h, server, m1);
      assert Widens(m, m1, reports.Keys, {h});
    }
  }

  // ---------------------------------------------------------------- maps that go through

  ghost function IdsOf(fsid: Fsid, hosts: Hosts, h: string): set<ServiceId>
    requires h in hosts
  {
    FromOsdMap(fsid, hosts[h]).Keys
  }

  // The host's server is managed or registered; or there is none, and the host's name is not taken.
  ghost predicate Findable(m: Roll, h: string)
    requires m.Valid()
  {
    if h in m.byHost then Managed(m, m.byHost[h]) || m.Registered(m.byHost[h])
    else h !in m.servers && forall id :: id in m.rel && !Managed(m, m.rel[id].server) ==> m.fqdn[m.rel[id].server] != h
  }

  // An OSD under a host is new, or on the host's server already, or comes from a managed server,
  // or from a registered one that the rest of the map says nothing of.
  ghost predicate MayMove(m: Roll, rest: set<string>, h: string, id: ServiceId)
    requires m.Valid()
  {
    id in m.rel && !Managed(m, m.rel[id].server) ==>
      var u := m.rel[id].server;
      || (h in m.byHost && m.byHost[h] == u)
      || (m.Registered(u) && forall g :: g in rest && g in m.byHost ==> m.byHost[g] != u)
  }

  ghost predicate SteadyHost(m: Roll, fsid: Fsid, hosts: Hosts, rest: set<string>, h: string)
    requires m.Valid() && h in hosts
  {
    Findable(m, h) && forall id :: id in IdsOf(fsid, hosts, h) ==> MayMove(m, rest, h, id)
  }

  ghost predicate Separate(fsid: Fsid, hosts: Hosts) {
    forall g, h :: g in hosts && h in hosts && g != h ==> IdsOf(fsid, hosts, g) !! IdsOf(fsid, hosts, h)
  }

  ghost predicate Steady(m: Roll, fsid: Fsid, hosts: Hosts, rest: set<string>)
    requires m.Valid()
  {
    m.Orderly() && forall h :: h in rest && h in hosts ==> SteadyHost(m, fsid, hosts, rest, h)
  }

  lemma HostedOrderly(m: Roll, fsid: Fsid, hosts: Hosts, rest: set<string>, h: string, server: ServerState, m1: Roll)
    requires m.Valid() && h in rest && h in hosts && Steady(m, fsid, hosts, rest) && Hosted(m, h, server, m1)
    requires !Managed(m1, server)
    ensures m1.Valid() && server in m1.fqdn && m1.Orderly() && m1.Registered(server)
    ensures !m1.Fails(server, IdsOf(fsid, hosts, h))
    ensures forall u :: u in m.fqdn && m.Registered(u) ==> u in m1.fqdn && m1.Registered(u)
  {
    HostedValid(m, h, server, m1);
    assert SteadyHost(m, fsid, hosts, rest, h);
    forall u | u in m1.inferred && u != server && m1.fqdn[u] !in m1.servers && !Deserted(m1.rel, u)
      ensures !m1.Stranded(u, IdsOf(fsid, hosts, h))
    {
      var id :| id in m1.rel && m1.rel[id].server == u;
      assert id in IdsOf(fsid, hosts, h) ==> MayMove(m, rest, h, id);
    }
  }

  // The services of a host have been moved to its server, and only who has lost the last one is
  // struck off.
  ghost predicate Moved(m1: Roll, server: ServerState, reports: map<ServiceId, Report>, m': Roll) {
    && m1.Valid() && m'.Valid() && server in m1.fqdn && SameServers(m1, m')
    && m'.rel == Reported(m1.rel, server, reports)
    && (forall f :: f in m'.servers ==> f in m1.servers && m'.servers[f] == m1.servers[f])
    && OnlyDeserted(m1, m', server)
  }

  lemma RegistersMoved(m1: Roll, server: ServerState, reports: map<ServiceId, Report>, m': Roll, raised: bool)
    requires m1.Valid() && server in m1.fqdn && m1.Orderly() && m1.Registered(server)
    requires !m1.Fails(server, reports.Keys) && RegistersAll(m1, server, reports, m', raised)
    ensures !raised && Moved(m1, server, reports, m') && m'.Orderly()
  {
  }

  // Who loses no service, or has none, stays registered.
  lemma StaysRegistered(m1: Roll, server: ServerState, reports: map<ServiceId, Report>, m': Roll, u: ServerState)
    requires Moved(m1, server, reports, m')
    requires u in m1.fqdn && m1.Registered(u) && (Deserted(m1.rel, u) || !Deserted(m'.rel, u))
    ensures m'.Registered(u)
  {
  }

  // The server of a host still to come loses nothing to this one.
  lemma LaterHostKeeps(m: Roll, fsid: Fsid, hosts: Hosts, rest: set<string>, h: string, server: ServerState, g: string)
    requires m.Valid() && h in hosts && SteadyHost(m, fsid, hosts, rest, h) && server.hostname == h
    requires g in rest && g in m.byHost && g != h && !Managed(m, m.byHost[g])
    ensures var u, rel' := m.byHost[g], Reported(m.rel, server, FromOsdMap(fsid, hosts[h]));
            Deserted(m.rel, u) || !Deserted(rel', u)
  {
    var u, rel' := m.byHost[g], Reported(m.rel, server, FromOsdMap(fsid, hosts[h]));
    if id :| id in m.rel && m.rel[id].server == u {
      assert id in IdsOf(fsid, hosts, h) ==> MayMove(m, rest, h, id);
      assert id in rel' && rel'[id].server == u;
    }
  }

  lemma LaterHostFindable(m: Roll, fsid: Fsid, hosts: Hosts, rest: set<string>, h: string, server: ServerState,
                          m1: Roll, m': Roll, g: string)
    requires m.Valid() && h in hosts && Hosted(m, h, server, m1) && !Managed(m1, server)
    requires SteadyHost(m, fsid, hosts, rest, h) && g in rest && g != h && Findable(m, g)
    requires Moved(m1, server, FromOsdMap(fsid, hosts[h]), m') && m1.Registered(server)
    requires forall u :: u in m.fqdn && m.Registered(u) ==> u in m1.fqdn && m1.Registered(u)
    ensures Findable(m', g)
  {
    hide MayMove, IdsOf, FromOsdMap;
    if g in m.byHost && !Managed(m, m.byHost[g]) {
      LaterHostKeeps(m, fsid, hosts, rest, h, server, g);
      StaysRegistered(m1, server, FromOsdMap(fsid, hosts[h]), m', m.byHost[g]);
    }
  }

  // Hosts other than this one, and servers that were there already, are as they were.
  ghost predicate OthersSame(m: Roll, m1: Roll, h: string) {
    && (forall g :: g != h ==> (g in m1.byHost <==> g in m.byHost) && (g in m.byHost ==> m1.byHost[g] == m.byHost[g]))
    && (forall u :: u in m.fqdn ==> u in m1.fqdn && m1.fqdn[u] == m.fqdn[u] && (u in m1.inferred <==> u in m.inferred))
    && m1.rel == m.rel
  }

  lemma LaterOsdMayMove(m: Roll, rest: set<string>, h: string, server: ServerState, m1: Roll,
                        reports: map<ServiceId, Report>, m': Roll, g: string, id: ServiceId)
    requires m.Valid() && id !in reports && g != h && MayMove(m, rest, g, id)
    requires OthersSame(m, m1, h) && Moved(m1, server, reports, m')
    requires forall u :: u in m.fqdn && m.Registered(u) ==> u in m1.fqdn && m1.Registered(u)
    ensures MayMove(m', rest - {h}, g, id)
  {
    if id in m'.rel && !Managed(m', m'.rel[id].server) {
      var u := m.rel[id].server;
      assert m'.rel[id] == m.rel[id];
      if m.Registered(u) {
        StaysRegistered(m1, server, reports, m', u);
      }
    }
  }

  lemma LaterOsdsMayMove(m: Roll, rest: set<string>, h: string, server: ServerState, m1: Roll,
                         reports: map<ServiceId, Report>, m': Roll, g: string, ids: set<ServiceId>)
    requires m.Valid() && ids !! reports.Keys && g != h && forall id :: id in ids ==> MayMove(m, rest, g, id)
    requires OthersSame(m, m1, h) && Moved(m1, server, reports, m')
    requires forall u :: u in m.fqdn && m.Registered(u) ==> u in m1.fqdn && m1.Registered(u)
    ensures forall id :: id in ids ==> MayMove(m', rest - {h}, g, id)
  {
    forall id | id in ids
      ensures MayMove(m', rest - {h}, g, id)
    {
      LaterOsdMayMove(m, rest, h, server, m1, reports, m', g, id);
    }
  }

  // A steady host is dealt with, and leaves the others steady.
  lemma SteadyHandled(m: Roll, fsid: Fsid, hosts: Hosts, rest: set<string>, h: string, server: ServerState, m1: Roll,
                      m': Roll, raised: bool)
    requires m.Valid() && Separate(fsid, hosts) && rest <= hosts.Keys && h in rest
    requires Steady(m, fsid, hosts, rest)
    requires HostHandled(m, h, FromOsdMap(fsid, hosts[h]), server, m1, m', raised)
    ensures !raised && m'.Valid() && Steady(m', fsid, hosts, rest - {h})
  {
    if !IsAlias(m, h, IdsOf(fsid, hosts, h)) && !Managed(m1, server) {
      HostedOrderly(m, fsid, hosts, rest, h, server, m1);
      RegistersMoved(m1, server, FromOsdMap(fsid, hosts[h]), m', raised);
      forall g | g in rest - {h}
        ensures SteadyHost(m', fsid, hosts, rest - {h}, g)
      {
        assert SteadyHost(m, fsid, hosts, rest, g);
        SteadyMoved(m, fsid, hosts, rest, h, server, m1, m', g);
      }
    } else {
      SteadyHosted(m, fsid, hosts, rest, h, server, m');
    }
  }

  lemma HostedSame(m: Roll, h: string, server: ServerState, m1: Roll)
    requires m.Valid() && Hosted(m, h, server, m1)
    ensures OthersSame(m, m1, h)
  {
  }

  lemma SteadyMoved(m: Roll, fsid: Fsid, hosts: Hosts, rest: set<string>, h: string, server: ServerState, m1: Roll,
                    m': Roll, g: string)
    requires m.Valid() && Separate(fsid, hosts) && h in rest && h in hosts && g in rest && g in hosts && g != h
    requires SteadyHost(m, fsid, hosts, rest, g) && SteadyHost(m, fsid, hosts, rest, h)
    requires Hosted(m, h, server, m1) && !Managed(m1, server)
    requires Moved(m1, server, FromOsdMap(fsid, hosts[h]), m') && m1.Registered(server)
    requires forall u :: u in m.fqdn && m.Registered(u) ==> u in m1.fqdn && m1.Registered(u)
    ensures SteadyHost(m', fsid, hosts, rest - {h}, g)
  {
    LaterHostFindable(m, fsid, hosts, rest, h, server, m1, m', g);
    HostedSame(m, h, server, m1);
    assert IdsOf(fsid, hosts, g) !! IdsOf(fsid, hosts, h);
    LaterOsdsMayMove(m, rest, h, server, m1, FromOsdMap(fsid, hosts[h]), m', g, IdsOf(fsid, hosts, g));
  }

  // A host that is an alias, or a managed server, changes nothing for the others.
  lemma SteadyHosted(m: Roll, fsid: Fsid, hosts: Hosts, rest: set<string>, h: string, server: ServerState, m': Roll)
    requires m.Valid() && Steady(m, fsid, hosts, rest)
    requires m' == m || (Hosted(m, h, server, m') && Managed(m', server))
    ensures m'.Valid() && Steady(m', fsid, hosts, rest - {h})
  {
    SteadySkipped(m, fsid, hosts, rest, h);
  }

  lemma SteadySkipped(m: Roll, fsid: Fsid, hosts: Hosts, rest: set<string>, h: string)
    requires m.Valid() && Steady(m, fsid, hosts, rest)
    ensures Steady(m, fsid, hosts, rest - {h})
  {
    forall g | g in rest - {h} && g in hosts
      ensures SteadyHost(m, fsid, hosts, rest - {h}, g)
    {
      assert SteadyHost(m, fsid, hosts, rest, g);
      forall id | id in IdsOf(fsid, hosts, g)
        ensures MayMove(m, rest - {h}, g, id)
      {
        assert MayMove(m, rest, g, id);
      }
    }
  }

  // ---------------------------------------------------------------- maps that fail

  // A host whose server has been struck off, and is still known by the host's name, and an OSD that
  // is registered nowhere.
  predicate Stray(m: Roll, h: string, id: ServiceId)
    requires m.Valid()
  {
    h in m.byHost && !Managed(m, m.byHost[h]) && m.fqdn[m.byHost[h]] == h && h !in m.servers && id !in m.rel
  }

  // Such a host stays so whatever other hosts have, and the OSD cannot be registered with it.
  lemma StrayHandled(m: Roll, g: string, id: ServiceId, h: string, reports: map<ServiceId, Report>,
                     server: ServerState, m1: Roll, m': Roll, raised: bool)
    requires m.Valid() && HostHandled(m, h, reports, server, m1, m', raised) && Stray(m, g, id)
    requires h != g ==> id !in reports
    ensures m'.Valid() && Stray(m', g, id)
    ensures h == g && id in reports ==> raised
  {
    HostWidens(m, h, reports, server, m1, m', raised);
  }

  // ---------------------------------------------------------------- who is struck off

  // An inferred server that has lost its last service to another one is not registered any more.
  ghost predicate StruckOff(m: Roll, m': Roll)
    requires m.Valid()
  {
    forall u :: u in m.inferred && !Deserted(m.rel, u) && Deserted(m'.rel, u) && m.fqdn[u] in m.byHost ==>
      m.fqdn[u] !in m'.servers
  }

  lemma StruckOffNext(m0: Roll, m: Roll, h: string, reports: map<ServiceId, Report>, server: ServerState,
                      m1: Roll, m': Roll)
    requires m0.Valid() && m.Valid() && Grows(m0, m) && StruckOff(m0, m)
    requires HostHandled(m, h, reports, server, m1, m', false)
    ensures StruckOff(m0, m')
  {
    HostWidens(m, h, reports, server, m1, m', false);
    forall u | u in m0.inferred && !Deserted(m0.rel, u) && Deserted(m'.rel, u) && m0.fqdn[u] in m0.byHost
      ensures m0.fqdn[u] !in m'.servers
    {
      if !Deserted(m.rel, u) {
        var i :| i in m.rel && m.rel[i].server == u;
        LostToAnother(m, h, reports, server, m1, m', u, i);
      }
    }
  }

  lemma LostToAnother(m: Roll, h: string, reports: map<ServiceId, Report>, server: ServerState, m1: Roll, m': Roll,
                      u: ServerState, i: ServiceId)
    requires m.Valid() && HostHandled(m, h, reports, server, m1, m', false)
    requires u in m.inferred && i in m.rel && m.rel[i].server == u && Deserted(m'.rel, u)
    ensures m.fqdn[u] !in m'.servers
  {
    assert !IsAlias(m, h, reports.Keys) && m1.rel == m.rel && !Deserted(m1.rel, u);
    assert i in m'.rel && m'.rel[i].server != u;
  }

  // ---------------------------------------------------------------- hosts are known afterwards

  // What is on managed servers has been there all along.
  ghost predicate ManagedStay(m: Roll, m': Roll) {
    forall id :: id in m'.rel && Managed(m', m'.rel[id].server) ==> id in m.rel && m.rel[id] == m'.rel[id]
  }

  // A host that is not known afterwards is another name of a managed server.
  ghost predicate Known(m: Roll, m': Roll, fsid: Fsid, hosts: Hosts, done: set<string>) {
    forall h :: h in done && h in hosts && h !in m'.byHost ==> AnyManaged(m, IdsOf(fsid, hosts, h))
  }

  lemma KnownNext(m0: Roll, m: Roll, fsid: Fsid, hosts: Hosts, done: set<string>, h: string, server: ServerState,
                  m1: Roll, m': Roll)
    requires m0.Valid() && m.Valid() && h in hosts && Grows(m0, m)
    requires ManagedStay(m0, m) && Known(m0, m, fsid, hosts, done)
    requires HostHandled(m, h, FromOsdMap(fsid, hosts[h]), server, m1, m', false)
    ensures ManagedStay(m0, m') && Known(m0, m', fsid, hosts, done + {h})
  {
    var ids := IdsOf(fsid, hosts, h);
    if IsAlias(m, h, ids) {
      var id :| id in ids && id in m.rel && Managed(m, m.rel[id].server);
      assert id in m0.rel && m0.rel[id] == m.rel[id];
    } else {
      HostedPlaces(m, h, FromOsdMap(fsid, hosts[h]), server, m1, m');
      HostedManagedStay(m0, m, h, FromOsdMap(fsid, hosts[h]), server, m1, m');
    }
  }

  lemma HostedManagedStay(m0: Roll, m: Roll, h: string, reports: map<ServiceId, Report>, server: ServerState,
                          m1: Roll, m': Roll)
    requires m.Valid() && m1.Valid() && ManagedStay(m0, m) && Hosted(m, h, server, m1) && SameServers(m1, m')
    requires m'.rel == if Managed(m1, server) then m1.rel else Reported(m1.rel, server, reports)
    ensures ManagedStay(m0, m') && h in m'.byHost && Grows(m, m')
  {
  }

  lemma HostedPlaces(m: Roll, h: string, reports: map<ServiceId, Report>, server: ServerState, m1: Roll, m': Roll)
    requires m.Valid() && !IsAlias(m, h, reports.Keys) && HostHandled(m, h, reports, server, m1, m', false)
    ensures Hosted(m, h, server, m1) && m'.Valid() && SameServers(m1, m')
    ensures m'.rel == if Managed(m1, server) then m1.rel else Reported(m1.rel, server, reports)
  {
  }

  // ---------------------------------------------------------------- the whole map

  // The same of a host, its server being the one that it is known by afterwards.
  ghost predicate HandledHost(m: Roll, h: string, reports: map<ServiceId, Report>, m': Roll, raised: bool)
    requires m.Valid()
  {
    if IsAlias(m, h, reports.Keys) then m' == m && !raised
    else h in m'.byHost && HostHandled(m, h, reports, m'.byHost[h], HostedRoll(m, h, m'.byHost[h]), m', raised)
  }

  function HostedRoll(m: Roll, h: string, server: ServerState): Roll {
    if h in m.byHost then m else Injected(m, h, server)
  }

  lemma AliasHandled(m: Roll, h: string, reports: map<ServiceId, Report>)
    requires m.Valid() && IsAlias(m, h, reports.Keys)
    ensures HandledHost(m, h, reports, m, false)
  {
  }

  lemma OthersHandled(m: Roll, h: string, reports: map<ServiceId, Report>, server: ServerState, m1: Roll, m': Roll,
                      raised: bool)
    requires m.Valid() && m1.Valid() && !IsAlias(m, h, reports.Keys) && Hosted(m, h, server, m1) && server in m1.fqdn
    requires if Managed(m1, server) then m' == m1 && !raised else RegistersAll(m1, server, reports, m', raised)
    ensures HandledHost(m, h, reports, m', raised)
  {
    HostedValid(m, h, server, m1);
  }

  // Every host of the map that is an unmanaged server has all its OSDs as the map says.
  ghost predicate HostsPlaced(m: Roll, hosts: Hosts, fsid: Fsid, some: set<string>) {
    forall h :: h in some && h in hosts && h in m.byHost && !Managed(m, m.byHost[h]) ==>
      AllPlaced(m.rel, hosts, fsid, h)
  }

  // Only this host has the OSD.
  ghost predicate OnlyUnder(fsid: Fsid, hosts: Hosts, g: string, id: ServiceId) {
    forall h :: h in hosts && id in IdsOf(fsid, hosts, h) ==> h == g
  }

  // The map leaves no other way than to fail, or to leave its OSDs unregistered.
  ghost predicate StraysStay(m0: Roll, m: Roll, fsid: Fsid, hosts: Hosts)
    requires m0.Valid() && m.Valid()
  {
    forall g, id :: Stray(m0, g, id) && OnlyUnder(fsid, hosts, g, id) ==> Stray(m, g, id)
  }

  // The map has an OSD that is bound to fail, under this host and no other.
  ghost predicate Doomed(m: Roll, fsid: Fsid, hosts: Hosts, g: string, id: ServiceId)
    requires m.Valid()
  {
    g in hosts && id in IdsOf(fsid, hosts, g) && Stray(m, g, id) && OnlyUnder(fsid, hosts, g, id)
  }

  ghost predicate NoneDoomed(m: Roll, fsid: Fsid, hosts: Hosts, some: set<string>)
    requires m.Valid()
  {
    forall g, id :: g in some ==> !Doomed(m, fsid, hosts, g, id)
  }

  // New hosts are hosts of the map, and their servers are inferred and named after them.
  ghost predicate Newcomers(m0: Roll, m: Roll, hosts: set<string>)
    requires m.Valid()
  {
    && (forall f :: f in m.servers ==> f in m0.servers || f in hosts)
    && (forall h :: h in m.byHost && h !in m0.byHost ==>
          h in hosts && !Managed(m, m.byHost[h]) && m.fqdn[m.byHost[h]] == h)
  }

  // An OSD that only this host has is on the host's server, unless that one reports itself.
  ghost predicate PlacedAt(m: Roll, fsid: Fsid, hosts: Hosts, h: string, id: ServiceId) {
    h in m.byHost && !Managed(m, m.byHost[h]) ==> id in m.rel && m.rel[id].server == m.byHost[h]
  }

  ghost predicate AllAt(m: Roll, fsid: Fsid, hosts: Hosts, done: set<string>) {
    forall h, id :: h in done && h in hosts && id in IdsOf(fsid, hosts, h) && OnlyUnder(fsid, hosts, h, id) ==>
      PlacedAt(m, fsid, hosts, h, id)
  }

  // A server that was made up for a host, and holds services, is registered.
  ghost predicate NewRegistered(m0: Roll, m: Roll)
    requires m.Valid()
  {
    forall h :: h in m.byHost && h !in m0.byHost ==> Deserted(m.rel, m.byHost[h]) || m.Registered(m.byHost[h])
  }

  // What is so after some hosts of a map, none of which failed.
  ghost predicate PartHandled(m0: Roll, m: Roll, fsid: Fsid, hosts: Hosts, done: set<string>)
    requires m0.Valid()
  {
    && m.Valid() && Grows(m0, m)
    && Inferred(m0.rel, m.rel, hosts, fsid) && HostsPlaced(m, hosts, fsid, done)
    && ManagedStay(m0, m) && Known(m0, m, fsid, hosts, done)
    && StruckOff(m0, m)
    && Newcomers(m0, m, hosts.Keys) && AllAt(m, fsid, hosts, done)
  }

  // ---------------------------------------------------------------- where every OSD ends up

  // The map says nothing of this host's OSDs: its server reports itself; or nobody knows the host, and
  // one of its OSDs is on a server that does.
  ghost predicate LeftAlone(m: Roll, fsid: Fsid, hosts: Hosts, h: string)
    requires h in hosts
  {
    if h in m.byHost then m.byHost[h] !in m.inferred
    else exists name :: name in hosts[h] && var id := ServiceId(fsid, "osd", name);
                        id in m.rel && m.rel[id].server !in m.inferred
  }

  ghost predicate SamePlace(m0: Roll, m: Roll, id: ServiceId) {
    (id in m.rel <==> id in m0.rel) && (id in m.rel ==> m.rel[id] == m0.rel[id])
  }

  // The host's OSDs are where they were, if it is left alone, or has not been dealt with; otherwise they
  // are all on its server, and up or down as the map says.
  ghost predicate HostSettled(m0: Roll, m: Roll, fsid: Fsid, hosts: Hosts, h: string, dealtWith: bool)
    requires h in hosts
  {
    if dealtWith && !LeftAlone(m0, fsid, hosts, h) then
      && h in m.byHost
      && forall name :: name in hosts[h] ==>
           var id := ServiceId(fsid, "osd", name);
           id in m.rel && m.rel[id] == Placement(m.byHost[h], hosts[h][name], None)
    else
      && (h in m.byHost <==> h in m0.byHost)
      && forall name :: name in hosts[h] ==> SamePlace(m0, m, ServiceId(fsid, "osd", name))
  }

  ghost predicate Settled(m0: Roll, m: Roll, fsid: Fsid, hosts: Hosts, done: set<string>) {
    Separate(fsid, hosts) ==> forall h :: h in hosts ==> HostSettled(m0, m, fsid, hosts, h, h in done)
  }

  lemma NothingSettled(m: Roll, fsid: Fsid, hosts: Hosts)
    ensures Settled(m, m, fsid, hosts, {})
  {
  }

  lemma ReportOf(fsid: Fsid, hosts: Hosts, h: string, name: string)
    requires h in hosts && name in hosts[h]
    ensures var id, reports := ServiceId(fsid, "osd", name), FromOsdMap(fsid, hosts[h]);
            id in reports && reports[id] == Report(hosts[h][name], None) && id in IdsOf(fsid, hosts, h)
  {
  }

  lemma IdsAreOsds(fsid: Fsid, hosts: Hosts, h: string, id: ServiceId)
    requires h in hosts && id in IdsOf(fsid, hosts, h)
    ensures id.name in hosts[h] && id == ServiceId(fsid, "osd", id.name)
  {
  }

  // Until it is dealt with, a host is left alone if and only if it was to be from the start.
  lemma StillLeftAlone(m0: Roll, m: Roll, fsid: Fsid, hosts: Hosts, h: string)
    requires m0.Valid() && m.Valid() && Grows(m0, m) && h in hosts && HostSettled(m0, m, fsid, hosts, h, false)
    ensures LeftAlone(m0, fsid, hosts, h)
       <==> IsAlias(m, h, IdsOf(fsid, hosts, h)) || (h in m.byHost && Managed(m, m.byHost[h]))
  {
    forall name | name in hosts[h]
      ensures var id := ServiceId(fsid, "osd", name);
              id in m0.rel && m0.rel[id].server !in m0.inferred <==> id in m.rel && m.rel[id].server !in m.inferred
    {
      assert SamePlace(m0, m, ServiceId(fsid, "osd", name));
    }
    if h !in m.byHost {
      if LeftAlone(m0, fsid, hosts, h) {
        var name :| name in hosts[h] && var id := ServiceId(fsid, "osd", name);
                    id in m0.rel && m0.rel[id].server !in m0.inferred;
        ReportOf(fsid, hosts, h, name);
      }
      if IsAlias(m, h, IdsOf(fsid, hosts, h)) {
        var id :| id in IdsOf(fsid, hosts, h) && id in m.rel && Managed(m, m.rel[id].server);
        IdsAreOsds(fsid, hosts, h, id);
      }
    }
  }

  lemma HostSettles(m0: Roll, m: Roll, fsid: Fsid, hosts: Hosts, h: string, m': Roll)
    requires m0.Valid() && m.Valid() && Grows(m0, m) && h in hosts && HostSettled(m0, m, fsid, hosts, h, false)
    requires HandledHost(m, h, FromOsdMap(fsid, hosts[h]), m', false)
    ensures HostSettled(m0, m', fsid, hosts, h, true)
  {
    hide LeftAlone, FromOsdMap, Trimmed, OnlyDeserted, PartReported, Roll.Fails;
    StillLeftAlone(m0, m, fsid, hosts, h);
    if !LeftAlone(m0, fsid, hosts, h) {
      forall name | name in hosts[h]
        ensures var id := ServiceId(fsid, "osd", name);
                id in m'.rel && m'.rel[id] == Placement(m'.byHost[h], hosts[h][name], None)
      {
        ReportOf(fsid, hosts, h, name);
      }
    }
  }

  // What a host does not have is where it was, and other hosts have the servers that they had.
  lemma HandledElsewhere(m: Roll, h: string, reports: map<ServiceId, Report>, m': Roll)
    requires m.Valid() && HandledHost(m, h, reports, m', false)
    ensures forall id :: id !in reports ==> SamePlace(m, m', id)
    ensures forall g :: g != h ==>
              (g in m'.byHost <==> g in m.byHost) && (g in m.byHost ==> m'.byHost[g] == m.byHost[g])
  {
    hide HostHandled, RegistersAll, Roll.Valid;
    if !IsAlias(m, h, reports.Keys) {
      HostedPlaces(m, h, reports, m'.byHost[h], HostedRoll(m, h, m'.byHost[h]), m');
    }
  }

  lemma OthersSettled(m0: Roll, m: Roll, fsid: Fsid, hosts: Hosts, h: string, m': Roll, g: string, dealtWith: bool)
    requires m.Valid() && Separate(fsid, hosts) && h in hosts && g in hosts && g != h
    requires HostSettled(m0, m, fsid, hosts, g, dealtWith)
    requires HandledHost(m, h, FromOsdMap(fsid, hosts[h]), m', false)
    ensures HostSettled(m0, m', fsid, hosts, g, dealtWith)
  {
    hide LeftAlone, FromOsdMap, HandledHost;
    HandledElsewhere(m, h, FromOsdMap(fsid, hosts[h]), m');
    forall name | name in hosts[g]
      ensures SamePlace(m, m', ServiceId(fsid, "osd", name))
    {
      ReportOf(fsid, hosts, g, name);
      assert ServiceId(fsid, "osd", name) !in IdsOf(fsid, hosts, h);
    }
  }

  lemma SettledNext(m0: Roll, m: Roll, fsid: Fsid, hosts: Hosts, done: set<string>, h: string, m': Roll)
    requires m0.Valid() && m.Valid() && Grows(m0, m) && h in hosts && h !in done && Settled(m0, m, fsid, hosts, done)
    requires HandledHost(m, h, FromOsdMap(fsid, hosts[h]), m', false)
    ensures Settled(m0, m', fsid, hosts, done + {h})
  {
    hide HostSettled, HandledHost;
    if Separate(fsid, hosts) {
      HostSettles(m0, m, fsid, hosts, h, m');
      forall g | g in hosts && g != h
        ensures HostSettled(m0, m', fsid, hosts, g, g in done + {h})
      {
        OthersSettled(m0, m, fsid, hosts, h, m', g, g in done);
      }
    }
  }

  // The OSDs that the map has stay where they are when the others are forgotten.
  lemma SettledPruned(m0: Roll, m: Roll, fsid: Fsid, hosts: Hosts, m': Roll)
    requires m' == m.(rel := Pruned(m.rel, fsid, "osd", OsdsInMap(fsid, hosts)))
    requires Settled(m0, m, fsid, hosts, hosts.Keys)
    ensures Settled(m0, m', fsid, hosts, hosts.Keys)
  {
    forall h, name | h in hosts && name in hosts[h]
      ensures SamePlace(m, m', ServiceId(fsid, "osd", name))
    {
      assert ServiceId(fsid, "osd", name) in OsdsInMap(fsid, hosts);
    }
    if Separate(fsid, hosts) {
      forall h | h in hosts
        ensures HostSettled(m0, m', fsid, hosts, h, true)
      {
        assert HostSettled(m0, m, fsid, hosts, h, true);
      }
    }
  }

  // A host that fails has no server forgotten or renamed, and leaves no OSD but where it was or as the
  // map says.
  lemma FailedHostPlaces(m0: Roll, m: Roll, fsid: Fsid, hosts: Hosts, done: set<string>, h: string, m': Roll)
    requires m0.Valid() && m.Valid() && PartHandled(m0, m, fsid, hosts, done) && h in hosts
    requires HandledHost(m, h, FromOsdMap(fsid, hosts[h]), m', true)
    ensures m'.Valid() && Grows(m0, m') && Inferred(m0.rel, m'.rel, hosts, fsid)
  {
    hide StruckOff, Known, ManagedStay, Newcomers, AllAt, HostsPlaced, Inferred, FromOsdMap, Reported;
    var reports, server := FromOsdMap(fsid, hosts[h]), m'.byHost[h];
    var m1 := HostedRoll(m, h, server);
    HostedValid(m, h, server, m1);
    GrowsOn(m0, m, m1);
    var some: map<ServiceId, Report> :|
      some.Items <= reports.Items && m'.rel == Reported(m1.rel, server, some);
    InferredPart(m0.rel, m.rel, hosts, fsid, h, server, some);
    GrowsOn(m0, m1, m');
  }

  lemma PartGrows(m0: Roll, m: Roll, fsid: Fsid, hosts: Hosts, done: set<string>)
    requires m0.Valid() && PartHandled(m0, m, fsid, hosts, done)
    ensures Grows(m0, m)
  {
  }

  // Maps that are bound to go through still are, and so are those that are bound to fail.
  ghost predicate Predicted(m0: Roll, m: Roll, fsid: Fsid, hosts: Hosts, done: set<string>)
    requires m0.Valid() && m.Valid()
  {
    && StraysStay(m0, m, fsid, hosts) && NoneDoomed(m0, fsid, hosts, done)
    && (Separate(fsid, hosts) && Steady(m0, fsid, hosts, hosts.Keys) ==>
          Steady(m, fsid, hosts, hosts.Keys - done) && NewRegistered(m0, m))
  }

  lemma NothingHandled(m: Roll, fsid: Fsid, hosts: Hosts)
    requires m.Valid()
    ensures PartHandled(m, m, fsid, hosts, {}) && Predicted(m, m, fsid, hosts, {})
  {
    assert hosts.Keys - {} == hosts.Keys;
  }

  lemma PredictedStay(m0: Roll, m: Roll, fsid: Fsid, hosts: Hosts, done: set<string>)
    requires m0.Valid() && m.Valid() && Predicted(m0, m, fsid, hosts, done)
    ensures StraysStay(m0, m, fsid, hosts) && NoneDoomed(m0, fsid, hosts, done)
    ensures Separate(fsid, hosts) && Steady(m0, fsid, hosts, hosts.Keys) ==> NewRegistered(m0, m)
  {
  }

  // Forgetting the OSDs that the map does not have changes nothing of this.
  lemma PartPruned(m0: Roll, m: Roll, fsid: Fsid, hosts: Hosts, m': Roll)
    requires m0.Valid() && m.Valid() && PartHandled(m0, m, fsid, hosts, hosts.Keys) && StraysStay(m0, m, fsid, hosts)
    requires m' == m.(rel := Pruned(m.rel, fsid, "osd", OsdsInMap(fsid, hosts)))
    ensures m'.Valid() && StraysStay(m0, m', fsid, hosts)
    ensures OsdMapApplied(m0.rel, m'.rel, hosts, fsid) && HostsPlaced(m', hosts, fsid, hosts.Keys)
    ensures NewRegistered(m0, m) ==> NewRegistered(m0, m')
    ensures AllAt(m', fsid, hosts, hosts.Keys)
  {
    hide StruckOff, Known, ManagedStay, Inferred, Newcomers;
    PrunedInferred(m0.rel, m.rel, hosts, fsid);
    StraysPruned(m0, m, fsid, hosts, m');
    AllAtPruned(m, fsid, hosts, m');
  }

  lemma StraysPruned(m0: Roll, m: Roll, fsid: Fsid, hosts: Hosts, m': Roll)
    requires m0.Valid() && m.Valid() && m' == m.(rel := Pruned(m.rel, fsid, "osd", OsdsInMap(fsid, hosts)))
    requires StraysStay(m0, m, fsid, hosts)
    ensures m'.Valid() && StraysStay(m0, m', fsid, hosts)
    ensures NewRegistered(m0, m) ==> NewRegistered(m0, m')
  {
  }

  lemma AllAtPruned(m: Roll, fsid: Fsid, hosts: Hosts, m': Roll)
    requires m' == m.(rel := Pruned(m.rel, fsid, "osd", OsdsInMap(fsid, hosts)))
    requires AllAt(m, fsid, hosts, hosts.Keys)
    ensures AllAt(m', fsid, hosts, hosts.Keys)
  {
    forall h, id | h in hosts && id in IdsOf(fsid, hosts, h) && OnlyUnder(fsid, hosts, h, id)
      ensures PlacedAt(m', fsid, hosts, h, id)
    {
      assert PlacedAt(m, fsid, hosts, h, id);
    }
  }

  lemma PartHandledNext(m0: Roll, m: Roll, fsid: Fsid, hosts: Hosts, done: set<string>, h: string, m': Roll)
    requires m0.Valid() && PartHandled(m0, m, fsid, hosts, done) && h in hosts
    requires HandledHost(m, h, FromOsdMap(fsid, hosts[h]), m', false)
    ensures PartHandled(m0, m', fsid, hosts, done + {h})
  {
    hide Inferred, HostsPlaced, ManagedStay, Known, StruckOff, Newcomers, AllAt, AnyManaged, RegistersAll;
    hide Grows;
    var reports := FromOsdMap(fsid, hosts[h]);
    if IsAlias(m, h, reports.Keys) {
      AliasKnown(m0, m, fsid, hosts, done, h);
      AliasPlaced(m, fsid, hosts, done, h);
    } else {
      var server := m'.byHost[h];
      var m1 := HostedRoll(m, h, server);
      HostWidens(m, h, reports, server, m1, m', false);
      KnownNext(m0, m, fsid, hosts, done, h, server, m1, m');
      StruckOffNext(m0, m, h, reports, server, m1, m');
      HostedPlaces(m, h, reports, server, m1, m');
      HostedValid(m, h, server, m1);
      PlacedNext(m0, m, fsid, hosts, done, h, server, m1, m');
      AllAtNext(m, fsid, hosts, done, h, server, m1, m');
      NewcomersNext(m0, m, hosts.Keys, h, reports, server, m1, m');
      GrowsOn(m0, m, m');
    }
  }

  lemma AllAtNext(m: Roll, fsid: Fsid, hosts: Hosts, done: set<string>, h: string, server: ServerState,
                  m1: Roll, m': Roll)
    requires m.Valid() && m1.Valid() && h in hosts && Hosted(m, h, server, m1) && SameServers(m1, m')
    requires m'.rel == if Managed(m1, server) then m1.rel else Reported(m1.rel, server, FromOsdMap(fsid, hosts[h]))
    requires AllAt(m, fsid, hosts, done)
    ensures AllAt(m', fsid, hosts, done + {h})
  {
    HostedSame(m, h, server, m1);
    forall g, id | g in done + {h} && g in hosts && id in IdsOf(fsid, hosts, g) && OnlyUnder(fsid, hosts, g, id)
      ensures PlacedAt(m', fsid, hosts, g, id)
    {
      if g != h {
        assert PlacedAt(m, fsid, hosts, g, id);
        assert id !in IdsOf(fsid, hosts, h);
      }
    }
  }

  lemma NewcomersNext(m0: Roll, m: Roll, hosts: set<string>, h: string, reports: map<ServiceId, Report>,
                      server: ServerState, m1: Roll, m': Roll)
    requires m.Valid() && h in hosts && Newcomers(m0, m, hosts)
    requires HostHandled(m, h, reports, server, m1, m', false) && !IsAlias(m, h, reports.Keys)
    ensures m'.Valid() && Newcomers(m0, m', hosts)
  {
    HostedValid(m, h, server, m1);
    HostedPlaces(m, h, reports, server, m1, m');
    assert forall f :: f in m'.servers ==> f in m1.servers;
    hide HostHandled, RegistersAll, Reported;
    HostedNewcomers(m0, m, hosts, h, server, m1);
  }

  lemma HostedNewcomers(m0: Roll, m: Roll, hosts: set<string>, h: string, server: ServerState, m1: Roll)
    requires m.Valid() && m1.Valid() && h in hosts && Newcomers(m0, m, hosts) && Hosted(m, h, server, m1)
    ensures Newcomers(m0, m1, hosts)
  {
    HostedSame(m, h, server, m1);
    forall g | g in m1.byHost && g !in m0.byHost
      ensures g in hosts && !Managed(m1, m1.byHost[g]) && m1.fqdn[m1.byHost[g]] == g
    {
      if g in m.byHost {
        assert m1.byHost[g] == m.byHost[g];
      }
    }
  }

  lemma AliasKnown(m0: Roll, m: Roll, fsid: Fsid, hosts: Hosts, done: set<string>, h: string)
    requires m0.Valid() && m.Valid() && h in hosts && Grows(m0, m)
    requires ManagedStay(m0, m) && Known(m0, m, fsid, hosts, done) && AnyManaged(m, IdsOf(fsid, hosts, h))
    ensures Known(m0, m, fsid, hosts, done + {h})
  {
    var id :| id in IdsOf(fsid, hosts, h) && id in m.rel && Managed(m, m.rel[id].server);
    assert id in m0.rel && m0.rel[id] == m.rel[id];
  }

  // Of a host that has no server nothing is said.
  lemma AliasPlaced(m: Roll, fsid: Fsid, hosts: Hosts, done: set<string>, h: string)
    requires h !in m.byHost && HostsPlaced(m, hosts, fsid, done) && AllAt(m, fsid, hosts, done)
    ensures HostsPlaced(m, hosts, fsid, done + {h}) && AllAt(m, fsid, hosts, done + {h})
  {
    forall g, id | g in done + {h} && g in hosts && id in IdsOf(fsid, hosts, g) && OnlyUnder(fsid, hosts, g, id)
      ensures PlacedAt(m, fsid, hosts, g, id)
    {
    }
  }

  lemma PlacedNext(m0: Roll, m: Roll, fsid: Fsid, hosts: Hosts, done: set<string>, h: string, server: ServerState,
                   m1: Roll, m': Roll)
    requires m.Valid() && m1.Valid() && h in hosts && Hosted(m, h, server, m1) && SameServers(m1, m')
    requires m'.rel == if Managed(m1, server) then m1.rel else Reported(m1.rel, server, FromOsdMap(fsid, hosts[h]))
    requires Inferred(m0.rel, m.rel, hosts, fsid) && HostsPlaced(m, hosts, fsid, done)
    ensures Inferred(m0.rel, m'.rel, hosts, fsid) && HostsPlaced(m', hosts, fsid, done + {h})
  {
    hide AllPlaced, Inferred, Reported;
    HostedSame(m, h, server, m1);
    assert m1.rel == m.rel && server.hostname == h;
    InferredOneMore(m0.rel, m.rel, hosts, fsid, h, server);
    forall g | g in done + {h} && g in hosts && g in m'.byHost && !Managed(m', m'.byHost[g])
      ensures AllPlaced(m'.rel, hosts, fsid, g)
    {
      if g == h {
        assert m'.byHost[g] == server && !Managed(m1, server);
      } else {
        assert g in m.byHost && !Managed(m, m.byHost[g]) && AllPlaced(m.rel, hosts, fsid, g);
      }
    }
  }

  lemma PredictedNext(m0: Roll, m: Roll, fsid: Fsid, hosts: Hosts, done: set<string>, h: string, m': Roll, raised: bool)
    requires m0.Valid() && m.Valid() && Predicted(m0, m, fsid, hosts, done) && h in hosts && h !in done
    requires HandledHost(m, h, FromOsdMap(fsid, hosts[h]), m', raised)
    ensures m'.Valid() && StraysStay(m0, m', fsid, hosts)
    ensures raised ==> !(Separate(fsid, hosts) && Steady(m0, fsid, hosts, hosts.Keys))
    ensures !raised ==> Predicted(m0, m', fsid, hosts, done + {h})
  {
    var reports := FromOsdMap(fsid, hosts[h]);
    var server := if IsAlias(m, h, reports.Keys) then PickServer(m, reports.Keys) else m'.byHost[h];
    var m1 := HostedRoll(m, h, server);
    assert HostHandled(m, h, reports, server, m1, m', raised);
    StraysNext(m0, m, fsid, hosts, done, h, server, m1, m', raised);
    SteadyNext(m0, m, fsid, hosts, done, h, server, m1, m', raised);
  }

  lemma SteadyNext(m0: Roll, m: Roll, fsid: Fsid, hosts: Hosts, done: set<string>, h: string, server: ServerState,
                   m1: Roll, m': Roll, raised: bool)
    requires m0.Valid() && m.Valid() && m'.Valid() && h in hosts && h !in done
    requires Separate(fsid, hosts) && Steady(m0, fsid, hosts, hosts.Keys) ==>
               Steady(m, fsid, hosts, hosts.Keys - done) && NewRegistered(m0, m)
    requires HostHandled(m, h, FromOsdMap(fsid, hosts[h]), server, m1, m', raised)
    ensures Separate(fsid, hosts) && Steady(m0, fsid, hosts, hosts.Keys) ==>
              !raised && Steady(m', fsid, hosts, hosts.Keys - (done + {h})) && NewRegistered(m0, m')
  {
    hide Separate, Steady, NewRegistered, HostHandled;
    if Separate(fsid, hosts) && Steady(m0, fsid, hosts, hosts.Keys) {
      NewRegisteredNext(m0, m, fsid, hosts, hosts.Keys - done, h, server, m1, m', raised);
      SteadyHandled(m, fsid, hosts, hosts.Keys - done, h, server, m1, m', raised);
      assert hosts.Keys - done - {h} == hosts.Keys - (done + {h});
    }
  }

  lemma StraysNext(m0: Roll, m: Roll, fsid: Fsid, hosts: Hosts, done: set<string>, h: string, server: ServerState,
                   m1: Roll, m': Roll, raised: bool)
    requires m0.Valid() && m.Valid() && m'.Valid() && StraysStay(m0, m, fsid, hosts) && h in hosts
    requires HostHandled(m, h, FromOsdMap(fsid, hosts[h]), server, m1, m', raised)
    ensures StraysStay(m0, m', fsid, hosts)
    ensures !raised && NoneDoomed(m0, fsid, hosts, done) ==> NoneDoomed(m0, fsid, hosts, done + {h})
  {
    forall g, id | Stray(m0, g, id) && OnlyUnder(fsid, hosts, g, id)
      ensures Stray(m', g, id)
    {
      StrayHandled(m, g, id, h, FromOsdMap(fsid, hosts[h]), server, m1, m', raised);
    }
    forall id | Doomed(m0, fsid, hosts, h, id)
      ensures raised
    {
      StrayHandled(m, h, id, h, FromOsdMap(fsid, hosts[h]), server, m1, m', raised);
    }
  }

  lemma NewRegisteredNext(m0: Roll, m: Roll, fsid: Fsid, hosts: Hosts, rest: set<string>, h: string,
                          server: ServerState, m1: Roll, m': Roll, raised: bool)
    requires m0.Valid() && m.Valid() && m'.Valid() && h in hosts && h in rest
    requires Steady(m, fsid, hosts, rest) && NewRegistered(m0, m)
    requires HostHandled(m, h, FromOsdMap(fsid, hosts[h]), server, m1, m', raised)
    ensures NewRegistered(m0, m')
  {
    if !IsAlias(m, h, IdsOf(fsid, hosts, h)) {
      HostedValid(m, h, server, m1);
      if !Managed(m1, server) {
        HostedOrderly(m, fsid, hosts, rest, h, server, m1);
        RegistersMoved(m1, server, FromOsdMap(fsid, hosts[h]), m', raised);
        NewRegisteredMoved(m0, m, h, server, m1, FromOsdMap(fsid, hosts[h]), m');
      }
    }
  }

  lemma NewRegisteredMoved(m0: Roll, m: Roll, h: string, server: ServerState, m1: Roll,
                           reports: map<ServiceId, Report>, m': Roll)
    requires m0.Valid() && m.Valid() && NewRegistered(m0, m) && Hosted(m, h, server, m1)
    requires Moved(m1, server, reports, m') && m1.Registered(server)
    requires forall u :: u in m.fqdn && m.Registered(u) ==> u in m1.fqdn && m1.Registered(u)
    ensures NewRegistered(m0, m')
  {
    HostedSame(m, h, server, m1);
    forall g | g in m'.byHost && g !in m0.byHost && !Deserted(m'.rel, m'.byHost[g])
      ensures m'.Registered(m'.byHost[g])
    {
      var u := m'.byHost[g];
      if u != server {
        assert g in m.byHost && m.byHost[g] == u;
        StillHolds(m1, server, reports, m', u);
      }
      StaysRegistered(m1, server, reports, m', u);
    }
  }

  // Nobody but the host's server gains a service.
  lemma StillHolds(m1: Roll, server: ServerState, reports: map<ServiceId, Report>, m': Roll, u: ServerState)
    requires Moved(m1, server, reports, m') && u != server && !Deserted(m'.rel, u)
    ensures !Deserted(m1.rel, u)
  {
    var i :| i in m'.rel && m'.rel[i].server == u;
    assert i in m1.rel && m1.rel[i].server == u;
  }

  ghost function PickServer(m: Roll, ids: set<ServiceId>): ServerState
    requires AnyManaged(m, ids)
  {
    var id :| id in ids && id in m.rel && Managed(m, m.rel[id].server);
    m.rel[id].server
  }
}
