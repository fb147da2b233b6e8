// When an OSD map fails, given the order in which its hosts are walked: said of the roll of servers
// before the map, if names are in order.
module HostOrders {
  import opened Placements
  import opened Rolls
  import opened HostRolls

  // ---------------------------------------------------------------- before the map

  // No two servers have one name, and no host that is not known has the name of a server.
  ghost predicate Tidy(m: Roll, hosts: Hosts) {
    && (forall u, v :: u in m.fqdn && v in m.fqdn && m.fqdn[u] == m.fqdn[v] ==> u == v)
    && (forall h, u :: h in hosts && h !in m.byHost && u in m.fqdn ==> m.fqdn[u] != h)
  }

  // The host's OSDs are moved to its server, found or made; not so for an alias or a managed server.
  ghost predicate Moves(m: Roll, fsid: Fsid, hosts: Hosts, g: string) {
    && g in hosts && !IsAlias(m, g, IdsOf(fsid, hosts, g))
    && (g in m.byHost ==> !Managed(m, m.byHost[g]))
  }

  predicate IsOwn(m: Roll, g: string, u: ServerState) {
    g in m.byHost && m.byHost[g] == u
  }

  // A host that has been walked has moved the OSD.
  ghost predicate Moved(m: Roll, fsid: Fsid, hosts: Hosts, walked: seq<string>, g: string, id: ServiceId) {
    g in walked && Moves(m, fsid, hosts, g) && id in IdsOf(fsid, hosts, g)
  }

  // The server has lost the OSD, if it had it, to another host.
  ghost predicate IsTaken(m: Roll, fsid: Fsid, hosts: Hosts, walked: seq<string>, u: ServerState, id: ServiceId) {
    exists g :: Moved(m, fsid, hosts, walked, g, id) && !IsOwn(m, g, u)
  }

  // It has the OSD from its own host.
  ghost predicate IsGiven(m: Roll, fsid: Fsid, hosts: Hosts, walked: seq<string>, u: ServerState, id: ServiceId) {
    exists g :: Moved(m, fsid, hosts, walked, g, id) && IsOwn(m, g, u)
  }

  ghost predicate IsFilled(m: Roll, fsid: Fsid, hosts: Hosts, walked: seq<string>, u: ServerState) {
    exists id :: IsGiven(m, fsid, hosts, walked, u, id)
  }

  // The server has been left without a service: all of its have been taken, before its own host came.
  ghost predicate IsEmptied(m: Roll, fsid: Fsid, hosts: Hosts, walked: seq<string>, u: ServerState) {
    && u in m.inferred && !Deserted(m.rel, u) && !IsFilled(m, fsid, hosts, walked, u)
    && forall id :: id in m.rel && m.rel[id].server == u ==> IsTaken(m, fsid, hosts, walked, u, id)
  }

  // That has been so at some time, and then the server was struck off.
  ghost predicate IsLost(m: Roll, fsid: Fsid, hosts: Hosts, walked: seq<string>, u: ServerState) {
    walked != [] &&
      (IsLost(m, fsid, hosts, walked[..|walked| - 1], u) || IsEmptied(m, fsid, hosts, walked, u))
  }

  // The server is not registered, and all services that it still has are among these.
  ghost predicate IsStrandedAt(m: Roll, fsid: Fsid, hosts: Hosts, walked: seq<string>, u: ServerState,
                               ids: set<ServiceId>)
    requires u in m.fqdn
  {
    && m.fqdn[u] !in m.servers && !IsFilled(m, fsid, hosts, walked, u)
    && (exists id :: id in m.rel && m.rel[id].server == u && !IsTaken(m, fsid, hosts, walked, u, id))
    && (forall id :: id in m.rel && m.rel[id].server == u && !IsTaken(m, fsid, hosts, walked, u, id) ==> id in ids)
  }

  // At its turn the host fails: it has a new OSD, and its server is not registered, or not any more;
  // or it takes the last services from another server that is not registered.
  ghost predicate FailsAt(m: Roll, fsid: Fsid, hosts: Hosts, walked: seq<string>, h: string)
    requires m.Valid()
  {
    && Moves(m, fsid, hosts, h)
    && var ids := IdsOf(fsid, hosts, h);
       || (h in m.byHost && (exists id :: id in ids && id !in m.rel)
           && var s := m.byHost[h]; m.fqdn[s] !in m.servers || IsLost(m, fsid, hosts, walked, s))
       || exists u :: u in m.inferred && !IsOwn(m, h, u) && IsStrandedAt(m, fsid, hosts, walked, u, ids)
  }

  // Some host of the map fails when it is its turn.
  ghost predicate FailsInTurn(m: Roll, fsid: Fsid, hosts: Hosts, order: seq<string>)
    requires m.Valid()
  {
    exists k :: 0 <= k < |order| && FailsAt(m, fsid, hosts, order[..k], order[k])
  }

  // ---------------------------------------------------------------- after some hosts

  // Servers are those from before, and one for each host that had none.
  ghost predicate ServersAfter(m0: Roll, m: Roll, fsid: Fsid, hosts: Hosts, walked: seq<string>) {
    && Grows(m0, m)
    && (forall g :: g in m.byHost && g !in m0.byHost ==>
          g in walked && g in hosts && m.byHost[g] !in m0.fqdn && m.byHost[g] in m.fqdn && m.fqdn[m.byHost[g]] == g)
    && (forall u :: u in m.fqdn && u !in m0.fqdn ==> IsOwn(m, u.hostname, u) && u.hostname !in m0.byHost)
  }

  ghost predicate Untouched(m0: Roll, fsid: Fsid, hosts: Hosts, walked: seq<string>, id: ServiceId) {
    forall g :: !Moved(m0, fsid, hosts, walked, g, id)
  }

  predicate IsOn(m: Roll, g: string, id: ServiceId) {
    g in m.byHost && id in m.rel && m.rel[id].server == m.byHost[g]
  }

  predicate IsAsBefore(m0: Roll, m: Roll, id: ServiceId) {
    (id in m.rel <==> id in m0.rel) && (id in m.rel ==> m.rel[id] == m0.rel[id])
  }

  // OSDs of walked hosts are on the hosts' servers; all other services are where they were.
  ghost predicate PlacesAfter(m0: Roll, m: Roll, fsid: Fsid, hosts: Hosts, walked: seq<string>) {
    && (forall g, id :: Moved(m0, fsid, hosts, walked, g, id) ==> IsOn(m, g, id))
    && (forall id :: Untouched(m0, fsid, hosts, walked, id) ==> IsAsBefore(m0, m, id))
  }

  // Of the servers from before those are registered that were, and have not been emptied since; of
  // the new ones, all.
  ghost predicate IsNamed(m0: Roll, m: Roll, fsid: Fsid, hosts: Hosts, walked: seq<string>, u: ServerState)
    requires u in m.fqdn
  {
    m.fqdn[u] in m.servers <==>
    (u in m0.fqdn ==> m0.fqdn[u] in m0.servers && !IsLost(m0, fsid, hosts, walked, u))
  }

  ghost predicate NamesAfter(m0: Roll, m: Roll, fsid: Fsid, hosts: Hosts, walked: seq<string>) {
    forall u :: u in m.fqdn ==> IsNamed(m0, m, fsid, hosts, walked, u)
  }

  ghost predicate After(m0: Roll, m: Roll, fsid: Fsid, hosts: Hosts, walked: seq<string>) {
    && m.Valid() && Tidy(m, hosts)
    && ServersAfter(m0, m, fsid, hosts, walked)
    && PlacesAfter(m0, m, fsid, hosts, walked)
    && NamesAfter(m0, m, fsid, hosts, walked)
  }

  lemma AfterNothing(m: Roll, fsid: Fsid, hosts: Hosts)
    requires m.Valid() && Tidy(m, hosts)
    ensures After(m, m, fsid, hosts, [])
  {
  }

  lemma OneHost(fsid: Fsid, hosts: Hosts, f: string, g: string, id: ServiceId)
    requires Separate(fsid, hosts) && f in hosts && g in hosts
    requires id in IdsOf(fsid, hosts, f) && id in IdsOf(fsid, hosts, g)
    ensures f == g
  {
  }

  // What a server from before holds by now.
  lemma HeldAfter(m0: Roll, m: Roll, fsid: Fsid, hosts: Hosts, walked: seq<string>, u: ServerState, id: ServiceId)
    requires m0.Valid() && Separate(fsid, hosts) && u in m0.fqdn
    requires ServersAfter(m0, m, fsid, hosts, walked) && PlacesAfter(m0, m, fsid, hosts, walked)
    ensures id in m.rel && m.rel[id].server == u <==>
            || (id in m0.rel && m0.rel[id].server == u && !IsTaken(m0, fsid, hosts, walked, u, id))
            || IsGiven(m0, fsid, hosts, walked, u, id)
  {
    if g :| Moved(m0, fsid, hosts, walked, g, id) {
      assert IsOn(m, g, id);
      forall f | Moved(m0, fsid, hosts, walked, f, id)
        ensures f == g
      {
        OneHost(fsid, hosts, f, g, id);
      }
      assert m.byHost[g] == u <==> IsOwn(m0, g, u);
      hide Moved;
    } else {
      assert Untouched(m0, fsid, hosts, walked, id);
      assert IsAsBefore(m0, m, id);
    }
  }

  // So it is left without a service exactly if all of its have been taken, and its host has none.
  lemma DesertedAfter(m0: Roll, m: Roll, fsid: Fsid, hosts: Hosts, walked: seq<string>, u: ServerState)
    requires m0.Valid() && Separate(fsid, hosts) && u in m0.fqdn
    requires ServersAfter(m0, m, fsid, hosts, walked) && PlacesAfter(m0, m, fsid, hosts, walked)
    ensures Deserted(m.rel, u) <==>
            && !IsFilled(m0, fsid, hosts, walked, u)
            && forall id :: id in m0.rel && m0.rel[id].server == u ==> IsTaken(m0, fsid, hosts, walked, u, id)
  {
    hide IsTaken, IsGiven, ServersAfter, PlacesAfter, Separate;
    forall id
      ensures id in m.rel && m.rel[id].server == u <==>
              || (id in m0.rel && m0.rel[id].server == u && !IsTaken(m0, fsid, hosts, walked, u, id))
              || IsGiven(m0, fsid, hosts, walked, u, id)
    {
      HeldAfter(m0, m, fsid, hosts, walked, u, id);
    }
  }

  // Whoever was struck off has had everything taken.
  lemma {:induction false} LostIsTaken(m: Roll, fsid: Fsid, hosts: Hosts, walked: seq<string>, u: ServerState,
                                       id: ServiceId)
    requires IsLost(m, fsid, hosts, walked, u) && id in m.rel && m.rel[id].server == u
    ensures IsTaken(m, fsid, hosts, walked, u, id)
  {
    if !IsEmptied(m, fsid, hosts, walked, u) {
      LostIsTaken(m, fsid, hosts, walked[..|walked| - 1], u, id);
    }
  }

  // A server from before, and a new one.
  lemma OldAfter(m0: Roll, m: Roll, fsid: Fsid, hosts: Hosts, walked: seq<string>, u: ServerState)
    requires m0.Valid() && After(m0, m, fsid, hosts, walked) && u in m0.fqdn
    ensures u in m.fqdn && m.fqdn[u] == m0.fqdn[u] && (u in m.inferred <==> u in m0.inferred)
    ensures m.fqdn[u] in m.servers <==> m0.fqdn[u] in m0.servers && !IsLost(m0, fsid, hosts, walked, u)
  {
    hide PlacesAfter, IsLost, Tidy;
  }

  lemma NewAfter(m0: Roll, m: Roll, fsid: Fsid, hosts: Hosts, walked: seq<string>, u: ServerState)
    requires m0.Valid() && After(m0, m, fsid, hosts, walked) && u in m.fqdn && u !in m0.fqdn
    ensures u !in m0.inferred && m.fqdn[u] in m.servers
  {
    hide PlacesAfter, IsLost, Tidy, ServersAfter;
  }

  lemma StrandedAfter(m0: Roll, m: Roll, fsid: Fsid, hosts: Hosts, walked: seq<string>, u: ServerState,
                      ids: set<ServiceId>)
    requires m0.Valid() && Separate(fsid, hosts) && After(m0, m, fsid, hosts, walked) && u in m0.inferred
    requires forall id :: id in ids ==> Untouched(m0, fsid, hosts, walked, id)
    ensures m.Stranded(u, ids) <==> IsStrandedAt(m0, fsid, hosts, walked, u, ids)
  {
    hide ServersAfter, PlacesAfter, NamesAfter, Tidy, Separate, IsTaken, IsLost, IsGiven, Untouched;
    OldAfter(m0, m, fsid, hosts, walked, u);
    forall id
      ensures id in m.rel && m.rel[id].server == u <==>
              || (id in m0.rel && m0.rel[id].server == u && !IsTaken(m0, fsid, hosts, walked, u, id))
              || IsGiven(m0, fsid, hosts, walked, u, id)
      ensures IsLost(m0, fsid, hosts, walked, u) && id in m0.rel && m0.rel[id].server == u ==>
                IsTaken(m0, fsid, hosts, walked, u, id)
    {
      HeldAfter(m0, m, fsid, hosts, walked, u, id);
      if IsLost(m0, fsid, hosts, walked, u) && id in m0.rel && m0.rel[id].server == u {
        LostIsTaken(m0, fsid, hosts, walked, u, id);
      }
    }
    forall id | id in ids
      ensures !IsGiven(m0, fsid, hosts, walked, u, id)
    {
      NotGiven(m0, fsid, hosts, walked, u, id);
    }
  }

  lemma NotGiven(m: Roll, fsid: Fsid, hosts: Hosts, walked: seq<string>, u: ServerState, id: ServiceId)
    requires Untouched(m, fsid, hosts, walked, id)
    ensures !IsGiven(m, fsid, hosts, walked, u, id) && !IsTaken(m, fsid, hosts, walked, u, id)
  {
  }

  // ---------------------------------------------------------------- one host more

  // The OSDs of a host still to come are where they were.
  lemma UntouchedSo(m0: Roll, fsid: Fsid, hosts: Hosts, walked: seq<string>, h: string, id: ServiceId)
    requires Separate(fsid, hosts) && h in hosts && h !in walked && id in IdsOf(fsid, hosts, h)
    ensures Untouched(m0, fsid, hosts, walked, id)
  {
    if g :| Moved(m0, fsid, hosts, walked, g, id) {
      OneHost(fsid, hosts, g, h, id);
    }
  }

  lemma SameOsd(m0: Roll, m: Roll, fsid: Fsid, hosts: Hosts, walked: seq<string>, h: string, id: ServiceId)
    requires m0.Valid() && Separate(fsid, hosts) && Grows(m0, m) && PlacesAfter(m0, m, fsid, hosts, walked)
    requires h in hosts && h !in walked && id in IdsOf(fsid, hosts, h)
    ensures id in m.rel <==> id in m0.rel
    ensures id in m.rel ==> m.rel[id] == m0.rel[id] && (Managed(m, m.rel[id].server) <==> Managed(m0, m.rel[id].server))
  {
    hide Separate, IdsOf, Untouched, Moved;
    UntouchedSo(m0, fsid, hosts, walked, h, id);
    assert IsAsBefore(m0, m, id);
  }

  lemma SameTurn(m0: Roll, m: Roll, fsid: Fsid, hosts: Hosts, walked: seq<string>, h: string)
    requires m0.Valid() && Separate(fsid, hosts) && ServersAfter(m0, m, fsid, hosts, walked)
    requires PlacesAfter(m0, m, fsid, hosts, walked) && h in hosts && h !in walked
    ensures (h in m.byHost <==> h in m0.byHost) && (h in m0.byHost ==> m.byHost[h] == m0.byHost[h])
    ensures Moves(m0, fsid, hosts, h) <==>
            !IsAlias(m, h, IdsOf(fsid, hosts, h)) && (h in m.byHost ==> !Managed(m, m.byHost[h]))
  {
    var ids := IdsOf(fsid, hosts, h);
    assert Grows(m0, m) && (h in m.byHost ==> h in m0.byHost);
    assert m0.Valid() && (h in m0.byHost ==> m0.byHost[h] in m0.fqdn);
    hide Separate, PlacesAfter, ServersAfter, Roll.Valid, IdsOf;
    forall id | id in ids
      ensures id in m.rel <==> id in m0.rel
      ensures id in m.rel ==>
                m.rel[id] == m0.rel[id] && (Managed(m, m.rel[id].server) <==> Managed(m0, m.rel[id].server))
    {
      SameOsd(m0, m, fsid, hosts, walked, h, id);
    }
    assert AnyManaged(m, ids) <==> AnyManaged(m0, ids);
  }

  // Names stay in order when a host is given a server.
  lemma TidyHosted(m: Roll, hosts: Hosts, h: string, server: ServerState, m1: Roll)
    requires m.Valid() && Tidy(m, hosts) && h in hosts && Hosted(m, h, server, m1)
    ensures m1.Valid() && server in m1.fqdn && Tidy(m1, hosts) && m1.Orderly() && m1.Undisputed(server)
  {
    HostedValid(m, h, server, m1);
  }

  // A server that is made up for a host changes nothing for the others.
  lemma HostedOthers(m: Roll, hosts: Hosts, h: string, server: ServerState, m1: Roll, u: ServerState,
                     ids: set<ServiceId>)
    requires m.Valid() && Tidy(m, hosts) && h in hosts && Hosted(m, h, server, m1) && m1.Valid()
    requires u in m1.inferred && u != server
    ensures u in m.inferred && (m1.Stranded(u, ids) <==> m.Stranded(u, ids))
  {
    assert m1.rel == m.rel && u in m.inferred && m1.fqdn[u] == m.fqdn[u];
    assert m1.fqdn[u] in m1.servers <==> m.fqdn[u] in m.servers;
  }

  // Who is stranded when the host has its server: nobody new.
  lemma StrandedTurn(m0: Roll, m: Roll, fsid: Fsid, hosts: Hosts, walked: seq<string>, h: string,
                     server: ServerState, m1: Roll, u: ServerState)
    requires m0.Valid() && Separate(fsid, hosts) && After(m0, m, fsid, hosts, walked) && h in hosts && h !in walked
    requires Hosted(m, h, server, m1) && m1.Valid() && u in m1.inferred && u != server
    ensures u in m.inferred && (u in m.fqdn && u !in m0.fqdn ==> u !in m0.inferred)
    ensures m1.Stranded(u, IdsOf(fsid, hosts, h)) <==>
            u in m0.inferred && IsStrandedAt(m0, fsid, hosts, walked, u, IdsOf(fsid, hosts, h))
  {
    hide Separate, ServersAfter, PlacesAfter, NamesAfter, Tidy, Hosted, Untouched, IsStrandedAt, IdsOf;
    var ids := IdsOf(fsid, hosts, h);
    HostedOthers(m, hosts, h, server, m1, u, ids);
    if u in m0.fqdn {
      OldAfter(m0, m, fsid, hosts, walked, u);
      forall id | id in ids
        ensures Untouched(m0, fsid, hosts, walked, id)
      {
        UntouchedSo(m0, fsid, hosts, walked, h, id);
      }
      StrandedAfter(m0, m, fsid, hosts, walked, u, ids);
    } else {
      NewAfter(m0, m, fsid, hosts, walked, u);
    }
  }

  // The server of a host, found or made.
  lemma ServerTurn(m0: Roll, m: Roll, fsid: Fsid, hosts: Hosts, walked: seq<string>, h: string, server: ServerState,
                   m1: Roll)
    requires m0.Valid() && After(m0, m, fsid, hosts, walked) && h in hosts && h !in walked
    requires Hosted(m, h, server, m1)
    ensures m1.Valid() && server in m1.fqdn && m1.rel == m.rel
    ensures forall u :: u in m0.inferred ==> u in m0.fqdn && u in m1.inferred && (u == server <==> IsOwn(m0, h, u))
    ensures m1.fqdn[server] !in m1.servers <==>
            h in m0.byHost &&
            (m0.fqdn[m0.byHost[h]] !in m0.servers || IsLost(m0, fsid, hosts, walked, m0.byHost[h]))
  {
    hide PlacesAfter, NamesAfter, IsLost, Tidy;
    HostedValid(m, h, server, m1);
    if h in m0.byHost {
      OldAfter(m0, m, fsid, hosts, walked, m0.byHost[h]);
    }
  }

  lemma SameAfter(m0: Roll, m: Roll, fsid: Fsid, hosts: Hosts, walked: seq<string>, h: string, id: ServiceId)
    requires m0.Valid() && Separate(fsid, hosts) && After(m0, m, fsid, hosts, walked)
    requires h in hosts && h !in walked && id in IdsOf(fsid, hosts, h)
    ensures id in m.rel <==> id in m0.rel
  {
    hide PlacesAfter, Separate;
    SameOsd(m0, m, fsid, hosts, walked, h, id);
  }

  lemma StrandsTurn(m0: Roll, m: Roll, fsid: Fsid, hosts: Hosts, walked: seq<string>, h: string,
                    server: ServerState, m1: Roll)
    requires m0.Valid() && Separate(fsid, hosts) && After(m0, m, fsid, hosts, walked) && h in hosts && h !in walked
    requires Hosted(m, h, server, m1) && m1.Valid()
    requires forall u :: u in m0.inferred ==> u in m1.inferred && (u == server <==> IsOwn(m0, h, u))
    ensures m0.inferred <= m0.fqdn.Keys
    ensures m1.AnyStranded(server, IdsOf(fsid, hosts, h)) <==>
            exists u :: u in m0.inferred && !IsOwn(m0, h, u)
                        && IsStrandedAt(m0, fsid, hosts, walked, u, IdsOf(fsid, hosts, h))
  {
    assert m0.inferred <= m0.fqdn.Keys;
    hide After, Separate, Hosted, IsStrandedAt, IdsOf, IsOwn, Roll.Stranded, Roll.Valid;
    var ids := IdsOf(fsid, hosts, h);
    forall u | u in m1.inferred && u != server
      ensures m1.Stranded(u, ids) <==> u in m0.inferred && IsStrandedAt(m0, fsid, hosts, walked, u, ids)
    {
      StrandedTurn(m0, m, fsid, hosts, walked, h, server, m1, u);
    }
  }

  // The host fails at its turn exactly if that is to be seen beforehand.
  lemma FailsTurn(m0: Roll, m: Roll, fsid: Fsid, hosts: Hosts, walked: seq<string>, h: string, server: ServerState,
                  m1: Roll)
    requires m0.Valid() && Separate(fsid, hosts) && After(m0, m, fsid, hosts, walked)
    requires h !in walked && Moves(m0, fsid, hosts, h) && Hosted(m, h, server, m1)
    ensures m1.Valid() && server in m1.fqdn && m1.Orderly() && m1.Undisputed(server)
    ensures m1.Fails(server, IdsOf(fsid, hosts, h)) <==> FailsAt(m0, fsid, hosts, walked, h)
  {
    assert h in hosts && m.Valid() && Tidy(m, hosts);
    hide After, Separate, Hosted, IsStrandedAt, IdsOf, Moves, IsLost, IsOwn, Tidy;
    hide Roll.AnyStranded, Roll.Orderly, Roll.Valid;
    var ids := IdsOf(fsid, hosts, h);
    TidyHosted(m, hosts, h, server, m1);
    ServerTurn(m0, m, fsid, hosts, walked, h, server, m1);
    StrandsTurn(m0, m, fsid, hosts, walked, h, server, m1);
    NewTurn(m0, m, fsid, hosts, walked, h);
  }

  lemma NewTurn(m0: Roll, m: Roll, fsid: Fsid, hosts: Hosts, walked: seq<string>, h: string)
    requires m0.Valid() && Separate(fsid, hosts) && After(m0, m, fsid, hosts, walked) && h in hosts && h !in walked
    ensures var ids := IdsOf(fsid, hosts, h); (exists id :: id in ids && id !in m.rel) <==>
                                              (exists id :: id in ids && id !in m0.rel)
  {
    hide After, Separate, IdsOf, Roll.Valid;
    forall id | id in IdsOf(fsid, hosts, h)
      ensures id in m.rel <==> id in m0.rel
    {
      SameAfter(m0, m, fsid, hosts, walked, h, id);
    }
  }

  // ---------------------------------------------------------------- after the host

  lemma ServersHosted(m0: Roll, m: Roll, fsid: Fsid, hosts: Hosts, walked: seq<string>, h: string,
                      server: ServerState, m1: Roll)
    requires m0.Valid() && m.Valid() && ServersAfter(m0, m, fsid, hosts, walked) && h in hosts
    requires Hosted(m, h, server, m1)
    ensures ServersAfter(m0, m1, fsid, hosts, walked + [h])
  {
    hide Roll.Valid, FromOsdMap, IsOwn, Grows, Hosted;
    HostGrows(m0, m, h, server, m1);
    forall g | g in m1.byHost && g !in m0.byHost
      ensures g in walked + [h] && g in hosts && m1.byHost[g] !in m0.fqdn && m1.byHost[g] in m1.fqdn
              && m1.fqdn[m1.byHost[g]] == g
    {
      MadeHosted(m0, m, h, server, m1, g);
    }
    forall u | u in m1.fqdn && u !in m0.fqdn
      ensures IsOwn(m1, u.hostname, u) && u.hostname !in m0.byHost
    {
      OwnHosted(m, h, server, m1, u);
      HostKnown(m0, m, h);
    }
  }

  lemma HostKnown(m0: Roll, m: Roll, h: string)
    requires Grows(m0, m)
    ensures h in m0.byHost ==> h in m.byHost
  {
  }

  lemma HostGrows(m0: Roll, m: Roll, h: string, server: ServerState, m1: Roll)
    requires m.Valid() && Grows(m0, m) && Hosted(m, h, server, m1)
    ensures Grows(m0, m1)
  {
    HostedValid(m, h, server, m1);
    GrowsOn(m0, m, m1);
  }

  lemma MadeHosted(m0: Roll, m: Roll, h: string, server: ServerState, m1: Roll, g: string)
    requires Grows(m0, m) && Hosted(m, h, server, m1) && g in m1.byHost
    ensures g in m.byHost && m.byHost[g] in m.fqdn ==>
              m1.byHost[g] == m.byHost[g] && m.byHost[g] in m1.fqdn && m1.fqdn[m.byHost[g]] == m.fqdn[m.byHost[g]]
    ensures g !in m.byHost ==>
              g == h && m1.byHost[g] !in m0.fqdn && m1.byHost[g] in m1.fqdn && m1.fqdn[m1.byHost[g]] == g
  {
  }

  lemma OwnHosted(m: Roll, h: string, server: ServerState, m1: Roll, u: ServerState)
    requires Hosted(m, h, server, m1) && u in m1.fqdn
    ensures u in m.fqdn ==> IsOwn(m, u.hostname, u) ==> IsOwn(m1, u.hostname, u)
    ensures u !in m.fqdn ==> IsOwn(m1, u.hostname, u) && u.hostname == h && h !in m.byHost
  {
  }

  lemma ServersNext(m0: Roll, m: Roll, fsid: Fsid, hosts: Hosts, walked: seq<string>, h: string,
                    server: ServerState, m1: Roll, m': Roll)
    requires m0.Valid() && m.Valid() && ServersAfter(m0, m, fsid, hosts, walked) && h in hosts
    requires Hosted(m, h, server, m1) && SameServers(m1, m')
    ensures ServersAfter(m0, m', fsid, hosts, walked + [h])
  {
    ServersHosted(m0, m, fsid, hosts, walked, h, server, m1);
    hide Hosted;
  }

  lemma MovedNext(m: Roll, fsid: Fsid, hosts: Hosts, walked: seq<string>, h: string, g: string, id: ServiceId)
    ensures Moved(m, fsid, hosts, walked + [h], g, id) <==>
            Moved(m, fsid, hosts, walked, g, id) || (g == h && Moved(m, fsid, hosts, [h], h, id))
  {
    hide Moves;
  }

  lemma UntouchedNext(m: Roll, fsid: Fsid, hosts: Hosts, walked: seq<string>, h: string, id: ServiceId)
    ensures Untouched(m, fsid, hosts, walked + [h], id) <==>
            Untouched(m, fsid, hosts, walked, id) && !Moved(m, fsid, hosts, [h], h, id)
  {
    hide Moved;
    MovedNext(m, fsid, hosts, walked, h, h, id);
    if Untouched(m, fsid, hosts, walked + [h], id) {
      forall g
        ensures !Moved(m, fsid, hosts, walked, g, id)
      {
        MovedNext(m, fsid, hosts, walked, h, g, id);
      }
    } else {
      var g :| Moved(m, fsid, hosts, walked + [h], g, id);
      MovedNext(m, fsid, hosts, walked, h, g, id);
    }
  }

  lemma PlacesNext(m0: Roll, m: Roll, fsid: Fsid, hosts: Hosts, walked: seq<string>, h: string,
                   server: ServerState, m1: Roll, m': Roll)
    requires PlacesAfter(m0, m, fsid, hosts, walked) && Separate(fsid, hosts)
    requires Moves(m0, fsid, hosts, h) && h !in walked
    requires m.Valid() && Hosted(m, h, server, m1) && SameServers(m1, m')
    requires m'.rel == Reported(m1.rel, server, FromOsdMap(fsid, hosts[h]))
    ensures PlacesAfter(m0, m', fsid, hosts, walked + [h])
  {
    assert h in hosts;
    hide Separate, Moves, Hosted, SameServers, Reported, FromOsdMap, Moved, Untouched, IsOn, IsAsBefore;
    forall g, id | Moved(m0, fsid, hosts, walked + [h], g, id)
      ensures IsOn(m', g, id)
    {
      OnNow(m0, m, fsid, hosts, walked, h, server, m1, m', g, id);
    }
    forall id | Untouched(m0, fsid, hosts, walked + [h], id)
      ensures IsAsBefore(m0, m', id)
    {
      LeftNow(m0, m, fsid, hosts, walked, h, server, m1, m', id);
    }
  }

  lemma OnNow(m0: Roll, m: Roll, fsid: Fsid, hosts: Hosts, walked: seq<string>, h: string, server: ServerState,
              m1: Roll, m': Roll, g: string, id: ServiceId)
    requires PlacesAfter(m0, m, fsid, hosts, walked) && Separate(fsid, hosts) && h in hosts && h !in walked
    requires m.Valid() && Hosted(m, h, server, m1) && SameServers(m1, m')
    requires m'.rel == Reported(m1.rel, server, FromOsdMap(fsid, hosts[h]))
    requires Moved(m0, fsid, hosts, walked + [h], g, id)
    ensures IsOn(m', g, id)
  {
    hide PlacesAfter, Moves, Separate, Hosted, SameServers, Roll.Valid;
    HostNow(m, h, server, m1, m');
    if g == h {
      assert id in FromOsdMap(fsid, hosts[h]);
    } else {
      assert Moved(m0, fsid, hosts, walked, g, id);
      WasOn(m0, m, fsid, hosts, walked, g, id);
      OtherHost(m, h, server, m1, m', g);
      assert g in hosts && id in IdsOf(fsid, hosts, g) by {
        GoesWith(m0, fsid, hosts, walked, g, id);
      }
      if id in FromOsdMap(fsid, hosts[h]) {
        OneHost(fsid, hosts, g, h, id);
      }
    }
  }

  lemma GoesWith(m: Roll, fsid: Fsid, hosts: Hosts, walked: seq<string>, g: string, id: ServiceId)
    requires Moved(m, fsid, hosts, walked, g, id)
    ensures g in hosts && id in IdsOf(fsid, hosts, g)
  {
  }

  lemma OtherHost(m: Roll, h: string, server: ServerState, m1: Roll, m': Roll, g: string)
    requires Hosted(m, h, server, m1) && SameServers(m1, m') && g != h && g in m.byHost
    ensures g in m'.byHost && m'.byHost[g] == m.byHost[g]
  {
  }

  lemma HostNow(m: Roll, h: string, server: ServerState, m1: Roll, m': Roll)
    requires Hosted(m, h, server, m1) && SameServers(m1, m')
    ensures h in m'.byHost && m'.byHost[h] == server && m1.rel == m.rel
  {
  }

  lemma WasOn(m0: Roll, m: Roll, fsid: Fsid, hosts: Hosts, walked: seq<string>, g: string, id: ServiceId)
    requires PlacesAfter(m0, m, fsid, hosts, walked) && Moved(m0, fsid, hosts, walked, g, id)
    ensures IsOn(m, g, id)
  {
  }

  lemma LeftNow(m0: Roll, m: Roll, fsid: Fsid, hosts: Hosts, walked: seq<string>, h: string, server: ServerState,
                m1: Roll, m': Roll, id: ServiceId)
    requires PlacesAfter(m0, m, fsid, hosts, walked) && Moves(m0, fsid, hosts, h)
    requires Hosted(m, h, server, m1) && m'.rel == Reported(m1.rel, server, FromOsdMap(fsid, hosts[h]))
    requires Untouched(m0, fsid, hosts, walked + [h], id)
    ensures IsAsBefore(m0, m', id)
  {
    assert m1.rel == m.rel;
    hide Moves, Untouched, Hosted;
    UntouchedNext(m0, fsid, hosts, walked, h, id);
    assert id !in FromOsdMap(fsid, hosts[h]);
    assert IsAsBefore(m0, m, id);
  }

  // A host that is passed over changes nothing of this.
  lemma PassedOver(m: Roll, fsid: Fsid, hosts: Hosts, walked: seq<string>, h: string, u: ServerState)
    requires !Moves(m, fsid, hosts, h)
    ensures IsFilled(m, fsid, hosts, walked + [h], u) <==> IsFilled(m, fsid, hosts, walked, u)
    ensures IsLost(m, fsid, hosts, walked + [h], u) <==> IsLost(m, fsid, hosts, walked, u)
  {
    assert forall id :: !Moved(m, fsid, hosts, [h], h, id);
    hide IsTaken, IsGiven, Moves, Moved;
    forall id
      ensures IsTaken(m, fsid, hosts, walked + [h], u, id) <==> IsTaken(m, fsid, hosts, walked, u, id)
      ensures IsGiven(m, fsid, hosts, walked + [h], u, id) <==> IsGiven(m, fsid, hosts, walked, u, id)
    {
      TakenNext(m, fsid, hosts, walked, h, u, id);
    }
    assert (walked + [h])[..|walked|] == walked;
    EmptiedIsLost(m, fsid, hosts, walked, u);
  }

  // Nothing is taken before the first host.
  lemma EmptiedIsLost(m: Roll, fsid: Fsid, hosts: Hosts, walked: seq<string>, u: ServerState)
    ensures IsEmptied(m, fsid, hosts, walked, u) ==> IsLost(m, fsid, hosts, walked, u)
  {
  }

  lemma TakenNext(m: Roll, fsid: Fsid, hosts: Hosts, walked: seq<string>, h: string, u: ServerState, id: ServiceId)
    ensures IsTaken(m, fsid, hosts, walked + [h], u, id) <==>
            IsTaken(m, fsid, hosts, walked, u, id) || (Moved(m, fsid, hosts, [h], h, id) && !IsOwn(m, h, u))
    ensures IsGiven(m, fsid, hosts, walked + [h], u, id) <==>
            IsGiven(m, fsid, hosts, walked, u, id) || (Moved(m, fsid, hosts, [h], h, id) && IsOwn(m, h, u))
  {
    hide Moved, IsOwn;
    forall g
      ensures Moved(m, fsid, hosts, walked + [h], g, id) <==>
              Moved(m, fsid, hosts, walked, g, id) || (g == h && Moved(m, fsid, hosts, [h], h, id))
    {
      MovedNext(m, fsid, hosts, walked, h, g, id);
    }
  }

  lemma PassedPlaces(m0: Roll, m: Roll, fsid: Fsid, hosts: Hosts, walked: seq<string>, h: string)
    requires PlacesAfter(m0, m, fsid, hosts, walked) && !Moves(m0, fsid, hosts, h)
    ensures PlacesAfter(m0, m, fsid, hosts, walked + [h])
  {
    assert forall id :: !Moved(m0, fsid, hosts, [h], h, id);
    hide Moves, Moved, Untouched, IsOn, IsAsBefore;
    forall g, id | Moved(m0, fsid, hosts, walked + [h], g, id)
      ensures Moved(m0, fsid, hosts, walked, g, id)
    {
      MovedNext(m0, fsid, hosts, walked, h, g, id);
    }
    forall id | Untouched(m0, fsid, hosts, walked + [h], id)
      ensures Untouched(m0, fsid, hosts, walked, id)
    {
      UntouchedNext(m0, fsid, hosts, walked, h, id);
    }
  }

  lemma PassedNames(m0: Roll, m: Roll, fsid: Fsid, hosts: Hosts, walked: seq<string>, h: string)
    requires NamesAfter(m0, m, fsid, hosts, walked) && !Moves(m0, fsid, hosts, h)
    ensures NamesAfter(m0, m, fsid, hosts, walked + [h])
  {
    hide IsLost, Moves;
    forall u | u in m0.fqdn
      ensures IsLost(m0, fsid, hosts, walked + [h], u) <==> IsLost(m0, fsid, hosts, walked, u)
    {
      PassedOver(m0, fsid, hosts, walked, h, u);
    }
  }

  // A host that is passed over leaves everything as it is.
  lemma SkippedNext(m0: Roll, m: Roll, fsid: Fsid, hosts: Hosts, walked: seq<string>, h: string)
    requires After(m0, m, fsid, hosts, walked) && !Moves(m0, fsid, hosts, h)
    ensures After(m0, m, fsid, hosts, walked + [h])
  {
    hide PlacesAfter, NamesAfter, Tidy, Moves, Roll.Valid, Grows, IsOwn;
    PassedPlaces(m0, m, fsid, hosts, walked, h);
    PassedNames(m0, m, fsid, hosts, walked, h);
  }

  // Who is struck off now is who has just been emptied.
  lemma LostNext(m0: Roll, m: Roll, fsid: Fsid, hosts: Hosts, walked: seq<string>, h: string, server: ServerState,
                 m': Roll, u: ServerState)
    requires m0.Valid() && Separate(fsid, hosts) && u in m0.inferred
    requires ServersAfter(m0, m, fsid, hosts, walked) && PlacesAfter(m0, m, fsid, hosts, walked)
    requires ServersAfter(m0, m', fsid, hosts, walked + [h]) && PlacesAfter(m0, m', fsid, hosts, walked + [h])
    requires h in hosts && m'.rel == Reported(m.rel, server, FromOsdMap(fsid, hosts[h]))
    requires !IsLost(m0, fsid, hosts, walked, u)
    ensures IsLost(m0, fsid, hosts, walked + [h], u) <==> u != server && !Deserted(m.rel, u) && Deserted(m'.rel, u)
  {
    var next := walked + [h];
    assert u in m0.fqdn && next[..|walked|] == walked;
    DesertedAfter(m0, m, fsid, hosts, walked, u);
    DesertedAfter(m0, m', fsid, hosts, next, u);
    assert !Deserted(m.rel, server) ==> !Deserted(m'.rel, server) by {
      if i :| i in m.rel && m.rel[i].server == server {
        assert i in m'.rel && m'.rel[i].server == server;
      }
    }
    hide ServersAfter, PlacesAfter, Separate, Reported, IsGiven, Roll.Valid;
    EmptiedIsLost(m0, fsid, hosts, walked, u);
    if !Deserted(m.rel, u) && Deserted(m'.rel, u) {
      FilledStays(m0, fsid, hosts, walked, h, u);
    }
  }

  lemma FilledStays(m: Roll, fsid: Fsid, hosts: Hosts, walked: seq<string>, h: string, u: ServerState)
    ensures IsFilled(m, fsid, hosts, walked, u) ==> IsFilled(m, fsid, hosts, walked + [h], u)
  {
    if id :| IsGiven(m, fsid, hosts, walked, u, id) {
      TakenNext(m, fsid, hosts, walked, h, u, id);
    }
  }

  lemma {:induction false} LostIsInferred(m: Roll, fsid: Fsid, hosts: Hosts, walked: seq<string>, u: ServerState)
    requires IsLost(m, fsid, hosts, walked, u)
    ensures u in m.inferred
  {
    if !IsEmptied(m, fsid, hosts, walked, u) {
      LostIsInferred(m, fsid, hosts, walked[..|walked| - 1], u);
    }
  }

  // Whoever is registered stays so, unless emptied now.
  lemma RegisteredNow(m1: Roll, hosts: Hosts, server: ServerState, m': Roll, u: ServerState)
    requires m1.Valid() && m'.Valid() && Tidy(m1, hosts) && u in m1.fqdn
    requires Trimmed(m1, m', server) && OnlyDeserted(m1, m', server)
    ensures m'.fqdn == m1.fqdn
    ensures m1.fqdn[u] in m'.servers <==>
            && m1.fqdn[u] in m1.servers
            && !(u != server && u in m1.inferred && !Deserted(m1.rel, u) && Deserted(m'.rel, u))
  {
    var f := m1.fqdn[u];
    if f in m1.servers {
      assert m1.fqdn[m1.servers[f]] == f && m1.servers[f] == u;
    }
  }

  lemma RegisteredHosted(m: Roll, hosts: Hosts, h: string, server: ServerState, m1: Roll, u: ServerState)
    requires m.Valid() && Tidy(m, hosts) && h in hosts && Hosted(m, h, server, m1) && u in m1.fqdn
    ensures m1.rel == m.rel
    ensures u in m.fqdn ==> m1.fqdn[u] == m.fqdn[u] && (m1.fqdn[u] in m1.servers <==> m.fqdn[u] in m.servers)
    ensures u !in m.fqdn ==> m1.fqdn[u] in m1.servers && u == server
  {
  }

  lemma StillOld(m0: Roll, m: Roll, fsid: Fsid, hosts: Hosts, walked: seq<string>, h: string, id: ServiceId)
    requires m0.Valid() && Separate(fsid, hosts) && PlacesAfter(m0, m, fsid, hosts, walked)
    requires h in hosts && h !in walked && id in IdsOf(fsid, hosts, h) && id in m.rel
    ensures m.rel[id].server in m0.fqdn
  {
    hide Separate, IdsOf, Untouched, Moved;
    UntouchedSo(m0, fsid, hosts, walked, h, id);
    assert IsAsBefore(m0, m, id);
  }

  // A new server that holds something is left with it.
  lemma NewStays(m0: Roll, m: Roll, fsid: Fsid, hosts: Hosts, walked: seq<string>, h: string, server: ServerState,
                 m': Roll, u: ServerState)
    requires m0.Valid() && Separate(fsid, hosts) && PlacesAfter(m0, m, fsid, hosts, walked)
    requires h in hosts && h !in walked && m'.rel == Reported(m.rel, server, FromOsdMap(fsid, hosts[h]))
    requires u !in m0.fqdn && !Deserted(m.rel, u)
    ensures !Deserted(m'.rel, u)
  {
    var id :| id in m.rel && m.rel[id].server == u;
    if id in FromOsdMap(fsid, hosts[h]) {
      StillOld(m0, m, fsid, hosts, walked, h, id);
    }
    hide PlacesAfter, Separate, FromOsdMap, IdsOf, Roll.Valid;
    assert id in m'.rel && m'.rel[id].server == u;
  }

  lemma OldName(m0: Roll, m: Roll, fsid: Fsid, hosts: Hosts, walked: seq<string>, h: string, server: ServerState,
                m1: Roll, m': Roll, u: ServerState)
    requires m0.Valid() && Separate(fsid, hosts) && After(m0, m, fsid, hosts, walked) && h in hosts
    requires Hosted(m, h, server, m1) && m1.Valid() && Tidy(m1, hosts) && u in m0.fqdn && u in m1.fqdn
    requires m'.Valid() && Trimmed(m1, m', server) && OnlyDeserted(m1, m', server)
    requires ServersAfter(m0, m', fsid, hosts, walked + [h]) && PlacesAfter(m0, m', fsid, hosts, walked + [h])
    requires m'.rel == Reported(m1.rel, server, FromOsdMap(fsid, hosts[h]))
    ensures m'.fqdn == m1.fqdn
    ensures m'.fqdn[u] in m'.servers <==> m0.fqdn[u] in m0.servers && !IsLost(m0, fsid, hosts, walked + [h], u)
  {
    hide PlacesAfter, NamesAfter, Tidy, Separate, Trimmed, OnlyDeserted, Hosted, Reported, Grows, IsOwn;
    OldAfter(m0, m, fsid, hosts, walked, u);
    RegisteredHosted(m, hosts, h, server, m1, u);
    RegisteredNow(m1, hosts, server, m', u);
    assert (walked + [h])[..|walked|] == walked;
    if u in m0.inferred {
      HostedInferred(m, h, server, m1, u);
      if !IsLost(m0, fsid, hosts, walked, u) {
        LostNext(m0, m, fsid, hosts, walked, h, server, m', u);
      }
    } else {
      HostedInferred(m, h, server, m1, u);
      if IsLost(m0, fsid, hosts, walked + [h], u) {
        LostIsInferred(m0, fsid, hosts, walked + [h], u);
      }
    }
  }

  lemma HostedInferred(m: Roll, h: string, server: ServerState, m1: Roll, u: ServerState)
    requires Hosted(m, h, server, m1) && u in m.fqdn
    ensures u in m1.inferred <==> u in m.inferred
  {
  }

  lemma NewName(m0: Roll, m: Roll, fsid: Fsid, hosts: Hosts, walked: seq<string>, h: string, server: ServerState,
                m1: Roll, m': Roll, u: ServerState)
    requires m0.Valid() && Separate(fsid, hosts) && After(m0, m, fsid, hosts, walked) && h in hosts && h !in walked
    requires Hosted(m, h, server, m1) && m1.Valid() && Tidy(m1, hosts) && u !in m0.fqdn && u in m1.fqdn
    requires m'.Valid() && Trimmed(m1, m', server) && OnlyDeserted(m1, m', server)
    requires m'.rel == Reported(m1.rel, server, FromOsdMap(fsid, hosts[h]))
    ensures m'.fqdn == m1.fqdn && m'.fqdn[u] in m'.servers
  {
    hide ServersAfter, PlacesAfter, NamesAfter, Tidy, Separate, Trimmed, OnlyDeserted, Hosted, Reported, Deserted;
    RegisteredHosted(m, hosts, h, server, m1, u);
    RegisteredNow(m1, hosts, server, m', u);
    if u in m.fqdn {
      NewAfter(m0, m, fsid, hosts, walked, u);
      if !Deserted(m.rel, u) {
        NewStays(m0, m, fsid, hosts, walked, h, server, m', u);
      }
    }
  }

  lemma NamesNext(m0: Roll, m: Roll, fsid: Fsid, hosts: Hosts, walked: seq<string>, h: string, server: ServerState,
                  m1: Roll, m': Roll)
    requires m0.Valid() && Separate(fsid, hosts) && After(m0, m, fsid, hosts, walked) && h in hosts && h !in walked
    requires Hosted(m, h, server, m1) && m1.Valid() && Tidy(m1, hosts)
    requires m'.Valid() && Trimmed(m1, m', server) && OnlyDeserted(m1, m', server)
    requires ServersAfter(m0, m', fsid, hosts, walked + [h]) && PlacesAfter(m0, m', fsid, hosts, walked + [h])
    requires m'.rel == Reported(m1.rel, server, FromOsdMap(fsid, hosts[h]))
    ensures NamesAfter(m0, m', fsid, hosts, walked + [h])
  {
    hide After, ServersAfter, PlacesAfter, Tidy, Separate, Trimmed, OnlyDeserted, Hosted, Reported, IsLost, Roll.Valid;
    forall u | u in m'.fqdn
      ensures IsNamed(m0, m', fsid, hosts, walked + [h], u)
    {
      SameNames(m1, m', server);
      if u in m0.fqdn {
        OldName(m0, m, fsid, hosts, walked, h, server, m1, m', u);
      } else {
        NewName(m0, m, fsid, hosts, walked, h, server, m1, m', u);
      }
    }
  }

  lemma SameNames(m1: Roll, m': Roll, server: ServerState)
    requires m1.Valid() && m'.Valid() && Trimmed(m1, m', server)
    ensures m'.fqdn == m1.fqdn
  {
  }

  // ---------------------------------------------------------------- in turn

  lemma MovedTurn(m0: Roll, m: Roll, fsid: Fsid, hosts: Hosts, walked: seq<string>, h: string, server: ServerState,
                  m1: Roll, m': Roll, raised: bool)
    requires m0.Valid() && Separate(fsid, hosts) && After(m0, m, fsid, hosts, walked)
    requires Moves(m0, fsid, hosts, h) && h in hosts && h !in walked
    requires Hosted(m, h, server, m1) && m1.Valid() && server in m1.fqdn
    requires RegistersAll(m1, server, FromOsdMap(fsid, hosts[h]), m', raised)
    ensures raised <==> FailsAt(m0, fsid, hosts, walked, h)
    ensures !raised ==> After(m0, m', fsid, hosts, walked + [h])
  {
    assert m.Valid() && Tidy(m, hosts) && m'.Valid() && SameServers(m1, m');
    hide After, Separate, Hosted, Moves, FailsAt, Tidy, Roll.Valid, Roll.Fails, Roll.Orderly, FromOsdMap;
    FailsTurn(m0, m, fsid, hosts, walked, h, server, m1);
    assert raised <==> FailsAt(m0, fsid, hosts, walked, h);
    if !raised {
      assert m'.rel == Reported(m1.rel, server, FromOsdMap(fsid, hosts[h]));
      assert Trimmed(m1, m', server) && OnlyDeserted(m1, m', server);
      hide RegistersAll, Trimmed, OnlyDeserted, SameServers;
      MovedAfter(m0, m, fsid, hosts, walked, h, server, m1, m');
    }
  }

  lemma MovedAfter(m0: Roll, m: Roll, fsid: Fsid, hosts: Hosts, walked: seq<string>, h: string, server: ServerState,
                   m1: Roll, m': Roll)
    requires m0.Valid() && Separate(fsid, hosts) && After(m0, m, fsid, hosts, walked)
    requires Moves(m0, fsid, hosts, h) && h in hosts && h !in walked
    requires Hosted(m, h, server, m1) && m1.Valid() && server in m1.fqdn && SameServers(m1, m')
    requires m'.Valid() && Trimmed(m1, m', server) && OnlyDeserted(m1, m', server)
    requires m'.rel == Reported(m1.rel, server, FromOsdMap(fsid, hosts[h]))
    ensures After(m0, m', fsid, hosts, walked + [h])
  {
    hide ServersAfter, PlacesAfter, NamesAfter, Separate, Hosted, Moves, Roll.Valid, Trimmed, OnlyDeserted;
    TidyHosted(m, hosts, h, server, m1);
    ServersNext(m0, m, fsid, hosts, walked, h, server, m1, m');
    PlacesNext(m0, m, fsid, hosts, walked, h, server, m1, m');
    NamesNext(m0, m, fsid, hosts, walked, h, server, m1, m');
    assert Tidy(m', hosts);
  }

  // One host more: it fails if and only if that was to be seen before the map.
  lemma Turn(m0: Roll, m: Roll, fsid: Fsid, hosts: Hosts, walked: seq<string>, h: string, m': Roll, raised: bool)
    requires m0.Valid() && Separate(fsid, hosts) && After(m0, m, fsid, hosts, walked) && h in hosts && h !in walked
    requires HandledHost(m, h, FromOsdMap(fsid, hosts[h]), m', raised)
    ensures raised <==> FailsAt(m0, fsid, hosts, walked, h)
    ensures !raised ==> After(m0, m', fsid, hosts, walked + [h])
  {
    hide Separate, PlacesAfter, Tidy, NamesAfter, ServersAfter, Moves, IsAlias, Hosted, RegistersAll, Roll.Valid;
    SameTurn(m0, m, fsid, hosts, walked, h);
    var ids := IdsOf(fsid, hosts, h);
    if Moves(m0, fsid, hosts, h) {
      var server := m'.byHost[h];
      var m1 := HostedRoll(m, h, server);
      NotManaged(m, h, server, m1);
      MovedTurn(m0, m, fsid, hosts, walked, h, server, m1, m', raised);
    } else {
      if !IsAlias(m, h, ids) {
        NotMade(m, h, m'.byHost[h], HostedRoll(m, h, m'.byHost[h]));
      }
      SkippedNext(m0, m, fsid, hosts, walked, h);
    }
  }

  lemma NotManaged(m: Roll, h: string, server: ServerState, m1: Roll)
    requires Hosted(m, h, server, m1) && (h in m.byHost ==> !Managed(m, m.byHost[h]))
    ensures !Managed(m1, server)
  {
  }

  lemma NotMade(m: Roll, h: string, server: ServerState, m1: Roll)
    requires Hosted(m, h, server, m1) && h in m.byHost
    ensures m1 == m && server == m.byHost[h]
  {
  }

  // ---------------------------------------------------------------- the whole map

  // So far no host has failed, and none was bound to.
  ghost predicate InTurn(m0: Roll, m: Roll, fsid: Fsid, hosts: Hosts, walked: seq<string>)
    requires m0.Valid()
  {
    Separate(fsid, hosts) && Tidy(m0, hosts) ==>
      && After(m0, m, fsid, hosts, walked)
      && forall k :: 0 <= k < |walked| ==> !FailsAt(m0, fsid, hosts, walked[..k], walked[k])
  }

  // All hosts of the map, each once.
  ghost predicate IsOrder(order: seq<string>, hosts: Hosts) {
    && (forall h :: h in order <==> h in hosts)
    && (forall i, k :: 0 <= i < k < |order| ==> order[i] != order[k])
  }

  lemma {:induction false} SomeOrder(rest: set<string>) returns (order: seq<string>)
    ensures forall h :: h in order <==> h in rest
    ensures forall i, k :: 0 <= i < k < |order| ==> order[i] != order[k]
  {
    if rest == {} {
      order := [];
    } else {
      var h :| h in rest;
      order := SomeOrder(rest - {h});
      order := [h] + order;
    }
  }

  lemma InTurnFirst(m: Roll, fsid: Fsid, hosts: Hosts)
    requires m.Valid()
    ensures InTurn(m, m, fsid, hosts, [])
  {
    hide After;
    if Tidy(m, hosts) {
      AfterNothing(m, fsid, hosts);
    }
  }

  lemma InTurnNext(m0: Roll, m: Roll, fsid: Fsid, hosts: Hosts, walked: seq<string>, h: string, m': Roll)
    requires m0.Valid() && m.Valid() && InTurn(m0, m, fsid, hosts, walked) && h in hosts && h !in walked
    requires HandledHost(m, h, FromOsdMap(fsid, hosts[h]), m', false)
    ensures InTurn(m0, m', fsid, hosts, walked + [h])
  {
    hide After, FailsAt, Separate, Tidy, HandledHost;
    if Separate(fsid, hosts) && Tidy(m0, hosts) {
      Turn(m0, m, fsid, hosts, walked, h, m', false);
      forall k | 0 <= k < |walked + [h]|
        ensures !FailsAt(m0, fsid, hosts, (walked + [h])[..k], (walked + [h])[k])
      {
        assert k < |walked| ==> (walked + [h])[..k] == walked[..k];
        assert k == |walked| ==> (walked + [h])[..k] == walked;
      }
    }
  }

  // If all hosts are through, none failed in turn; if one has failed, it did, whatever comes after it.
  lemma InTurnDone(m0: Roll, m: Roll, fsid: Fsid, hosts: Hosts, walked: seq<string>)
    requires m0.Valid() && InTurn(m0, m, fsid, hosts, walked)
    ensures Separate(fsid, hosts) && Tidy(m0, hosts) ==> !FailsInTurn(m0, fsid, hosts, walked)
  {
    hide After, FailsAt;
  }

  lemma InTurnFails(m0: Roll, m: Roll, fsid: Fsid, hosts: Hosts, walked: seq<string>, h: string, m': Roll,
                    later: seq<string>)
    requires m0.Valid() && m.Valid() && InTurn(m0, m, fsid, hosts, walked) && h in hosts && h !in walked
    requires HandledHost(m, h, FromOsdMap(fsid, hosts[h]), m', true)
    ensures Separate(fsid, hosts) && Tidy(m0, hosts) ==> FailsInTurn(m0, fsid, hosts, walked + [h] + later)
  {
    hide After, FailsAt, Separate, Tidy, HandledHost;
    if Separate(fsid, hosts) && Tidy(m0, hosts) {
      Turn(m0, m, fsid, hosts, walked, h, m', true);
      var order := walked + [h] + later;
      assert order[..|walked|] == walked && order[|walked|] == h;
    }
  }

  // Walked one after another, in some order, until one fails: when that is.
  ghost predicate Walked(m: Roll, order: seq<string>, fsid: Fsid, hosts: Hosts, raised: bool)
    requires m.Valid()
  {
    && IsOrder(order, hosts)
    && (Separate(fsid, hosts) && Tidy(m, hosts) ==> (raised <==> FailsInTurn(m, fsid, hosts, order)))
  }

  lemma WalkedThrough(m0: Roll, m: Roll, fsid: Fsid, hosts: Hosts, walked: seq<string>)
    requires m0.Valid() && InTurn(m0, m, fsid, hosts, walked) && IsOrder(walked, hosts)
    ensures Walked(m0, walked, fsid, hosts, false)
  {
    hide InTurn, FailsInTurn, Separate, Tidy;
    InTurnDone(m0, m, fsid, hosts, walked);
  }

  lemma WalkedPart(m0: Roll, m: Roll, fsid: Fsid, hosts: Hosts, walked: seq<string>, rest: set<string>, h: string,
                   m': Roll)
    returns (order: seq<string>)
    requires m0.Valid() && m.Valid() && InTurn(m0, m, fsid, hosts, walked)
    requires (forall g :: g in walked <==> g in hosts && g !in rest) && h in rest && rest <= hosts.Keys
    requires forall i, k :: 0 <= i < k < |walked| ==> walked[i] != walked[k]
    requires HandledHost(m, h, FromOsdMap(fsid, hosts[h]), m', true)
    ensures Walked(m0, order, fsid, hosts, true)
  {
    hide InTurn, FailsInTurn, Separate, Tidy, HandledHost;
    var later := SomeOrder(rest - {h});
    order := walked + [h] + later;
    Joined(walked, h, later, hosts);
    InTurnFails(m0, m, fsid, hosts, walked, h, m', later);
  }

  lemma Joined(walked: seq<string>, h: string, later: seq<string>, hosts: Hosts)
    requires forall g :: g in hosts <==> g in walked || g == h || g in later
    requires forall g :: g in walked ==> g != h && g !in later
    requires h !in later
    requires forall i, k :: 0 <= i < k < |walked| ==> walked[i] != walked[k]
    requires forall i, k :: 0 <= i < k < |later| ==> later[i] != later[k]
    ensures IsOrder(walked + [h] + later, hosts)
  {
    var order := walked + [h] + later;
    assert forall g :: g in order <==> g in walked || g == h || g in later;
    forall i, k | 0 <= i < k < |order|
      ensures order[i] != order[k]
    {
      if i < |walked| {
        assert order[i] in walked && (k > |walked| ==> order[k] in later);
      } else {
        assert order[k] in later;
      }
    }
  }

  // What an OSD map leaves. It goes through if its hosts are steady, and fails if it has a new OSD
  // under the host of a server that has been struck off; and if names are in order, it fails exactly
  // if one of its hosts does in turn. Even then no server is forgotten or renamed, and no OSD is left
  // but where it was or as the map says. If it goes through, `inferred` is how the hosts place the
  // OSDs; then those that the map does not have are forgotten.
  ghost predicate MapAnswered(m: Roll, order: seq<string>, inferred: Roll, m': Roll, fsid: Fsid, hosts: Hosts,
                              raised: bool)
    requires m.Valid()
  {
    && m'.Valid() && StraysStay(m, m', fsid, hosts) && Walked(m, order, fsid, hosts, raised)
    && (Separate(fsid, hosts) && Steady(m, fsid, hosts, hosts.Keys) ==> !raised && NewRegistered(m, m'))
    && (raised ==> Grows(m, m') && Inferred(m.rel, m'.rel, hosts, fsid))
    && (!raised ==>
          && NoneDoomed(m, fsid, hosts, hosts.Keys)
          && inferred.Valid() && PartHandled(m, inferred, fsid, hosts, hosts.Keys)
          && m' == inferred.(rel := Pruned(inferred.rel, fsid, "osd", OsdsInMap(fsid, hosts)))
          && OsdMapApplied(m.rel, m'.rel, hosts, fsid)
          && HostsPlaced(m', hosts, fsid, hosts.Keys) && AllAt(m', fsid, hosts, hosts.Keys)
          && Settled(m, m', fsid, hosts, hosts.Keys))
  }

  lemma AllWalked(order: seq<string>, hosts: Hosts)
    requires forall h :: h in order <==> h in hosts
    requires forall i, k :: 0 <= i < k < |order| ==> order[i] != order[k]
    ensures IsOrder(order, hosts)
  {
  }

  lemma AnsweredWell(m: Roll, order: seq<string>, inferred: Roll, m': Roll, fsid: Fsid, hosts: Hosts)
    requires m.Valid() && inferred.Valid() && m'.Valid()
    requires StraysStay(m, m', fsid, hosts) && Walked(m, order, fsid, hosts, false)
    requires Separate(fsid, hosts) && Steady(m, fsid, hosts, hosts.Keys) ==> NewRegistered(m, m')
    requires NoneDoomed(m, fsid, hosts, hosts.Keys) && PartHandled(m, inferred, fsid, hosts, hosts.Keys)
    requires m' == inferred.(rel := Pruned(inferred.rel, fsid, "osd", OsdsInMap(fsid, hosts)))
    requires OsdMapApplied(m.rel, m'.rel, hosts, fsid)
    requires HostsPlaced(m', hosts, fsid, hosts.Keys) && AllAt(m', fsid, hosts, hosts.Keys)
    requires Settled(m, m', fsid, hosts, hosts.Keys)
    ensures MapAnswered(m, order, inferred, m', fsid, hosts, false)
  {
  }

  lemma AnsweredIll(m: Roll, order: seq<string>, inferred: Roll, m': Roll, fsid: Fsid, hosts: Hosts)
    requires m.Valid() && m'.Valid()
    requires StraysStay(m, m', fsid, hosts) && Walked(m, order, fsid, hosts, true)
    requires !(Separate(fsid, hosts) && Steady(m, fsid, hosts, hosts.Keys))
    requires Grows(m, m') && Inferred(m.rel, m'.rel, hosts, fsid)
    ensures MapAnswered(m, order, inferred, m', fsid, hosts, true)
  {
  }
}
