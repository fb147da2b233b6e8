// The registry of servers and of the Ceph services on them, kept up to date from the servers'
// heartbeats and from the cluster maps.
module ServerRegistry {
  import opened Wrappers
  import opened Placements
  import opened Rolls
  import HostRolls
  import HostOrders
  import opened DeletionRolls

  class ServerMonitor {
    var servers: map<string, ServerState>
    var hostnameToServer: map<string, ServerState>
    var fsidServices: map<Fsid, seq<ServiceState>>
    var services: map<ServiceId, ServiceState>

    // The one relation that the dictionaries describe, and all objects that can be reached; a
    // server may be registered, left behind under a hostname, or only the home of a service.
    ghost var relation: Relation
    ghost var known: set<ServerState>
    ghost var states: set<ServiceState>

    // The cluster that is being deleted, and how many services at the head of its list are gone.
    ghost var dropping: Option<Fsid>
    ghost var gone: nat

    // ---------------------------------------------------------------- agreement

    // A service is registered, under its own id, exactly if the relation has it, and its own
    // fields say the same.
    ghost predicate Registered(id: ServiceId)
      reads this`services, this`relation, this`known, this`states, states
    {
      && (id in services <==> id in relation)
      && (id in services ==>
            && services[id] in states && services[id].id == id
            && services[id].serverState == relation[id].server
            && services[id].running == relation[id].running
            && services[id].status == relation[id].status
            && relation[id].server in known)
    }

    // A server holds a service exactly if the relation puts it there.
    ghost predicate Holds(s: ServerState, id: ServiceId)
      reads this`services, this`relation, s
    {
      && (id in s.services <==> id in relation && relation[id].server == s)
      && (id in s.services ==> id in services && s.services[id] == services[id])
    }

    // A cluster lists each of its services once.
    ghost predicate Lists(f: Fsid)
      reads this`services, this`fsidServices, this`dropping, this`gone
    {
      ListsIn(services, fsidServices, f, if dropping == Some(f) then Some(gone) else None)
    }

    // The dictionaries of servers go by the servers' own names.
    ghost predicate Named()
      reads this`servers, this`hostnameToServer, this`known, known
    {
      && (forall f :: f in servers ==> servers[f] in known && servers[f].fqdn == f)
      && (forall h :: h in hostnameToServer ==> hostnameToServer[h] in known && hostnameToServer[h].hostname == h)
    }

    // All dictionaries of services describe the one relation.
    ghost predicate Agrees()
      reads this, states, known
    {
      && (forall id {:trigger Registered(id)} :: Registered(id))
      && (forall s, id {:trigger Holds(s, id)} :: s in known ==> Holds(s, id))
      && (forall f {:trigger Lists(f)} :: Lists(f))
    }

    ghost predicate Valid()
      reads this, states, known
    {
      Agrees() && Named() && dropping == None
    }

    ghost function Names(): map<ServerState, string>
      reads this`known, known`fqdn
    {
      map s | s in known :: s.fqdn
    }

    ghost function Unmanaged(): set<ServerState>
      reads this`known, known`managed
    {
      set s | s in known && !s.managed
    }

    // Names, hosts and placements as a value.
    ghost function Roster(): Roll
      reads this`servers, this`hostnameToServer, this`relation, this`known, known`fqdn, known`managed
    {
      Roll(servers, hostnameToServer, relation, Names(), Unmanaged())
    }

    lemma RosterIs()
      ensures Roster().rel == relation && Roster().servers == servers && Roster().byHost == hostnameToServer
      ensures Roster().fqdn.Keys == known
    {
    }

    lemma ManagedIs(server: ServerState)
      requires server in known
      ensures HostRolls.Managed(Roster(), server) <==> server.managed
    {
    }

    lemma RosterValid()
      requires Valid()
      ensures Roster().Valid()
    {
      RosterInOrder();
    }

    lemma InOrder()
      ensures Valid() ==> Agrees() && Named()
    {
    }

    lemma RosterInOrder()
      requires Agrees() && Named()
      ensures Roster().Valid()
    {
      forall id | id in relation
        ensures relation[id].server in known
      {
        assert Registered(id);
      }
    }

    // What servers are called, and whether they are managed, has no part in the agreement.
    twostate lemma StillAgrees()
      requires old(Agrees()) && unchanged(this`services, this`fsidServices, this`relation, this`known, this`states)
      requires unchanged(this`dropping, this`gone)
      requires forall s :: s in states ==> unchanged(s)
      requires forall s :: s in known ==> unchanged(s`services)
      ensures Agrees()
    {
      forall id
        ensures Registered(id)
      {
        assert old(Registered(id));
      }
      forall s, id | s in known
        ensures Holds(s, id)
      {
        assert old(Holds(s, id));
      }
      forall f
        ensures Lists(f)
      {
        assert old(Lists(f));
      }
    }

    constructor ()
      ensures Valid() && relation == map[] && servers == map[] && hostnameToServer == map[]
      ensures known == {} && states == {}
    {
      servers, hostnameToServer, fsidServices, services := map[], map[], map[], map[];
      relation, known, states, dropping, gone := map[], {}, {}, None, 0;
    }

    // ---------------------------------------------------------------- one record at a time

    method InjectServer(server: ServerState)
      requires Valid() && server !in known && server.services == map[]
      modifies this`servers, this`hostnameToServer, this`known
      ensures Valid() && known == old(known) + {server}
      ensures Names() == old(Names())[server := server.fqdn]
      ensures Unmanaged() == if server.managed then old(Unmanaged()) else old(Unmanaged()) + {server}
      ensures servers == old(servers)[server.fqdn := server]
      ensures hostnameToServer == old(hostnameToServer)[server.hostname := server]
    {
      hostnameToServer := hostnameToServer[server.hostname := server];
      servers := servers[server.fqdn := server];
      known := known + {server};
      forall id
        ensures Registered(id) && Holds(server, id)
      {
        assert old(Registered(id));
      }
    }

    // All dictionaries but the lists of clusters have the new service.
    method Place(service: ServiceState, server: ServerState)
      requires Agrees() && Named() && service.id !in services && service !in states && server in known
      modifies this`services, this`relation, this`states, service`serverState, known`services
      ensures (forall id {:trigger Registered(id)} :: Registered(id))
      ensures (forall s, id {:trigger Holds(s, id)} :: s in known ==> Holds(s, id))
      ensures relation == old(relation)[service.id := Placement(server, service.running, service.status)]
      ensures services == old(services)[service.id := service]
      ensures states == old(states) + {service}
    {
      hide ListsIn;
      services := services[service.id := service];
      service.serverState := server;
      server.services := server.services[service.id := service];
      states := states + {service};
      relation := relation[service.id := Placement(server, service.running, service.status)];
      forall id
        ensures Registered(id)
      {
        assert old(Registered(id));
      }
      forall s, id | s in known
        ensures Holds(s, id)
      {
        assert old(Holds(s, id)) && old(Registered(id));
      }
    }

    // File a new service, under the server that is registered by this name.
    method InjectService(service: ServiceState, fqdn: string) returns (raised: bool)
      requires Valid() && service.id !in services && service !in states
      modifies this`services, this`fsidServices, this`relation, this`states, service`serverState, known`services
      ensures Valid()
      ensures raised <==> fqdn !in servers
      ensures relation == if raised then old(relation) else
                old(relation)[service.id := Placement(servers[fqdn], service.running, service.status)]
      ensures services == if raised then old(services) else old(services)[service.id := service]
      ensures states <= old(states) + {service}
    {
      hide ListsIn, Holds, Registered;
      if fqdn !in servers {
        return true;
      }
      Place(service, servers[fqdn]);
      fsidServices := fsidServices[service.id.fsid := ListOf(fsidServices, service.id.fsid) + [service]];
      forall f
        ensures Lists(f)
      {
        assert old(Lists(f));
        NewListed(old(services), old(fsidServices), service, f);
      }
      return false;
    }

    method ForgetService(service: ServiceState)
      requires Valid() && service.id in services && services[service.id] == service
      modifies this`services, this`fsidServices, this`relation, known`services
      ensures Valid()
      ensures relation == old(relation) - {service.id}
    {
      hide ListsIn, ListOf, Removed;
      Listed(service.id);
      assert Registered(service.id);
      var f, server := service.id.fsid, service.serverState;
      assert Holds(server, service.id);
      fsidServices := fsidServices[f := Removed(fsidServices[f], service)];
      services := services - {service.id};
      if server != null {
        server.services := server.services - {service.id};
      }
      relation := relation - {service.id};
      forall id
        ensures Registered(id)
      {
        assert old(Registered(id));
      }
      forall s, id | s in known
        ensures Holds(s, id)
      {
        assert old(Holds(s, id));
      }
      forall g
        ensures Lists(g)
      {
        assert old(Lists(g));
        ListsAfter(old(services), old(fsidServices), service, g, None);
      }
    }

    method Update(service: ServiceState, running: bool, status: Status)
      requires Valid() && service.id in services && services[service.id] == service
      modifies this`relation, service`running, service`status
      ensures Valid()
      ensures service.id in old(relation)
      ensures relation == old(relation)[service.id := old(relation)[service.id].(running := running, status := status)]
    {
      assert Registered(service.id);
      if running != service.running {
        service.running := running;
      }
      if status != service.status {
        service.status := status;
      }
      relation := relation[service.id := relation[service.id].(running := running, status := status)];
      forall id
        ensures Registered(id)
      {
        assert old(Registered(id));
      }
      forall s, id | s in known
        ensures Holds(s, id)
      {
        assert old(Holds(s, id));
      }
      forall f
        ensures Lists(f)
      {
        assert old(Lists(f));
      }
    }

    method Move(service: ServiceState, server: ServerState)
      requires Valid() && service.id in services && services[service.id] == service && server in known
      requires service.serverState != server
      modifies this`relation, service`serverState, known`services
      ensures Valid()
      ensures service.id in old(relation)
      ensures relation == old(relation)[service.id := old(relation)[service.id].(server := server)]
    {
      assert Registered(service.id);
      var oldServer := service.serverState;
      assert Holds(oldServer, service.id);
      service.serverState := server;
      if oldServer != null {
        oldServer.services := oldServer.services - {service.id};
      }
      server.services := server.services[service.id := service];
      relation := relation[service.id := relation[service.id].(server := server)];
      forall id
        ensures Registered(id)
      {
        assert old(Registered(id));
      }
      forall s, id | s in known
        ensures Holds(s, id)
      {
        assert old(Holds(s, id));
      }
      forall f
        ensures Lists(f)
      {
        assert old(Lists(f));
      }
    }

    // An unmanaged server that has lost its last service is struck off.
    method Expunge(server: ServerState) returns (raised: bool)
      requires Valid() && server in known
      modifies this`servers
      ensures Valid()
      ensures var deserted := !server.managed && Deserted(relation, server);
              && servers == (if deserted then old(servers) - {server.fqdn} else old(servers))
              && raised == (deserted && server.fqdn !in old(servers))
    {
      forall id
        ensures id in server.services <==> id in relation && relation[id].server == server
      {
        assert Holds(server, id);
      }
      if !server.managed && server.services == map[] {
        if server.fqdn !in servers {
          return true;
        }
        servers := servers - {server.fqdn};
        StillAgrees();
      } else {
        assert server.services != map[] ==> exists id :: id in server.services;
      }
      return false;
    }

    method FindOrCreate(server: ServerState, id: ServiceId) returns (service: ServiceState, raised: bool)
      requires Valid() && server in known
      modifies this`services, this`fsidServices, this`relation, this`states, known`services
      ensures Valid() && fresh(states - old(states))
      ensures raised <==> old(Roster().Home(server, id)).None?
      ensures raised ==> relation == old(relation)
      ensures !raised ==>
                && service.id == id && id in services && services[id] == service
                && id in relation && relation[id].server == old(Roster().Home(server, id)).value
                && relation == old(relation)[id := relation[id]]
    {
      if id in services {
        service, raised := services[id], false;
        assert Registered(id);
      } else {
        assert Registered(id);
        service := new ServiceState(id);
        raised := InjectService(service, server.fqdn);
      }
    }

    // Put a service where it is reported, and strike off the server that is left without any.
    method Settle(server: ServerState, service: ServiceState, running: bool, status: Status) returns (raised: bool)
      requires Valid() && server in known && service.id in services && services[service.id] == service
      modifies this`servers, this`relation, known`services, states
      ensures Valid()
      ensures service.id in old(relation)
      ensures var id := service.id;
              var h := old(relation)[id].server;
              var deserted := h != server && !h.managed && Deserted(relation, h);
              && relation == old(relation)[id := Placement(server, running, status)]
              && servers == (if deserted then old(servers) - {h.fqdn} else old(servers))
              && raised == (deserted && h.fqdn !in old(servers))
    {
      assert Registered(service.id);
      Update(service, running, status);
      assert Registered(service.id);
      raised := false;
      if service.serverState != server {
        var oldServer := service.serverState;
        Move(service, server);
        raised := Expunge(oldServer);
      }
    }

    method FindAndSettle(server: ServerState, id: ServiceId, running: bool, status: Status) returns (raised: bool)
      requires Valid() && server in known && Roster().Valid()
      modifies this`servers, this`services, this`fsidServices, this`relation, this`states
      modifies known`services, states
      ensures Valid() && fresh(states - old(states))
      ensures var home := old(Roster().Home(server, id));
              if home.None? then raised && relation == old(relation) && servers == old(servers)
              else
                var h := home.value;
                var deserted := h != server && !h.managed && Deserted(relation, h);
                && relation == old(relation)[id := Placement(server, running, status)]
                && servers == (if deserted then old(servers) - {h.fqdn} else old(servers))
                && raised == (deserted && h.fqdn !in old(servers))
    {
      var service;
      service, raised := FindOrCreate(server, id);
      if !raised {
        raised := Settle(server, service, running, status);
      }
    }

    method RegisterService(server: ServerState, id: ServiceId, running: bool, status: Status) returns (raised: bool)
      requires Valid() && server in known
      modifies this`servers, this`services, this`fsidServices, this`relation, this`states
      modifies known`services, states
      ensures Valid() && Roster().Valid() && fresh(states - old(states))
      ensures old(Roster().Valid())
      ensures RegistersOne(old(Roster()), server, id, Report(running, status), Roster(), raised)
    {
      ghost var m, names, unmanaged := Roster(), Names(), Unmanaged();
      RosterValid();
      raised := FindAndSettle(server, id, running, status);
      assert Names() == names && Unmanaged() == unmanaged;
      RosterValid();
    }

    // ---------------------------------------------------------------- a server's heartbeat

    method Manage(server: ServerState)
      requires Valid() && server in known
      modifies server`managed
      ensures Valid() && server.managed
      ensures Unmanaged() == old(Unmanaged()) - {server}
    {
      server.managed := true;
      StillAgrees();
    }

    // Give an inferred server its real name. It cannot be done if its old name is gone.
    method TakeOver(server: ServerState, fqdn: string) returns (raised: bool)
      requires Valid() && server in known && fqdn !in servers
      modifies this`servers, server`managed, server`fqdn
      ensures Valid() && server.managed
      ensures Unmanaged() == old(Unmanaged()) - {server}
      ensures raised <==> old(server.fqdn) !in old(servers)
      ensures if raised then servers == old(servers) && Names() == old(Names())
              else
                && servers == (old(servers) - {old(server.fqdn)})[fqdn := server]
                && Names() == old(Names())[server := fqdn]
    {
      server.managed := true;
      var oldFqdn := server.fqdn;
      raised := oldFqdn !in servers;
      if !raised {
        servers := servers - {oldFqdn};
        server.fqdn := fqdn;
        servers := servers[server.fqdn := server];
      }
      StillAgrees();
    }

    // The server that a heartbeat is from: registered already, or inferred from a map before and
    // now taken over under its real name, or new. `grains` is what Salt knows as its hostname.
    method FindServer(fqdn: string, grains: Option<string>) returns (server: ServerState?, raised: bool)
      requires Valid()
      modifies this`servers, this`hostnameToServer, this`known, known`managed, known`fqdn
      ensures Valid() && Roster().Valid() && fresh(known - old(known))
      ensures old(Roster().Valid()) && (raised <==> Unfindable(old(Roster()), fqdn, grains))
      ensures raised ==> Roster() == Claimed(old(Roster()), grains)
      ensures !raised ==>
                && server != null && server in known && server.managed
                && (match Sender(old(Roster()), fqdn, grains)
                    case Some(s) => server == s
                    case None => grains.Some? && server.hostname == grains.value && fresh(server))
                && Finds(old(Roster()), fqdn, grains, server, Roster())
    {
      hide Agrees, Roll.Valid;
      ghost var m := Roster();
      RosterValid();
      raised := false;
      if fqdn in servers {
        server := servers[fqdn];
        Manage(server);
        assert Finds(m, fqdn, grains, server, Roster());
      } else if grains.None? {
        server, raised := null, true;
      } else if grains.value in hostnameToServer && !hostnameToServer[grains.value].managed {
        server := hostnameToServer[grains.value];
        raised := TakeOver(server, fqdn);
        assert !raised ==> Finds(m, fqdn, grains, server, Roster());
      } else {
        // A server that clashes with a managed one by its hostname is a server of its own.
        var newServer := new ServerState(fqdn, grains.value, true);
        InjectServer(newServer);
        server := newServer;
        assert Finds(m, fqdn, grains, server, Roster());
      }
      RosterValid();
    }

    // A server registers services. If names are in order, this fails exactly if it is bound to.
    method RegisterAll(server: ServerState, reports: map<ServiceId, Report>) returns (raised: bool)
      requires Valid() && server in known
      modifies this`servers, this`services, this`fsidServices, this`relation, this`states
      modifies known`services, states
      ensures Valid() && fresh(states - old(states))
      ensures old(Roster().Valid()) && RegistersAll(old(Roster()), server, reports, Roster(), raised)
    {
      hide *;
      ghost var m := Roster();
      RosterValid();
      RosterIs();
      var rest := reports.Keys;
      ghost var done: map<ServiceId, Report> := map[];
      raised := false;
      NothingRegistered(m, server, reports);
      while rest != {}
        invariant Valid() && fresh(states - old(states))
        invariant Halfway(m, Roster(), server, reports, done, rest)
      {
        var id :| id in rest;
        ghost var m1 := Roster();
        raised := RegisterService(server, id, reports[id].running, reports[id].status);
        if raised {
          HalfwayFails(m, m1, server, reports, done, rest, id, Roster());
          return;
        }
        HalfwayNext(m, m1, server, reports, done, rest, id, Roster());
        done, rest := done[id := reports[id]], rest - {id};
      }
      HalfwayDone(m, Roster(), server, reports, done);
    }

    method Stop(service: ServiceState)
      requires Valid() && service.id in services && services[service.id] == service
      modifies this`relation, service`running
      ensures Valid()
      ensures service.id in old(relation)
      ensures relation == old(relation)[service.id := old(relation)[service.id].(running := false)]
    {
      assert Registered(service.id);
      if service.running {
        service.running := false;
      }
      relation := relation[service.id := relation[service.id].(running := false)];
      forall id
        ensures Registered(id)
      {
        assert old(Registered(id));
      }
      forall s, id | s in known
        ensures Holds(s, id)
      {
        assert old(Holds(s, id));
      }
      forall f
        ensures Lists(f)
      {
        assert old(Lists(f));
      }
    }

    // Services that the server holds, but did not report, have stopped. The symmetric difference
    // that picks them out is a plain one, since whatever was reported has just been registered.
    method StopUnseen(server: ServerState, seen: set<ServiceId>)
      requires Valid() && server in known
      requires forall id :: id in seen ==> id in relation && relation[id].server == server
      modifies this`relation, states`running
      ensures Valid()
      ensures relation == Stopped(old(relation), server, seen)
      ensures Roster() == old(Roster()).(rel := relation)
    {
      hide Agrees, Named, Registered, Holds, Halted;
      ghost var rel := relation;
      IsHeld(server);
      var keys := server.services.Keys;
      var unseen := (keys - seen) + (seen - keys);
      assert unseen == keys - seen == set id | id in rel && rel[id].server == server && id !in seen;
      var rest := unseen;
      ghost var done: set<ServiceId> := {};
      NoneHalted(rel);
      while rest != {}
        invariant Valid()
        invariant rest <= unseen && done == unseen - rest
        invariant relation == Halted(rel, done)
      {
        var id :| id in rest;
        HaltedOneMore(rel, done, id);
        IsFiled(id);
        Stop(services[id]);
        done, rest := done + {id}, rest - {id};
      }
      assert done == unseen;
    }

    lemma IsHeld(server: ServerState)
      requires Agrees() && server in known
      ensures forall id :: id in server.services <==> id in relation && relation[id].server == server
    {
      forall id
        ensures id in server.services <==> id in relation && relation[id].server == server
      {
        assert Holds(server, id);
      }
    }

    lemma IsFiled(id: ServiceId)
      requires Agrees() && id in relation
      ensures id in services && services[id].id == id && services[id] in states
    {
      assert Registered(id);
    }

    // A heartbeat, and the roll `found` once its sender has been found. If names are in order, it
    // fails exactly if its sender cannot be found, or it takes the last services from an inferred
    // server that is not registered any more.
    method OnServerHeartbeat(fqdn: string, grains: Option<string>, seen: map<ServiceId, Status>)
      returns (server: ServerState?, raised: bool, ghost found: Roll)
      requires Valid()
      modifies this, known, states
      ensures Valid() && fresh(known - old(known)) && fresh(states - old(states))
      ensures old(Roster().Valid())
      ensures HeartbeatAnswered(old(Roster()), fqdn, grains, seen, server, found, Roster(), raised)
      ensures !raised ==>
                && server != null && server in known && server.managed
                && (match Sender(old(Roster()), fqdn, grains)
                    case Some(s) => server == s
                    case None => grains.Some? && server.hostname == grains.value && fresh(server))
                && relation == Stopped(Reported(old(relation), server, FromHeartbeat(seen)), server, seen.Keys)
    {
      hide *;
      ghost var m := Roster();
      RosterIs();
      SeenReports(seen);
      server, raised := FindServer(fqdn, grains);
      found := Roster();
      RosterIs();
      if raised {
        HeartbeatLost(m, fqdn, grains, seen, server, found);
      } else {
        raised := RegisterAll(server, FromHeartbeat(seen));
        assert server.managed;
        ghost var registered := Roster();
        RosterIs();
        HeartbeatEnds(m, fqdn, grains, server, found, FromHeartbeat(seen), registered, raised);
        if !raised {
          StopUnseen(server, seen.Keys);
          RosterIs();
        }
        HeartbeatEnded(m, fqdn, grains, seen, server, found, registered, Roster(), raised);
      }
    }

    // ---------------------------------------------------------------- cluster maps

    method FindStale(fsid: Fsid, kind: string, keep: set<ServiceId>) returns (stale: set<ServiceId>)
      requires Valid()
      modifies this`fsidServices
      ensures Valid()
      ensures stale == StaleIds(relation, fsid, kind, keep)
    {
      var list := ListOf(fsidServices, fsid);
      assert Lists(fsid);
      fsidServices := fsidServices[fsid := list];
      stale := (set s | s in list && s.id.kind == kind :: s.id) - keep;
      forall id
        ensures Registered(id) && (id in stale <==> id in relation && IsStale(id, fsid, kind, keep))
      {
        assert old(Registered(id));
        if id in services && id.fsid == fsid {
          assert services[id] in list && services[id].id == id;
        }
      }
      forall s, id | s in known
        ensures Holds(s, id)
      {
        assert old(Holds(s, id));
      }
      forall f
        ensures Lists(f)
      {
        assert old(Lists(f));
      }
    }

    // Forget the services of one kind that a cluster's map no longer lists.
    method Prune(fsid: Fsid, kind: string, keep: set<ServiceId>)
      requires Valid()
      modifies this`services, this`fsidServices, this`relation, known`services
      ensures Valid()
      ensures relation == Pruned(old(relation), fsid, kind, keep)
      ensures Roster() == old(Roster()).(rel := relation)
    {
      ghost var rel := relation;
      var stale := FindStale(fsid, kind, keep);
      var rest := stale;
      while rest != {}
        invariant Valid()
        invariant rest <= stale
        invariant relation == rel - (stale - rest)
      {
        var id :| id in rest;
        assert Registered(id);
        ForgetService(services[id]);
        assert stale - (rest - {id}) == (stale - rest) + {id};
        rest := rest - {id};
      }
    }

    method OnMdsMap(fsid: Fsid, names: set<string>)
      requires Valid()
      modifies this`services, this`fsidServices, this`relation, known`services
      ensures Valid()
      ensures relation == Pruned(old(relation), fsid, "mds", set name | name in names :: ServiceId(fsid, "mds", name))
      ensures Roster() == old(Roster()).(rel := relation)
    {
      Prune(fsid, "mds", set name | name in names :: ServiceId(fsid, "mds", name));
    }

    method OnMonMap(fsid: Fsid, names: set<string>)
      requires Valid()
      modifies this`services, this`fsidServices, this`relation, known`services
      ensures Valid()
      ensures relation == Pruned(old(relation), fsid, "mon", set name | name in names :: ServiceId(fsid, "mon", name))
      ensures Roster() == old(Roster()).(rel := relation)
    {
      Prune(fsid, "mon", set name | name in names :: ServiceId(fsid, "mon", name));
    }

    method FindAlias(hostname: string, reports: map<ServiceId, Report>) returns (alias: bool)
      requires Valid()
      ensures alias <==> HostRolls.IsAlias(Roster(), hostname, reports.Keys)
    {
      alias := false;
      if hostname !in hostnameToServer {
        var rest := reports.Keys;
        while rest != {}
          invariant rest <= reports.Keys
          invariant alias <==>
                    exists id :: id in reports && id !in rest && id in relation && relation[id].server.managed
        {
          var id :| id in rest;
          assert Registered(id);
          if id in services && services[id].serverState.managed {
            alias := true;
          }
          rest := rest - {id};
        }
        RosterValid();
      }
    }

    // One host of an OSD map. Only of servers that do not report themselves does the map say what
    // they hold.
    method OnHost(hostname: string, reports: map<ServiceId, Report>) returns (raised: bool)
      requires Valid()
      modifies this, known`services, states
      ensures Valid() && fresh(known - old(known)) && fresh(states - old(states)) && known >= old(known)
      ensures old(Roster().Valid())
      ensures HostRolls.HandledHost(old(Roster()), hostname, reports, Roster(), raised)
    {
      hide *;
      ghost var m := Roster();
      RosterValid();
      raised := false;
      RosterIs();
      var alias := FindAlias(hostname, reports);
      if alias {
        HostRolls.AliasHandled(m, hostname, reports);
      } else {
        var server := FindHost(hostname);
        ghost var m1, found := Roster(), known;
        RosterIs();
        ManagedIs(server);
        if !server.managed {
          raised := RegisterAll(server, reports);
        }
        assert known == found;
        HostRolls.OthersHandled(m, hostname, reports, server, m1, Roster(), raised);
      }
    }

    method FindHost(hostname: string) returns (server: ServerState)
      requires Valid()
      modifies this`servers, this`hostnameToServer, this`known
      ensures Valid() && Roster().Valid() && fresh(known - old(known)) && known >= old(known)
      ensures server in known && hostname in hostnameToServer && hostnameToServer[hostname] == server
      ensures HostRolls.Hosted(old(Roster()), hostname, server, Roster())
    {
      RosterValid();
      if hostname in hostnameToServer {
        server := hostnameToServer[hostname];
      } else {
        server := new ServerState(hostname, hostname, false);
        InjectServer(server);
      }
      RosterValid();
    }

    method OnHosts(fsid: Fsid, hosts: Hosts) returns (raised: bool, ghost order: seq<string>)
      requires Valid()
      modifies this, known`services, states
      ensures Valid() && fresh(known - old(known)) && fresh(states - old(states)) && known >= old(known)
      ensures old(Roster().Valid()) && Roster().Valid()
      ensures HostRolls.StraysStay(old(Roster()), Roster(), fsid, hosts)
      ensures HostOrders.Walked(old(Roster()), order, fsid, hosts, raised)
      ensures HostRolls.Separate(fsid, hosts) && HostRolls.Steady(old(Roster()), fsid, hosts, hosts.Keys) ==>
                !raised && HostRolls.NewRegistered(old(Roster()), Roster())
      ensures raised ==>
                && HostRolls.Grows(old(Roster()), Roster())
                && Inferred(old(Roster().rel), Roster().rel, hosts, fsid)
      ensures !raised ==>
                && HostRolls.PartHandled(old(Roster()), Roster(), fsid, hosts, hosts.Keys)
                && HostRolls.NoneDoomed(old(Roster()), fsid, hosts, hosts.Keys)
                && HostRolls.Settled(old(Roster()), Roster(), fsid, hosts, hosts.Keys)
    {
      hide *;
      ghost var m, done: set<string> := Roster(), {};
      RosterValid();
      HostRolls.NothingHandled(m, fsid, hosts);
      HostRolls.NothingSettled(m, fsid, hosts);
      HostOrders.InTurnFirst(m, fsid, hosts);
      var rest := hosts.Keys;
      order := [];
      while rest != {}
        invariant Valid() && fresh(known - old(known)) && fresh(states - old(states)) && known >= old(known)
        invariant rest <= hosts.Keys && done == hosts.Keys - rest && Roster().Valid()
        invariant HostRolls.PartHandled(m, Roster(), fsid, hosts, done)
        invariant HostRolls.Predicted(m, Roster(), fsid, hosts, done)
        invariant HostRolls.Settled(m, Roster(), fsid, hosts, done)
        invariant HostOrders.InTurn(m, Roster(), fsid, hosts, order)
        invariant forall h :: h in order <==> h in hosts && h !in rest
        invariant forall i, k :: 0 <= i < k < |order| ==> order[i] != order[k]
      {
        var h :| h in rest;
        ghost var m1 := Roster();
        raised := OnHost(h, FromOsdMap(fsid, hosts[h]));
        RosterValid();
        HostRolls.PredictedNext(m, m1, fsid, hosts, done, h, Roster(), raised);
        if raised {
          HostRolls.FailedHostPlaces(m, m1, fsid, hosts, done, h, Roster());
          order := HostOrders.WalkedPart(m, m1, fsid, hosts, order, rest, h, Roster());
          return;
        }
        HostRolls.PartGrows(m, m1, fsid, hosts, done);
        HostRolls.SettledNext(m, m1, fsid, hosts, done, h, Roster());
        HostRolls.PartHandledNext(m, m1, fsid, hosts, done, h, Roster());
        HostOrders.InTurnNext(m, m1, fsid, hosts, order, h, Roster());
        rest, done, order := rest - {h}, done + {h}, order + [h];
      }
      assert done == hosts.Keys;
      HostRolls.PredictedStay(m, Roster(), fsid, hosts, done);
      HostOrders.AllWalked(order, hosts);
      HostOrders.WalkedThrough(m, Roster(), fsid, hosts, order);
      raised := false;
    }

    // The hosts of an OSD map are walked in some order; then the cluster's other OSDs are forgotten.
    method OnOsdMap(fsid: Fsid, hosts: Hosts) returns (raised: bool, ghost order: seq<string>, ghost inferred: Roll)
      requires Valid()
      modifies this, known`services, states
      ensures Valid() && fresh(known - old(known)) && fresh(states - old(states)) && known >= old(known)
      ensures old(Roster().Valid())
      ensures HostOrders.MapAnswered(old(Roster()), order, inferred, Roster(), fsid, hosts, raised)
    {
      hide *;
      ghost var m := Roster();
      RosterIs();
      raised, order := OnHosts(fsid, hosts);
      inferred := Roster();
      RosterIs();
      if !raised {
        Prune(fsid, "osd", OsdsInMap(fsid, hosts));
        RosterIs();
        HostRolls.PartPruned(m, inferred, fsid, hosts, Roster());
        HostRolls.SettledPruned(m, inferred, fsid, hosts, Roster());
        HostOrders.AnsweredWell(m, order, inferred, Roster(), fsid, hosts);
      } else {
        HostOrders.AnsweredIll(m, order, inferred, Roster(), fsid, hosts);
      }
    }

    // ---------------------------------------------------------------- deletion

    // Strike a server off by name. Two servers may have the same hostname, so the one that is
    // found under it need not be this one.
    method Strike(server: ServerState)
      requires Named() && server.fqdn in servers && servers[server.fqdn] == server
      modifies this`servers, this`hostnameToServer, this`known
      ensures Named() && known == old(known) - {server}
      ensures servers == old(servers) - {server.fqdn}
      ensures hostnameToServer == old(hostnameToServer) - {server.hostname}
    {
      if server.hostname in hostnameToServer {
        hostnameToServer := hostnameToServer - {server.hostname};
      }
      servers := servers - {server.fqdn};
      known := known - {server};
    }

    // The services of a server that is going are unregistered one by one; the server itself still
    // refers to them.
    ghost predicate Leaving(server: ServerState, rest: set<ServiceId>)
      reads this, states, known, server
    {
      && server in known
      && (forall id {:trigger Registered(id)} :: Registered(id))
      && (forall s, id {:trigger Holds(s, id)} :: s in known && s != server ==> Holds(s, id))
      && (forall f {:trigger Lists(f)} :: Lists(f))
      && (forall id :: id in rest <==> id in relation && relation[id].server == server)
      && (forall id :: id in rest ==> id in services && id in server.services && server.services[id] == services[id])
    }

    method Unregister(server: ServerState, id: ServiceId, ghost rest: set<ServiceId>)
      requires Leaving(server, rest) && id in rest
      modifies this`services, this`fsidServices, this`relation, states`serverState
      ensures Leaving(server, rest - {id})
      ensures relation == old(relation) - {id}
    {
      hide ListsIn, ListOf, Removed;
      var service := server.services[id];
      Listed(id);
      service.serverState := null;
      services := services - {service.id};
      fsidServices := fsidServices[id.fsid := Removed(fsidServices[id.fsid], service)];
      relation := relation - {id};
      forall other
        ensures Registered(other)
      {
        assert old(Registered(other));
      }
      forall s, other | s in known && s != server
        ensures Holds(s, other)
      {
        assert old(Holds(s, other));
      }
      forall f
        ensures Lists(f)
      {
        assert old(Lists(f));
        ListsAfter(old(services), old(fsidServices), service, f, if dropping == Some(f) then Some(gone) else None);
      }
    }

    // A registered service is on its cluster's list.
    lemma Listed(id: ServiceId)
      requires (forall i {:trigger Registered(i)} :: Registered(i)) && Lists(id.fsid) && id in services
      ensures services[id] in states && services[id].id == id
      ensures services[id] in ListOf(fsidServices, id.fsid) && id.fsid in fsidServices
      ensures services[id] in fsidServices[id.fsid]
      ensures forall i :: i in services ==> services[i].id == i
    {
      forall i | i in services
        ensures services[i].id == i
      {
        assert Registered(i);
      }
      assert Registered(id);
      if dropping == Some(id.fsid) {
        RemovedFrom(services, ListOf(fsidServices, id.fsid), gone, services[id]);
      }
    }

    method StrikeEmptied(server: ServerState)
      requires Leaving(server, {}) && Named() && server.fqdn in servers && servers[server.fqdn] == server
      modifies this`servers, this`hostnameToServer, this`known
      ensures Agrees() && Named() && known == old(known) - {server}
      ensures servers == old(servers) - {server.fqdn}
      ensures hostnameToServer == old(hostnameToServer) - {server.hostname}
    {
      Strike(server);
      forall id
        ensures Registered(id)
      {
        assert old(Registered(id));
      }
      forall s, id | s in known
        ensures Holds(s, id)
      {
        assert old(Holds(s, id));
      }
      forall f
        ensures Lists(f)
      {
        assert old(Lists(f));
      }
    }

    method UnregisterAll(server: ServerState)
      requires Agrees() && server in known
      modifies this`services, this`fsidServices, this`relation, states`serverState
      ensures Leaving(server, {})
      ensures relation == WithoutServer(old(relation), server)
    {
      hide *;
      ghost var rel := relation;
      AllLeaving(server);
      var all := server.services.Keys;
      var rest := all;
      ghost var done: set<ServiceId> := {};
      while rest != {}
        invariant Leaving(server, rest)
        invariant done + rest == all && relation == rel - done
      {
        var id :| id in rest;
        Unregister(server, id, rest);
        rest, done := rest - {id}, done + {id};
      }
      WithoutHeld(rel, server, all);
    }

    lemma AllLeaving(server: ServerState)
      requires Agrees() && server in known
      ensures Leaving(server, server.services.Keys)
      ensures forall id :: id in server.services <==> id in relation && relation[id].server == server
    {
      forall id
        ensures id in server.services <==> id in relation && relation[id].server == server
        ensures id in server.services ==> id in services && server.services[id] == services[id]
      {
        assert Holds(server, id);
      }
    }

    // The server that is registered by this name goes, with all its services.
    method DeleteServer(fqdn: string) returns (raised: bool)
      requires Agrees() && Named()
      modifies this`servers, this`hostnameToServer, this`known, this`services, this`fsidServices, this`relation
      modifies states`serverState
      ensures Agrees() && Named() && known <= old(known) && old(Roster().Valid())
      ensures raised <==> fqdn !in old(servers)
      ensures Roster() == if raised then old(Roster()) else Struck(old(Roster()), fqdn)
    {
      ghost var names, unmanaged := Names(), Unmanaged();
      RosterInOrder();
      if fqdn !in servers {
        return true;
      }
      var server := servers[fqdn];
      UnregisterAll(server);
      assert Names() == names && Unmanaged() == unmanaged;
      StrikeEmptied(server);
      assert Names() == names - {server} && Unmanaged() == unmanaged - {server};
      return false;
    }

    method Delete(fqdn: string) returns (raised: bool)
      requires Valid()
      modifies this`servers, this`hostnameToServer, this`known, this`services, this`fsidServices, this`relation
      modifies states`serverState
      ensures Valid()
      ensures raised <==> fqdn !in old(servers)
      ensures Roster() == if raised then old(Roster()) else Struck(old(Roster()), fqdn)
      ensures raised ==> relation == old(relation) && servers == old(servers) && known == old(known)
      ensures !raised ==>
                var server := old(servers)[fqdn];
                && relation == WithoutServer(old(relation), server)
                && known == old(known) - {server}
                && servers == old(servers) - {fqdn}
                && hostnameToServer == old(hostnameToServer) - {server.hostname}
    {
      ghost var names := Names();
      raised := DeleteServer(fqdn);
      assert Names().Keys == known && names.Keys == old(known);
    }

    // The next service on the list of a cluster that is being deleted.
    ghost predicate IsNext(service: ServiceState)
      reads this`fsidServices, this`dropping, this`gone
    {
      && dropping == Some(service.id.fsid)
      && gone < |ListOf(fsidServices, service.id.fsid)| && ListOf(fsidServices, service.id.fsid)[gone] == service
    }

    lemma NextIsRegistered(service: ServiceState)
      requires Agrees() && IsNext(service)
      ensures service.id in services && services[service.id] == service && service in states
      ensures service.id in relation && service.serverState == relation[service.id].server
      ensures service.serverState in known
      ensures forall id :: id in services ==> services[id].id == id
    {
      assert Lists(service.id.fsid);
      forall id | id in services
        ensures services[id].id == id
      {
        assert Registered(id);
      }
      DroppedFrom(services, ListOf(fsidServices, service.id.fsid), gone, service.id.fsid);
      assert Registered(service.id);
    }

    method Drop(service: ServiceState)
      requires Agrees() && IsNext(service)
      modifies this`services, this`relation, this`gone, known`services
      ensures Agrees() && gone == old(gone) + 1
      ensures service.serverState in known
      ensures service.id in old(relation) && service.serverState == old(relation)[service.id].server
      ensures relation == old(relation) - {service.id}
      ensures Roster() == old(Roster()).(rel := relation) && (old(Named()) ==> Named())
    {
      hide ListsIn;
      NextIsRegistered(service);
      var server := service.serverState;
      assert Holds(server, service.id);
      services := services - {service.id};
      server.services := server.services - {service.id};
      relation := relation - {service.id};
      gone := gone + 1;
      forall id
        ensures Registered(id)
      {
        assert old(Registered(id));
      }
      forall s, id | s in known
        ensures Holds(s, id)
      {
        assert old(Holds(s, id));
      }
      forall f
        ensures Lists(f)
      {
        assert old(Lists(f));
        StillListed(old(services), fsidServices, service, f, if dropping == Some(f) then Some(old(gone)) else None);
      }
    }

    // It goes, and with the last service of an inferred server whoever has that server's name.
    method DropNext(service: ServiceState) returns (raised: bool)
      requires Agrees() && Named() && IsNext(service)
      modifies this`servers, this`hostnameToServer, this`known, this`services, this`fsidServices, this`relation
      modifies this`gone, known`services, states`serverState
      ensures Agrees() && Named() && gone == old(gone) + 1
      ensures old(Roster().Valid()) && known <= old(known)
      ensures service.id in old(Roster()).rel && DropsOne(old(Roster()), service.id, Roster(), raised)
    {
      hide *;
      ghost var m := Roster();
      RosterInOrder();
      RosterIs();
      Drop(service);
      var server := service.serverState;
      ghost var m1 := Roster();
      RosterIs();
      WithoutOne(m, service.id);
      HoldsNone(server);
      raised := false;
      if !server.managed && server.services == map[] {
        raised := DeleteServer(server.fqdn);
      }
      DropsOneIs(m, service.id, m1, Roster(), raised);
    }

    lemma HoldsNone(server: ServerState)
      requires Agrees() && server in known
      ensures server.services == map[] <==> Deserted(relation, server)
      ensures server in Roster().inferred <==> !server.managed
      ensures server in Roster().fqdn && Roster().fqdn[server] == server.fqdn
    {
      forall id
        ensures id in server.services <==> id in relation && relation[id].server == server
      {
        assert Holds(server, id);
      }
      assert server.services != map[] ==> exists id :: id in server.services;
    }

    // A cluster goes with all its services, and servers that were only inferred go with the last of
    // them. The deletion stops halfway if such a server is not registered any more; if another one
    // is registered under its name, that one goes instead.
    method DeleteCluster(fsid: Fsid) returns (raised: bool)
      requires Valid()
      modifies this`servers, this`hostnameToServer, this`known, this`services, this`fsidServices, this`relation
      modifies this`dropping, this`gone, known`services, states`serverState
      ensures Agrees() && Named() && known <= old(known) && old(Roster().Valid())
      ensures if raised then dropping == Some(fsid) && 0 < gone else Valid()
      ensures DeletionAnswered(old(Roster()), fsid, Roster(), raised)
    {
      hide *;
      ghost var m := Roster();
      RosterIs();
      Starts(fsid);
      ghost var done: set<ServiceId> := {};
      if fsid !in fsidServices {
        DeletionEnds(m, Roster(), fsid, done);
        return false;
      }
      BeginDeletion(fsid);
      var i := 0;
      while i < |ListOf(fsidServices, fsid)|
        invariant Agrees() && Named() && known <= old(known) && m.Valid()
        invariant dropping == Some(fsid) && gone == i <= |ListOf(fsidServices, fsid)|
        invariant Deleting(m, Roster(), fsid, done)
        invariant OrderlyIn(m, fsid) ==> OrderlySoFar(m, Roster(), fsid, done)
        decreases relation.Keys
      {
        var service := ListOf(fsidServices, fsid)[i];
        ghost var m1 := Roster();
        IsNextOf(fsid);
        RosterIs();
        raised := DropNext(service);
        DeletedOneMore(m, m1, fsid, done, service.id, Roster(), raised);
        LeftOver(fsid);
        RosterIs();
        if raised {
          DeletionStops(m, Roster(), fsid, done + {service.id});
          return;
        }
        i, done := i + 1, done + {service.id};
      }
      EndDeletion(fsid);
      RosterIs();
      DeletionEnds(m, Roster(), fsid, done);
      raised := false;
    }

    lemma Starts(fsid: Fsid)
      requires Valid()
      ensures Agrees() && Named() && dropping == None
      ensures Roster().Valid() && Deleting(Roster(), Roster(), fsid, {}) && OrderlySoFar(Roster(), Roster(), fsid, {})
      ensures fsid !in fsidServices ==> forall id :: id in relation ==> id.fsid != fsid
    {
      RosterValid();
      var m := Roster();
      assert m.rel - {} == m.rel && Left(m.rel, {}, m.fqdn.Keys) == m.rel;
      if fsid !in fsidServices {
        assert Lists(fsid);
        forall id | id in relation
          ensures id.fsid != fsid
        {
          assert Registered(id);
        }
      }
    }

    method BeginDeletion(fsid: Fsid)
      requires Valid() && fsid in fsidServices
      modifies this`dropping, this`gone
      ensures Agrees() && Named() && dropping == Some(fsid) && gone == 0
      ensures Roster() == old(Roster())
    {
      dropping, gone := Some(fsid), 0;
      forall id
        ensures Registered(id)
      {
        assert old(Registered(id));
      }
      forall s, id | s in known
        ensures Holds(s, id)
      {
        assert old(Holds(s, id));
      }
      forall f
        ensures Lists(f)
      {
        assert old(Lists(f));
        assert ListOf(fsidServices, f)[0..] == ListOf(fsidServices, f);
      }
    }

    lemma IsNextOf(fsid: Fsid)
      requires Agrees() && dropping == Some(fsid) && gone < |ListOf(fsidServices, fsid)|
      ensures IsNext(ListOf(fsidServices, fsid)[gone])
      ensures ListOf(fsidServices, fsid)[gone].id.fsid == fsid
    {
      assert Lists(fsid);
    }

    lemma LeftOver(fsid: Fsid)
      requires Agrees() && dropping == Some(fsid)
      ensures gone <= |ListOf(fsidServices, fsid)|
    {
      assert Lists(fsid);
    }

    method EndDeletion(fsid: Fsid)
      requires Agrees() && Named() && dropping == Some(fsid) && gone == |ListOf(fsidServices, fsid)|
      modifies this`fsidServices, this`dropping
      ensures Valid() && Roster() == old(Roster())
      ensures forall id :: id in relation ==> id.fsid != fsid
    {
      assert Lists(fsid);
      forall id
        ensures id in relation ==> id.fsid != fsid
      {
        assert Registered(id);
      }
      fsidServices := fsidServices - {fsid};
      dropping := None;
      forall id
        ensures Registered(id)
      {
        assert old(Registered(id));
      }
      forall s, id | s in known
        ensures Holds(s, id)
      {
        assert old(Holds(s, id));
      }
      forall f
        ensures Lists(f)
      {
        assert old(Lists(f));
        if f == fsid {
          forall id
            ensures id in services ==> id.fsid != fsid
          {
            assert Registered(id);
          }
        }
      }
    }
  }

  // What the agreement amounts to, for any service and any server that can be reached: the server
  // holds the service exactly if the service is registered and points to it, and a service is
  // registered exactly if its own cluster lists it, once, and no other cluster does.
  lemma RegistryAgrees(m: ServerMonitor, server: ServerState, service: ServiceState, f: Fsid)
    requires m.Valid() && server in m.known
    ensures service.id in server.services && server.services[service.id] == service
       <==> service.id in m.services && m.services[service.id] == service && service.serverState == server
    ensures service in ListOf(m.fsidServices, f)
       <==> service.id in m.services && m.services[service.id] == service && service.id.fsid == f
    ensures forall i, j :: 0 <= i < j < |ListOf(m.fsidServices, f)| ==>
              ListOf(m.fsidServices, f)[i] != ListOf(m.fsidServices, f)[j]
    ensures service.id in m.services && m.services[service.id] == service ==> service.serverState in m.known
  {
    assert m.Registered(service.id) && m.Holds(server, service.id) && m.Lists(f);
  }
}
