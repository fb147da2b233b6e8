// Ceph services and the servers they run on, as the one relation that the registry's several
// dictionaries all describe.
module Placements {
  import opened Wrappers

  type Fsid = string

  datatype ServiceId = ServiceId(fsid: Fsid, kind: string, name: string)

  // A mon's own account of itself; other services have none.
  type Status = Option<string>

  class ServiceState {
    const id: ServiceId
    var serverState: ServerState?
    var running: bool
    var status: Status

    constructor (id: ServiceId)
      ensures this.id == id && serverState == null && running && status == None
    {
      this.id, serverState, running, status := id, null, true, None;
    }
  }

  class ServerState {
    var fqdn: string
    const hostname: string
    var managed: bool
    var services: map<ServiceId, ServiceState>

    constructor (fqdn: string, hostname: string, managed: bool)
      ensures this.fqdn == fqdn && this.hostname == hostname && this.managed == managed && services == map[]
    {
      this.fqdn, this.hostname, this.managed, services := fqdn, hostname, managed, map[];
    }
  }

  datatype Placement = Placement(server: ServerState, running: bool, status: Status)

  type Relation = map<ServiceId, Placement>

  // ---------------------------------------------------------------- what each operation does to it

  predicate Deserted(rel: Relation, server: ServerState) {
    forall id :: id in rel ==> rel[id].server != server
  }

  lemma DesertedWithout(rel: Relation, id: ServiceId, server: ServerState)
    requires id in rel && rel[id].server != server
    ensures Deserted(rel - {id}, server) <==> Deserted(rel, server)
  {
    if !Deserted(rel, server) {
      var other :| other in rel && rel[other].server == server;
      assert other in rel - {id};
    }
  }

  // What a heartbeat or a map says of a service.
  datatype Report = Report(running: bool, status: Status)

  ghost function Reported(rel: Relation, server: ServerState, reports: map<ServiceId, Report>): Relation {
    map id | id in rel.Keys + reports.Keys ::
      if id in reports then Placement(server, reports[id].running, reports[id].status) else rel[id]
  }

  // A heartbeat names the services that run, with their status.
  function FromHeartbeat(seen: map<ServiceId, Status>): map<ServiceId, Report> {
    map id | id in seen :: Report(true, seen[id])
  }

  lemma SeenReports(seen: map<ServiceId, Status>)
    ensures FromHeartbeat(seen).Keys == seen.Keys
  {
  }

  // An OSD map says of each OSD whether it is up.
  function FromOsdMap(fsid: Fsid, osds: map<string, bool>): map<ServiceId, Report> {
    map name | name in osds :: ServiceId(fsid, "osd", name) := Report(osds[name], None)
  }

  ghost function Halted(rel: Relation, ids: set<ServiceId>): Relation {
    map id | id in rel :: if id in ids then rel[id].(running := false) else rel[id]
  }

  // Services of a server, all but those of `seen`, have stopped.
  ghost function Stopped(rel: Relation, server: ServerState, seen: set<ServiceId>): Relation {
    Halted(rel, set id | id in rel && rel[id].server == server && id !in seen)
  }

  // After a server's heartbeat the services that it holds and that run are exactly those that it
  // reported, with the status that it reported; no other server holds any of them; and nothing
  // else has changed.
  lemma HeartbeatIsExact(rel: Relation, server: ServerState, seen: map<ServiceId, Status>, id: ServiceId)
    ensures var rel' := Stopped(Reported(rel, server, FromHeartbeat(seen)), server, seen.Keys);
            && (id in seen <==> id in rel' && rel'[id].server == server && rel'[id].running)
            && (id in seen ==> rel'[id].status == seen[id])
            && (id in rel' <==> id in rel || id in seen)
            && (id in rel' && id !in seen ==>
                  && rel'[id].server == rel[id].server && rel'[id].status == rel[id].status
                  && (rel'[id].running <==> rel[id].running && rel[id].server != server))
  {
  }

  lemma NoneHalted(rel: Relation)
    ensures Halted(rel, {}) == rel
  {
  }

  lemma HaltedOneMore(rel: Relation, ids: set<ServiceId>, id: ServiceId)
    requires id in rel
    ensures id in Halted(rel, ids) && Halted(rel, ids).Keys == rel.Keys
    ensures Halted(rel, ids + {id}) == Halted(rel, ids)[id := Halted(rel, ids)[id].(running := false)]
  {
  }

  lemma ReportedOneMore(rel: Relation, server: ServerState, some: map<ServiceId, Report>, id: ServiceId, r: Report)
    requires id !in some
    ensures Reported(rel, server, some[id := r])
         == Reported(rel, server, some)[id := Placement(server, r.running, r.status)]
  {
  }

  predicate IsStale(id: ServiceId, fsid: Fsid, kind: string, keep: set<ServiceId>) {
    id.fsid == fsid && id.kind == kind && id !in keep
  }

  ghost function StaleIds(rel: Relation, fsid: Fsid, kind: string, keep: set<ServiceId>): set<ServiceId> {
    set id | id in rel && IsStale(id, fsid, kind, keep)
  }

  // A cluster map that lists all services of one kind.
  ghost function Pruned(rel: Relation, fsid: Fsid, kind: string, keep: set<ServiceId>): Relation {
    rel - StaleIds(rel, fsid, kind, keep)
  }

  // The OSDs of a map, by the hosts that its CRUSH tree puts them under, and whether they are up.
  type Hosts = map<string, map<string, bool>>

  // A placement that an OSD map accounts for: under a host that lists the OSD, and as it says.
  predicate MapPlaces(hosts: Hosts, fsid: Fsid, id: ServiceId, p: Placement) {
    && id.fsid == fsid && id.kind == "osd" && p.status == None
    && p.server.hostname in hosts && id.name in hosts[p.server.hostname]
    && p.running == hosts[p.server.hostname][id.name]
  }

  function OsdsInMap(fsid: Fsid, hosts: Hosts): set<ServiceId> {
    set h, name | h in hosts && name in hosts[h] :: ServiceId(fsid, "osd", name)
  }

  // Whatever an OSD map has not placed is as it was, and nothing is lost.
  ghost predicate Inferred(rel: Relation, rel': Relation, hosts: Hosts, fsid: Fsid) {
    && (forall id :: id in rel ==> id in rel')
    && (forall id :: id in rel' ==> (id in rel && rel'[id] == rel[id]) || MapPlaces(hosts, fsid, id, rel'[id]))
  }

  ghost predicate AllPlaced(rel: Relation, hosts: Hosts, fsid: Fsid, h: string)
    requires h in hosts
  {
    forall name :: name in hosts[h] ==>
      var id := ServiceId(fsid, "osd", name);
      id in rel && MapPlaces(hosts, fsid, id, rel[id])
  }

  lemma InferredOneMore(rel: Relation, rel1: Relation, hosts: Hosts, fsid: Fsid, h: string, server: ServerState)
    requires Inferred(rel, rel1, hosts, fsid) && h in hosts && server.hostname == h
    ensures var rel2 := Reported(rel1, server, FromOsdMap(fsid, hosts[h]));
            && Inferred(rel, rel2, hosts, fsid)
            && AllPlaced(rel2, hosts, fsid, h)
            && forall g :: g in hosts && AllPlaced(rel1, hosts, fsid, g) ==> AllPlaced(rel2, hosts, fsid, g)
  {
    var reports := FromOsdMap(fsid, hosts[h]);
    var rel2 := Reported(rel1, server, reports);
    forall id | id in rel2
      ensures (id in rel && rel2[id] == rel[id]) || MapPlaces(hosts, fsid, id, rel2[id])
      ensures id in rel1 && MapPlaces(hosts, fsid, id, rel1[id]) ==> MapPlaces(hosts, fsid, id, rel2[id])
    {
      if id in reports {
        assert id.fsid == fsid && id.kind == "osd" && id.name in hosts[h];
        assert id == ServiceId(fsid, "osd", id.name);
      }
    }
    forall name | name in hosts[h]
      ensures var id := ServiceId(fsid, "osd", name); id in rel2 && MapPlaces(hosts, fsid, id, rel2[id])
    {
      assert ServiceId(fsid, "osd", name) in reports;
    }
  }

  // So it is of some of the OSDs of a host, if not all.
  lemma InferredPart(rel: Relation, rel1: Relation, hosts: Hosts, fsid: Fsid, h: string, server: ServerState,
                     some: map<ServiceId, Report>)
    requires Inferred(rel, rel1, hosts, fsid) && h in hosts && server.hostname == h
    requires some.Items <= FromOsdMap(fsid, hosts[h]).Items
    ensures Inferred(rel, Reported(rel1, server, some), hosts, fsid)
  {
    var reports, rel2 := FromOsdMap(fsid, hosts[h]), Reported(rel1, server, some);
    forall id | id in rel2
      ensures (id in rel && rel2[id] == rel[id]) || MapPlaces(hosts, fsid, id, rel2[id])
    {
      if id in some {
        assert (id, some[id]) in some.Items;
        assert id in reports && reports[id] == some[id];
        assert id == ServiceId(fsid, "osd", id.name) && id.name in hosts[h];
      }
    }
  }

  // What an OSD map leaves: services other than the cluster's OSDs are as they were; the OSDs that
  // are left are ones that the map has, each as it was or as the map places it; and no OSD that
  // the map has is lost.
  ghost predicate OsdMapApplied(rel: Relation, rel': Relation, hosts: Hosts, fsid: Fsid) {
    && (forall id: ServiceId :: !(id.fsid == fsid && id.kind == "osd") ==>
          && (id in rel' <==> id in rel)
          && (id in rel ==> rel'[id] == rel[id]))
    && (forall id :: id in rel' && id.fsid == fsid && id.kind == "osd" ==>
          && id in OsdsInMap(fsid, hosts)
          && ((id in rel && rel'[id] == rel[id]) || MapPlaces(hosts, fsid, id, rel'[id])))
    && (forall id :: id in rel && id in OsdsInMap(fsid, hosts) ==> id in rel')
  }

  lemma PrunedInferred(rel: Relation, inferred: Relation, hosts: Hosts, fsid: Fsid)
    requires Inferred(rel, inferred, hosts, fsid)
    ensures var rel' := Pruned(inferred, fsid, "osd", OsdsInMap(fsid, hosts));
            && OsdMapApplied(rel, rel', hosts, fsid)
            && forall h :: h in hosts && AllPlaced(inferred, hosts, fsid, h) ==> AllPlaced(rel', hosts, fsid, h)
  {
    var rel' := Pruned(inferred, fsid, "osd", OsdsInMap(fsid, hosts));
    forall id: ServiceId | !(id.fsid == fsid && id.kind == "osd")
      ensures (id in rel' <==> id in rel) && (id in rel ==> rel'[id] == rel[id])
    {
    }
  }

  ghost function WithoutServer(rel: Relation, server: ServerState): Relation {
    map id | id in rel && rel[id].server != server :: rel[id]
  }

  lemma WithoutHeld(rel: Relation, server: ServerState, held: set<ServiceId>)
    requires forall id :: id in held <==> id in rel && rel[id].server == server
    ensures rel - held == WithoutServer(rel, server)
  {
  }

  ghost function WithoutCluster(rel: Relation, fsid: Fsid): Relation {
    map id | id in rel && id.fsid != fsid :: rel[id]
  }

  // ---------------------------------------------------------------- lists of services

  predicate Distinct(s: seq<ServiceState>) {
    forall i, j :: 0 <= i < j < |s| ==> s[i] != s[j]
  }

  // Python's list.remove.
  function Removed(s: seq<ServiceState>, x: ServiceState): seq<ServiceState>
    requires x in s
  {
    if s[0] == x then s[1..] else [s[0]] + Removed(s[1..], x)
  }

  // Of a list without repetition, everything else is left.
  lemma {:induction false} RemovedIsRest(s: seq<ServiceState>, x: ServiceState, y: ServiceState)
    requires x in s && Distinct(s)
    ensures Distinct(Removed(s, x))
    ensures y in Removed(s, x) <==> y in s && y != x
  {
    assert s == [s[0]] + s[1..];
    assert forall i :: 0 < i < |s| ==> s[1..][i - 1] == s[i];
    if s[0] != x {
      RemovedIsRest(s[1..], x, y);
      RemovedIsRest(s[1..], x, s[0]);
    }
  }

  // ---------------------------------------------------------------- the lists of a cluster

  function ListOf(lists: map<Fsid, seq<ServiceState>>, f: Fsid): seq<ServiceState> {
    if f in lists then lists[f] else []
  }

  // The cluster's list has each of its registered services once, and nothing else.
  ghost predicate ListedUnder(services: map<ServiceId, ServiceState>, list: seq<ServiceState>, f: Fsid) {
    && Distinct(list)
    && (forall s :: s in list ==> s.id.fsid == f && s.id in services && services[s.id] == s)
    && (forall id :: id in services && id.fsid == f ==> services[id] in list)
  }

  lemma ListAdded(services: map<ServiceId, ServiceState>, lists: map<Fsid, seq<ServiceState>>, service: ServiceState,
                  f: Fsid)
    requires ListedUnder(services, ListOf(lists, f), f) && service.id !in services
    ensures var g := service.id.fsid;
            var lists' := lists[g := ListOf(lists, g) + [service]];
            ListedUnder(services[service.id := service], ListOf(lists', f), f)
  {
  }

  lemma RemovedListed(services: map<ServiceId, ServiceState>, list: seq<ServiceState>, service: ServiceState)
    requires ListedUnder(services, list, service.id.fsid) && service in list
    requires forall id :: id in services ==> services[id].id == id
    ensures ListedUnder(services - {service.id}, Removed(list, service), service.id.fsid)
  {
    RemovedIsRest(list, service, service);
    var left := Removed(list, service);
    var services' := services - {service.id};
    forall s | s in left
      ensures s.id.fsid == service.id.fsid && s.id in services' && services'[s.id] == s
    {
      RemovedIsRest(list, service, s);
      assert services[service.id] == service;
    }
    forall id | id in services' && id.fsid == service.id.fsid
      ensures services'[id] in left
    {
      RemovedIsRest(list, service, services[id]);
    }
  }

  lemma ListRemoved(services: map<ServiceId, ServiceState>, lists: map<Fsid, seq<ServiceState>>,
                    service: ServiceState, f: Fsid)
    requires ListedUnder(services, ListOf(lists, f), f) && service in ListOf(lists, service.id.fsid)
    requires forall id :: id in services ==> services[id].id == id
    ensures var g := service.id.fsid;
            var lists' := lists[g := Removed(lists[g], service)];
            ListedUnder(services - {service.id}, ListOf(lists', f), f)
  {
    if f == service.id.fsid {
      RemovedListed(services, lists[f], service);
    } else {
      OtherListed(services, ListOf(lists, f), service, f);
    }
  }

  // Some services at the head of a list are registered no more; the rest is the cluster's list.
  ghost predicate ListedFrom(services: map<ServiceId, ServiceState>, list: seq<ServiceState>, n: nat, f: Fsid) {
    && n <= |list| && Distinct(list)
    && (forall s :: s in list ==> s.id.fsid == f)
    && ListedUnder(services, list[n..], f)
  }

  // The list of a cluster, of which some services at the head may be gone already.
  ghost predicate ListsIn(services: map<ServiceId, ServiceState>, lists: map<Fsid, seq<ServiceState>>, f: Fsid,
                          gone: Option<nat>)
  {
    match gone
    case None => ListedUnder(services, ListOf(lists, f), f)
    case Some(n) => ListedFrom(services, ListOf(lists, f), n, f)
  }

  lemma NewListed(services: map<ServiceId, ServiceState>, lists: map<Fsid, seq<ServiceState>>, service: ServiceState,
                  f: Fsid)
    requires ListsIn(services, lists, f, None) && service.id !in services
    ensures var g := service.id.fsid;
            ListsIn(services[service.id := service], lists[g := ListOf(lists, g) + [service]], f, None)
  {
    ListAdded(services, lists, service, f);
  }

  // The lists once a service has been taken out of its own.
  lemma ListsAfter(services: map<ServiceId, ServiceState>, lists: map<Fsid, seq<ServiceState>>, service: ServiceState,
                   f: Fsid, gone: Option<nat>)
    requires service.id.fsid in lists && service in lists[service.id.fsid]
    requires service.id in services && services[service.id] == service
    requires forall id :: id in services ==> services[id].id == id
    requires ListsIn(services, lists, f, gone)
    ensures var g := service.id.fsid;
            ListsIn(services - {service.id}, lists[g := Removed(lists[g], service)], f, gone)
  {
    match gone
    case None => ListRemoved(services, lists, service, f);
    case Some(n) =>
      if f == service.id.fsid {
        RemovedFrom(services, ListOf(lists, f), n, service);
      } else {
        OtherListed(services, ListOf(lists, f)[n..], service, f);
      }
  }

  // The lists once the next service of a cluster that is being deleted is gone, too.
  lemma StillListed(services: map<ServiceId, ServiceState>, lists: map<Fsid, seq<ServiceState>>,
                    service: ServiceState, f: Fsid, gone: Option<nat>)
    requires service.id in services && services[service.id] == service
    requires forall id :: id in services ==> services[id].id == id
    requires ListsIn(services, lists, f, gone)
    requires gone.Some? <==> f == service.id.fsid
    requires gone.Some? ==> gone.value < |ListOf(lists, f)| && ListOf(lists, f)[gone.value] == service
    ensures ListsIn(services - {service.id}, lists, f, if gone.Some? then Some(gone.value + 1) else None)
  {
    match gone
    case None => OtherListed(services, ListOf(lists, f), service, f);
    case Some(n) => DroppedFrom(services, ListOf(lists, f), n, f);
  }

  lemma RemovedFrom(services: map<ServiceId, ServiceState>, list: seq<ServiceState>, n: nat, service: ServiceState)
    requires ListedFrom(services, list, n, service.id.fsid)
    requires service.id in services && services[service.id] == service
    requires forall id :: id in services ==> services[id].id == id
    ensures service in list
    ensures ListedFrom(services - {service.id}, Removed(list, service), n, service.id.fsid)
  {
    RemovedBehind(list, n, service);
    RemovedListed(services, list[n..], service);
    forall s | s in Removed(list, service)
      ensures s.id.fsid == service.id.fsid
    {
      RemovedIsRest(list, service, s);
    }
  }

  lemma {:induction false} RemovedBehind(list: seq<ServiceState>, n: nat, x: ServiceState)
    requires Distinct(list) && n <= |list| && x in list[n..]
    ensures x in list && Distinct(Removed(list, x)) && n <= |Removed(list, x)|
    ensures Removed(list, x)[n..] == Removed(list[n..], x)
  {
    RemovedIsRest(list, x, x);
    if n > 0 {
      assert list == [list[0]] + list[1..];
      assert list[1..][n - 1..] == list[n..];
      RemovedBehind(list[1..], n - 1, x);
    } else {
      assert list[n..] == list;
    }
  }

  lemma RestOf(list: seq<ServiceState>, n: nat)
    requires Distinct(list) && n < |list|
    ensures forall s :: s in list[n + 1..] <==> s in list[n..] && s != list[n]
  {
    assert list[n..] == [list[n]] + list[n + 1..];
  }

  lemma DroppedFrom(services: map<ServiceId, ServiceState>, list: seq<ServiceState>, n: nat, f: Fsid)
    requires ListedFrom(services, list, n, f) && n < |list|
    requires forall id :: id in services ==> services[id].id == id
    ensures list[n].id in services && services[list[n].id] == list[n]
    ensures ListedFrom(services - {list[n].id}, list, n + 1, f)
  {
    assert list[n] in list[n..];
    RestOf(list, n);
    hide Distinct;
  }

  lemma OtherListed(services: map<ServiceId, ServiceState>, list: seq<ServiceState>, service: ServiceState, f: Fsid)
    requires ListedUnder(services, list, f) && f != service.id.fsid
    ensures ListedUnder(services - {service.id}, list, f)
  {
  }
}
