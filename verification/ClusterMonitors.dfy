// The manager of one cluster as the object that handles Salt's events and the users' requests,
// each handler being atomic.
module ClusterMonitors {
  import opened Wrappers
  import opened SyncTypes
  import opened SyncMirror
  import opened Requests
  import opened RequestObjects
  import opened RequestIndex
  import opened RequestCollections
  import Placements
  import Rolls
  import HostOrders
  import ServerRegistry
  import RegistryRuns
  import Cluster

  type Answer = RegistryRuns.Answer

  // What the registry of servers is asked with a map; maps of the other types it is not shown.
  function CallOf(fsid: Placements.Fsid, t: SyncType, data: MapData): Option<RegistryRuns.Call> {
    if t == OsdMap && data.OsdData? then Some(RegistryRuns.Call.OsdMap(fsid, data.hosts))
    else if t == MonMap && data.NamesData? then Some(RegistryRuns.Call.MonMap(fsid, data.names))
    else if t == MdsMap && data.NamesData? then Some(RegistryRuns.Call.MdsMap(fsid, data.names))
    else None
  }

  // What comes of a new map in the registry. Data that is not of its map's kind is an error.
  ghost predicate Shown(fsid: Placements.Fsid, t: SyncType, data: MapData, m: Rolls.Roll, a: Answer)
    requires m.Valid()
  {
    match CallOf(fsid, t, data)
    case Some(call) => RegistryRuns.Answers(call, m, a)
    case None => a.after == m && (a.raised <==> t in Cluster.REGISTRY_TYPES)
  }

  lemma IsShown(fsid: Placements.Fsid, t: SyncType, data: MapData, m: Rolls.Roll, a: Answer)
    requires m.Valid()
    requires if t == OsdMap && data.OsdData? then
               HostOrders.MapAnswered(m, a.order, a.halfway, a.after, fsid, data.hosts, a.raised)
             else if t in {MonMap, MdsMap} && data.NamesData? then
               && !a.raised
               && var kind := if t == MonMap then "mon" else "mds";
                  a.after == m.(rel := Placements.Pruned(m.rel, fsid, kind,
                                         set n | n in data.names :: Placements.ServiceId(fsid, kind, n)))
             else a.after == m && (a.raised <==> t in {OsdMap, MonMap, MdsMap})
    ensures Shown(fsid, t, data, m, a) && (a.raised ==> t in Cluster.REGISTRY_TYPES)
  {
    hide HostOrders.MapAnswered, Placements.Pruned, Rolls.Roll.Valid;
  }

  class ClusterMonitor {
    const fsid: Placements.Fsid
    const syncObjects: SyncObjects
    const requests: RequestCollection
    const servers: ServerRegistry.ServerMonitor
    var favoriteMon: Option<Minion>
    var lastHeartbeat: map<Minion, Time>

    ghost predicate Valid()
      reads this, syncObjects, requests, requests.salt, requests.Objects()
      reads servers, servers.known, servers.states
    {
      syncObjects.Valid() && requests.Valid() && servers.Valid()
    }

    // The objects that belong to the requests and to the registry.
    ghost function Objects(): set<object>
      reads requests, servers
    {
      requests.Objects() + servers.known + servers.states
    }

    // The parts do not share objects.
    lemma AreApart()
      ensures requests.Objects() !! {this, syncObjects, requests, requests.salt, servers}
      ensures requests.Objects() !! servers.known && requests.Objects() !! servers.states
      ensures forall x: object :: x in {this, syncObjects, requests, requests.salt} ==>
                x !in servers.known && x !in servers.states
      ensures requests.Objects() <= Objects()
      ensures forall x :: x in servers.known ==> x in Objects()
      ensures forall x :: x in servers.states ==> x in Objects()
    {
    }

    lemma PartsAreValid()
      ensures Valid() <==> syncObjects.Valid() && requests.Valid() && servers.Valid()
    {
    }

    lemma RosterValid()
      requires Valid()
      ensures servers.Roster().Valid()
    {
      servers.RosterValid();
    }

    ghost function View(): Cluster.Monitor
      requires syncObjects.Valid()
      reads this, syncObjects, requests, requests.salt
    {
      Cluster.Monitor(syncObjects.View(), requests.Contents(), favoriteMon, lastHeartbeat)
    }

    constructor (fsid: Placements.Fsid)
      ensures Valid() && this.fsid == fsid
      ensures fresh(syncObjects) && fresh(requests) && fresh(requests.salt) && fresh(servers)
      ensures Objects() == {} && servers.Roster() == Rolls.Roll(map[], map[], map[], map[], {})
      ensures View().requests == EMPTY_COLLECTION && View().favorite == None && View().lastHeartbeat == map[]
      ensures forall t: SyncType :: View().mirrors[t] == EMPTY_MIRROR
    {
      hide SyncObjects.Valid, ServerRegistry.ServerMonitor.Valid, RequestCollection.Valid;
      this.fsid := fsid;
      syncObjects := new SyncObjects();
      requests := new RequestCollection();
      servers := new ServerRegistry.ServerMonitor();
      favoriteMon := None;
      lastHeartbeat := map[];
    }

    method SetFavorite(minion: Minion) returns (ghost order: seq<RequestId>)
      requires Valid() && favoriteMon != Some(minion)
      modifies this`favoriteMon, requests`byJid, requests`requests, requests`index, requests.Objects()
      ensures Valid()
      ensures Enumerates(order, SubmittedIds(old(View()).requests))
      ensures View() == Cluster.SetFavorite(old(View()), minion, order)
    {
      hide RequestCollection.Valid, RequestCollection.Contents, RequestCollection.Objects;
      hide SyncObjects.Valid, SyncObjects.View, ServerRegistry.ServerMonitor.Valid;
      AreApart();
      order := requests.FailAll();
      favoriteMon := Some(minion);
    }

    // True if the minion is the favourite, or has just become it.
    method IsFavorite(minion: Minion, timeout: Time, now: Time) returns (yes: bool, ghost order: seq<RequestId>)
      requires Valid()
      modifies this, requests`byJid, requests`requests, requests`index, requests.Objects()
      ensures Valid()
      ensures Enumerates(order, SubmittedIds(old(View()).requests))
      ensures View() == Cluster.Promote(old(View()), minion, timeout, order, now)
      ensures yes <==> favoriteMon == Some(minion)
    {
      lastHeartbeat := lastHeartbeat[minion := now];
      order := Ordering(SubmittedIds(requests.Contents()));
      if favoriteMon.None? {
        order := SetFavorite(minion);
        return true, order;
      } else if Some(minion) != favoriteMon && favoriteMon.value in lastHeartbeat {
        if now - lastHeartbeat[favoriteMon.value] > timeout {
          order := SetFavorite(minion);
        }
      }
      yes := Some(minion) == favoriteMon;
    }

    // Make the versions that a heartbeat names known to the mirrors.
    method HearVersions(minion: Minion, versions: map<SyncType, Version>, now: Time)
      requires syncObjects.Valid() && forall t: SyncType :: t in versions
      modifies syncObjects`fetchingAt, syncObjects`knownVersions
      ensures syncObjects.Valid()
      ensures syncObjects.View() == Cluster.HearAll(old(syncObjects.View()), minion, versions, now)
    {
      ghost var order: seq<SyncType> := [];
      var rest := SYNC_OBJECT_TYPES;
      while rest != {}
        invariant syncObjects.Valid()
        invariant rest <= SYNC_OBJECT_TYPES
        invariant forall t :: t in order <==> t in SYNC_OBJECT_TYPES && t !in rest
        invariant forall i, k :: 0 <= i < k < |order| ==> order[i] != order[k]
        invariant syncObjects.View() == Cluster.HearInTurn(old(syncObjects.View()), order, minion, versions, now)
      {
        var t :| t in rest;
        HearOne(minion, t, versions[t], now);
        Cluster.HearInTurnOneMore(old(syncObjects.View()), order, t, minion, versions, now);
        order, rest := order + [t], rest - {t};
      }
      Cluster.HearInTurnIsHearAll(old(syncObjects.View()), order, minion, versions, now);
    }

    method HearOne(minion: Minion, t: SyncType, version: Version, now: Time)
      requires syncObjects.Valid()
      modifies syncObjects`fetchingAt, syncObjects`knownVersions
      ensures syncObjects.Valid()
      ensures var v := old(syncObjects.View());
              syncObjects.View() == v[t := HearVersion(t, v[t], Some(minion), version, now)]
    {
      ghost var v := syncObjects.View();
      syncObjects.OnVersion(Some(minion), t, version, now);
      SameMirrors(syncObjects.View(), v[t := HearVersion(t, v[t], Some(minion), version, now)]);
    }

    method OnHeartbeat(minion: Minion, versions: map<SyncType, Version>, timeout: Time, now: Time)
      returns (ghost order: seq<RequestId>)
      requires Valid() && forall t: SyncType :: t in versions
      modifies this, requests`byJid, requests`requests, requests`index, requests.Objects()
      modifies syncObjects`fetchingAt, syncObjects`knownVersions
      ensures Valid()
      ensures Enumerates(order, SubmittedIds(old(View()).requests))
      ensures Objects() == old(Objects()) && servers.Roster() == old(servers.Roster())
      ensures View() == Cluster.OnHeartbeat(old(View()), minion, versions, timeout, order, now)
    {
      hide RequestCollection.Valid, RequestCollection.Contents;
      hide SyncObjects.Valid, SyncObjects.View, ServerRegistry.ServerMonitor.Valid;
      var yes;
      yes, order := IsFavorite(minion, timeout, now);
      AreApart();
      if yes {
        HearVersions(minion, versions, now);
      }
    }

    method Store(minion: Minion, t: SyncType, version: Version, data: MapData, now: Time)
      returns (newObject: Option<SyncObject>)
      requires Valid()
      modifies syncObjects
      ensures Valid() && servers.Roster() == old(servers.Roster())
      ensures var m, o := old(View()), SyncObject(version, data);
              && View() == m.(mirrors := m.mirrors[t := TakeFetched(t, m.mirrors[t], Some(minion), o, now)])
              && newObject == (if IsNews(t, m.mirrors[t], version) then Some(o) else None)
    {
      ghost var v := syncObjects.View();
      AreApart();
      hide ServerRegistry.ServerMonitor.Valid, RequestCollection.Valid, RequestCollection.Contents;
      newObject := syncObjects.OnFetchComplete(Some(minion), t, version, data, now);
      SameMirrors(syncObjects.View(), v[t := TakeFetched(t, v[t], Some(minion), SyncObject(version, data), now)]);
    }

    // The registry of servers is shown a new map. Data that is not of its map's kind is an error.
    method Show(t: SyncType, data: MapData) returns (raised: bool, ghost a: Answer)
      requires Valid()
      modifies servers, servers.known`services, servers.states
      ensures Valid() && View() == old(View())
      ensures fresh(servers.known - old(servers.known)) && fresh(servers.states - old(servers.states))
      ensures old(servers.Roster().Valid()) && servers.Roster().Valid()
      ensures Shown(fsid, t, data, old(servers.Roster()), a) && servers.Roster() == a.after
      ensures raised == a.raised && (raised ==> t in Cluster.REGISTRY_TYPES)
    {
      hide RequestCollection.Valid, RequestCollection.Contents, SyncObjects.Valid;
      hide SyncObjects.View, ServerRegistry.ServerMonitor.Valid, ServerRegistry.ServerMonitor.Roster, Shown;
      hide HostOrders.MapAnswered, Rolls.Roll.Valid, Placements.Pruned, Cluster.REGISTRY_TYPES;
      PartsAreValid();
      AreApart();
      servers.RosterValid();
      servers.RosterIs();
      ghost var m, order: seq<string>, halfway := servers.Roster(), [], servers.Roster();
      if t == OsdMap && data.OsdData? {
        raised, order, halfway := servers.OnOsdMap(fsid, data.hosts);
      } else if t == MonMap && data.NamesData? {
        servers.OnMonMap(fsid, data.names);
        raised := false;
      } else if t == MdsMap && data.NamesData? {
        servers.OnMdsMap(fsid, data.names);
        raised := false;
      } else {
        raised := t == OsdMap || t == MonMap || t == MdsMap;
      }
      PartsAreValid();
      servers.RosterValid();
      a := RegistryRuns.Answer(raised, null, order, halfway, servers.Roster());
      IsShown(fsid, t, data, m, a);
    }

    method Tell(t: SyncType, o: SyncObject, refused: set<RequestId>, now: Time) returns (ghost order: seq<RequestId>)
      requires Valid()
      modifies requests`byJid, requests`requests, requests`index, requests.salt, requests.Objects()
      ensures Valid() && servers.Roster() == old(servers.Roster())
      ensures Enumerates(order, SubmittedIds(old(View()).requests))
      ensures View() == old(View()).(requests := OnMapAll(old(View()).requests, order, t, o, refused, now))
    {
      hide RequestCollection.Valid, RequestCollection.Contents, RequestCollection.Objects;
      hide SyncObjects.Valid, SyncObjects.View, ServerRegistry.ServerMonitor.Valid;
      AreApart();
      order := requests.OnMap(t, o, refused, now);
    }

    // A fetched map, from whichever mon, is stored; then the registry of servers is shown it; and
    // only then, if that went well, the requests are told of it.
    method OnSyncObject(minion: Minion, t: SyncType, version: Version, data: MapData, refused: set<RequestId>,
                        now: Time)
      returns (failed: bool, ghost order: seq<RequestId>, ghost a: Answer)
      requires Valid()
      modifies syncObjects, requests`byJid, requests`requests, requests`index, requests.salt, requests.Objects()
      modifies servers, servers.known`services, servers.states
      ensures Valid() && fresh(Objects() - old(Objects()))
      ensures Enumerates(order, SubmittedIds(old(View()).requests))
      ensures View() == Cluster.OnSyncObject(old(View()), minion, t, SyncObject(version, data), order, refused,
                                             failed, now)
      ensures old(servers.Roster().Valid()) && servers.Roster().Valid()
      ensures servers.Roster() == a.after && failed == a.raised && (failed ==> t in Cluster.REGISTRY_TYPES)
      ensures if IsNews(t, old(View()).mirrors[t], version) then Shown(fsid, t, data, old(servers.Roster()), a)
              else !failed && a.after == old(servers.Roster())
    {
      hide RequestCollection.Valid, RequestCollection.Contents, RequestCollection.Objects;
      hide SyncObjects.Valid, SyncObjects.View, ServerRegistry.ServerMonitor.Valid;
      AreApart();
      hide ServerRegistry.ServerMonitor.Roster, Shown;
      servers.RosterValid();
      var newObject := Store(minion, t, version, data, now);
      order := Ordering(SubmittedIds(requests.Contents()));
      failed, a := false, RegistryRuns.Answer(false, null, [], servers.Roster(), servers.Roster());
      if newObject.Some? {
        failed, a := Show(t, data);
        if !failed {
          order := Tell(t, newObject.value, refused, now);
        }
      }
    }

    // Create a request, if there is a mon to send it to. It fails, and is not filed, if there is
    // none or if Salt refuses its job.
    method MakeRequest(id: RequestId, plan: Plan, accepts: bool, now: Time) returns (failed: bool)
      requires Valid() && id !in View().requests.requests && Creatable(plan)
      modifies requests, requests.salt
      ensures Valid() && fresh(Objects() - old(Objects())) && servers.Roster() == old(servers.Roster())
      ensures View() == Cluster.MakeRequest(old(View()), id, plan, accepts, now)
      ensures failed <==> id !in View().requests.requests
    {
      hide RequestCollection.Valid, RequestCollection.Contents, SyncObjects.Valid, SyncObjects.View;
      hide ServerRegistry.ServerMonitor.Valid;
      AreApart();
      requests.KeysAreIds();
      if favoriteMon.None? {
        return true;
      }
      var request := new UserRequest(id, plan);
      failed := requests.Submit(request, favoriteMon.value, accepts, now);
      requests.KeysAreIds();
    }

    // The end of a job, as the manager passes it on.
    method OnJobReply(jid: JobId, minion: Minion, reply: Reply, accepts: bool, now: Time) returns (raised: bool)
      requires Valid()
      modifies requests`byJid, requests`requests, requests`index, requests.salt, requests.Objects()
      modifies syncObjects`fetchingAt, syncObjects`knownVersions
      ensures Valid()
      ensures Objects() == old(Objects()) && servers.Roster() == old(servers.Roster())
      ensures View() == Cluster.OnJobReply(old(View()), jid, minion, reply, accepts, now)
    {
      hide RequestCollection.Contents, RequestCollection.Objects;
      hide SyncObjects.View, ServerRegistry.ServerMonitor.Valid;
      AreApart();
      ghost var c, v := requests.Contents(), syncObjects.View();
      raised := requests.OnCompletion(jid, minion, reply, syncObjects, accepts, now);
      ghost var done := OnCompletion(c, v[OsdMap], jid, minion, reply, accepts, now);
      SameMirrors(syncObjects.View(), v[OsdMap := done.osdMap]);
    }

    // The rest is between the users, Salt and the collection of requests.
    method OnTickResponse(jobs: seq<JobId>, now: Time)
      requires Valid()
      modifies requests`requests, requests.Objects()
      ensures Valid()
      ensures Objects() == old(Objects()) && servers.Roster() == old(servers.Roster())
      ensures View() == old(View()).(requests := RequestIndex.OnTickResponse(old(View()).requests, jobs, now))
    {
      hide RequestCollection.Valid, RequestCollection.Contents, RequestCollection.Objects;
      hide SyncObjects.Valid, SyncObjects.View, ServerRegistry.ServerMonitor.Valid;
      AreApart();
      requests.OnTickResponse(jobs, now);
    }

    method OnTick(now: Time) returns (ghost order: seq<RequestId>, ghost done: set<RequestId>)
      requires Valid()
      modifies requests`byJid, requests`requests, requests`index, requests.Objects()
      ensures Valid()
      ensures Objects() == old(Objects()) && servers.Roster() == old(servers.Roster())
      ensures done <= OverdueIds(old(View()).requests, now) && Enumerates(order, done)
      ensures forall id :: id in done ==> id in old(View()).requests.requests
      ensures var e := Tick(old(View()).requests, order);
              && View() == old(View()).(requests := e.c)
              && (!e.raised ==> done == OverdueIds(old(View()).requests, now))
    {
      hide RequestCollection.Valid, RequestCollection.Contents, RequestCollection.Objects;
      hide SyncObjects.Valid, SyncObjects.View, ServerRegistry.ServerMonitor.Valid;
      AreApart();
      var raised;
      raised, order, done := requests.Tick(now);
    }

    method Cancel(id: RequestId)
      requires Valid()
      modifies requests`byJid, requests`requests, requests`index, requests.Objects()
      ensures Valid()
      ensures Objects() == old(Objects()) && servers.Roster() == old(servers.Roster())
      ensures View() == old(View()).(requests := RequestIndex.Cancel(old(View()).requests, id))
    {
      hide RequestCollection.Valid, RequestCollection.Contents, RequestCollection.Objects;
      hide SyncObjects.Valid, SyncObjects.View, ServerRegistry.ServerMonitor.Valid;
      AreApart();
      requests.Cancel(id);
    }

    method DebugJob(id: RequestId, call: Command, minion: Minion, accepts: bool, now: Time) returns (failed: bool)
      requires Valid() && id !in View().requests.requests
      modifies requests, requests.salt
      ensures Valid() && fresh(Objects() - old(Objects())) && servers.Roster() == old(servers.Roster())
      ensures View() == old(View()).(requests :=
                RequestIndex.Submit(old(View()).requests, id, SaltCall(call), minion, accepts, now).c)
    {
      hide RequestCollection.Valid, RequestCollection.Contents, SyncObjects.Valid, SyncObjects.View;
      hide ServerRegistry.ServerMonitor.Valid;
      AreApart();
      requests.KeysAreIds();
      var request := new UserRequest(id, SaltCall(call));
      failed := requests.Submit(request, minion, accepts, now);
    }
  }
}
