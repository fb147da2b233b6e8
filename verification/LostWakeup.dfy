// A run in which a wakeup is lost: the registry of servers fails on the OSD map that a request
// waits for.
module LostWakeup {
  import opened Wrappers
  import opened SyncTypes
  import opened SyncMirror
  import opened Requests
  import opened RequestIndex
  import opened Wakeups
  import opened Cluster
  import opened ClusterMonitors
  import opened ManagerRuns
  import Rolls
  import HostRolls
  import RegistryRuns

  const MON: Minion := "mon"
  const PLAN: Plan := OsdMapModifying([])

  function NoNews(): map<SyncType, Version> {
    map t: SyncType | t in SYNC_OBJECT_TYPES :: None
  }

  // An OSD map of one host with one OSD.
  function OneOsd(pools: PoolTable, h: string, name: string): MapData {
    OsdData(pools, 1, map[h := map[name := true]])
  }

  // Three OSD maps of a cluster whose servers do not report themselves: an OSD, the same one on
  // another host, and a new one on the first host.
  function Maps(pools: PoolTable, h: string, g: string, name: string, other: string): seq<MapData> {
    [OneOsd(pools, h, name), OneOsd(pools, g, name), OneOsd(pools, h, other)]
  }

  // The cluster publishes them. A mon reports itself, and the first two are fetched from it; then an
  // operation is asked for, whose job makes the third map; and that one is fetched, too.
  function LosingInputs(maps: seq<MapData>): seq<Input>
    requires |maps| == 3
  {
    [Published(OsdMap, maps[0]),
     Published(OsdMap, maps[1]),
     Published(OsdMap, maps[2]),
     HeartbeatFrom(MON, NoNews(), 60, 0),
     MapFrom(MON, OsdMap, Some(1), maps[0], {}, 0),
     MapFrom(MON, OsdMap, Some(2), maps[1], {}, 0),
     RequestOf("request", PLAN, true, 0),
     JobReplyFrom(JobId(0), MON, Success(3), true, 0),
     MapFrom(MON, OsdMap, Some(3), maps[2], {}, 0)]
  }

  // ---------------------------------------------------------------- step by step

  const ASKED: Request :=
    NewRequest(PLAN).(state := Submitted, minion := Some(MON), jid := Some(JobId(0)), aliveAt := Some(0), jobs := [[]])

  // The request, once its job has ended with version 3 of the OSD map.
  const WAITING: Request := ASKED.(jid := None, awaitVersion := Some(3))

  // The manager has stored this version of the OSD map.
  ghost predicate HasStored(w: World, version: Version) {
    OsdMap in w.monitor.mirrors && w.monitor.mirrors[OsdMap].stored.version == version
  }

  lemma NobodyToWalk(order: seq<RequestId>)
    requires Enumerates(order, SubmittedIds(EMPTY_COLLECTION))
    ensures order == []
  {
    assert SubmittedIds(EMPTY_COLLECTION) == {};
    FirstIsIn(order);
  }

  lemma FirstIsIn(order: seq<RequestId>)
    ensures order != [] ==> order[0] in order
  {
  }

  // A first heartbeat makes the mon the favourite.
  lemma Beats(w: World, e: Event, w': World)
    requires Next(w, e, w') && IsEventOf(HeartbeatFrom(MON, NoNews(), 60, 0), e)
    requires w.monitor.requests == EMPTY_COLLECTION && w.monitor.favorite == None && HasStored(w, None)
    ensures w'.history == w.history && w'.monitor.requests == EMPTY_COLLECTION
    ensures w'.monitor.favorite == Some(MON) && HasStored(w', None)
  {
    NobodyToWalk(e.msg.order);
    forall t: SyncType
      ensures t in NoNews() && NoNews()[t] == None
    {
      EveryType(t);
    }
  }

  // A map that goes through the registry is stored, and there is no request to be told of it.
  lemma Stores(w: World, e: Event, w': World, version: nat, data: MapData)
    requires Next(w, e, w') && IsEventOf(MapFrom(MON, OsdMap, Some(version), data, {}, 0), e)
    requires w.monitor.requests == EMPTY_COLLECTION && OsdMap in w.monitor.mirrors
    requires Cmp(OsdMap, Some(version), w.monitor.mirrors[OsdMap].stored.version) > 0
    ensures w'.history == w.history && w'.monitor.requests == EMPTY_COLLECTION
    ensures w'.monitor.favorite == w.monitor.favorite && HasStored(w', Some(version))
  {
    NobodyToWalk(e.msg.order);
  }

  // An operation on the OSD map is asked for, and its job is under way.
  lemma Asks(w: World, e: Event, w': World)
    requires Next(w, e, w') && IsEventOf(RequestOf("request", PLAN, true, 0), e)
    requires w.monitor.requests == EMPTY_COLLECTION && w.monitor.favorite == Some(MON)
    ensures w'.history == w.history && w'.monitor.mirrors == w.monitor.mirrors
    ensures w'.monitor.requests == Collection(map["request" := ASKED], map[JobId(0) := "request"], 1)
  {
    var c := w.monitor.requests;
    var none: seq<seq<Command>> := [];
    assert none + [[]] == [[]];
    assert Requests.Submit(NewRequest(PLAN), MON, Offer(c, true), 0).r == ASKED;
    assert RequestIndex.Submit(c, "request", PLAN, MON, true, 0).c.requests == map["request" := ASKED];
  }

  // The job ends with version 3 of the OSD map, which is not stored yet.
  lemma Ends(w: World, e: Event, w': World)
    requires Next(w, e, w') && IsEventOf(JobReplyFrom(JobId(0), MON, Success(3), true, 0), e) && HasStored(w, Some(2))
    requires w.monitor.requests == Collection(map["request" := ASKED], map[JobId(0) := "request"], 1)
    ensures HasStored(w', Some(2)) && w'.monitor.requests.requests == map["request" := WAITING]
  {
  }

  // The map of that version arrives, and the registry fails on it.
  lemma Fails(w: World, e: Event, w': World, data: MapData)
    requires Next(w, e, w') && IsEventOf(MapFrom(MON, OsdMap, Some(3), data, {}, 0), e) && e.msg.failed
    requires HasStored(w, Some(2)) && w.monitor.requests.requests == map["request" := WAITING]
    ensures w'.monitor.requests == w.monitor.requests && OsdMap in w'.monitor.mirrors
    ensures IsSubmitted(w'.monitor.requests, "request")
    ensures MissedWakeup(w'.monitor.requests.requests["request"], w'.monitor.mirrors[OsdMap].stored)
  {
  }

  // ---------------------------------------------------------------- the run

  lemma StepAt(fsid: string, inputs: seq<Input>, ws: seq<World>, es: seq<Event>, trail: seq<Answer>, i: nat)
    requires IsService(fsid, inputs, ws, es, trail) && i < |inputs|
    ensures Next(ws[i], es[i], ws[i + 1]) && IsEventOf(inputs[i], es[i])
    ensures Total(ws[i].monitor.mirrors) && RegistryRuns.RollAt(trail, i).Valid()
    ensures Answered(fsid, inputs[i], ws[i], es[i], RegistryRuns.RollAt(trail, i), trail[i])
  {
    hide Next, IsEventOf, Answered;
    assert IsStep(fsid, inputs, ws, es, trail, i);
  }

  // Until the first map comes, the registry has seen nothing.
  lemma Prepared(fsid: string, maps: seq<MapData>, ws: seq<World>, es: seq<Event>, trail: seq<Answer>)
    requires |maps| == 3 && IsService(fsid, LosingInputs(maps), ws, es, trail)
    ensures ws[4].monitor.requests == EMPTY_COLLECTION && ws[4].monitor.favorite == Some(MON) && HasStored(ws[4], None)
    ensures RegistryRuns.RollAt(trail, 4) == RegistryRuns.RollAt([], 0)
  {
    hide Next, Shown, IsService, IsRun, IsStep, Initial;
    var inputs := LosingInputs(maps);
    NothingIsInitial();
    StartsWithNothing(fsid, inputs, ws, es, trail);
    assert HasStored(ws[0], None);
    hide Nothing;
    StepAt(fsid, inputs, ws, es, trail, 0);
    Publishes(ws[0], es[0], ws[1]);
    StepAt(fsid, inputs, ws, es, trail, 1);
    Publishes(ws[1], es[1], ws[2]);
    StepAt(fsid, inputs, ws, es, trail, 2);
    Publishes(ws[2], es[2], ws[3]);
    StepAt(fsid, inputs, ws, es, trail, 3);
    Beats(ws[3], es[3], ws[4]);
  }

  lemma StartsWithNothing(fsid: string, inputs: seq<Input>, ws: seq<World>, es: seq<Event>, trail: seq<Answer>)
    requires IsService(fsid, inputs, ws, es, trail)
    ensures ws[0] == Nothing()
  {
    hide IsRun, IsStep;
  }

  lemma Publishes(w: World, e: Event, w': World)
    requires Next(w, e, w') && e.Publish?
    ensures w'.monitor == w.monitor
  {
  }

  // The first two maps go through the registry.
  lemma Moved(fsid: string, pools: PoolTable, h: string, g: string, name: string, other: string, ws: seq<World>,
              es: seq<Event>, trail: seq<Answer>)
    requires h != g && IsService(fsid, LosingInputs(Maps(pools, h, g, name, other)), ws, es, trail)
    ensures ws[6].monitor.requests == EMPTY_COLLECTION && ws[6].monitor.favorite == Some(MON)
    ensures HasStored(ws[6], Some(2)) && RegistryRuns.RollAt(trail, 6).Valid()
    ensures name != other ==> HostRolls.Stray(RegistryRuns.RollAt(trail, 6), h, RegistryRuns.OsdId(fsid, other))
  {
    hide IsService, IsStep;
    hide Next, HostRolls.Stray, RegistryRuns.Answers, RegistryRuns.OnlyOn, HostRolls.NewRegistered, Rolls.Roll.Valid;
    var maps := Maps(pools, h, g, name, other);
    var inputs := LosingInputs(maps);
    Prepared(fsid, maps, ws, es, trail);
    StepAt(fsid, inputs, ws, es, trail, 4);
    RegistryRuns.FirstAnswer(fsid, RegistryRuns.RollAt(trail, 4), trail[4], h, name);
    Stores(ws[4], es[4], ws[5], 1, maps[0]);
    StepAt(fsid, inputs, ws, es, trail, 5);
    RegistryRuns.SecondAnswer(fsid, RegistryRuns.RollAt(trail, 4), trail[4].after, trail[5], h, g, name);
    Stores(ws[5], es[5], ws[6], 2, maps[1]);
    StepAt(fsid, inputs, ws, es, trail, 6);
  }

  // Whoever manages a cluster with these inputs ends up with a request that waits for the OSD map that
  // is stored: the registry has failed on it, and it was not told.
  lemma WakeupIsLost(fsid: string, pools: PoolTable, h: string, g: string, name: string, other: string, ws: seq<World>,
                     es: seq<Event>, trail: seq<Answer>)
    requires h != g && name != other
    requires IsService(fsid, LosingInputs(Maps(pools, h, g, name, other)), ws, es, trail)
    ensures trail[8].raised && IsSubmitted(ws[9].monitor.requests, "request") && OsdMap in ws[9].monitor.mirrors
    ensures MissedWakeup(ws[9].monitor.requests.requests["request"], ws[9].monitor.mirrors[OsdMap].stored)
  {
    hide Next, HostRolls.Stray, RegistryRuns.Answers, MissedWakeup, Rolls.Roll.Valid, IsService, IsStep;
    var maps := Maps(pools, h, g, name, other);
    var inputs := LosingInputs(maps);
    Moved(fsid, pools, h, g, name, other, ws, es, trail);
    StepAt(fsid, inputs, ws, es, trail, 6);
    Asks(ws[6], es[6], ws[7]);
    StepAt(fsid, inputs, ws, es, trail, 7);
    Ends(ws[7], es[7], ws[8]);
    StepAt(fsid, inputs, ws, es, trail, 8);
    RegistryRuns.ThirdAnswer(fsid, RegistryRuns.RollAt(trail, 8), trail[8], h, other);
    Fails(ws[8], es[8], ws[9], maps[2]);
  }

  // What has been published once the i-th input comes.
  lemma {:induction false} PublishedBy(maps: seq<MapData>, i: nat)
    requires |maps| == 3 && i <= 9
    ensures var history := HistoryAfter(LosingInputs(maps)[..i]);
            && (forall t: SyncType :: t in history)
            && history[OsdMap] == if i < 3 then maps[..i] else maps
  {
    var inputs := LosingInputs(maps);
    NothingIsInitial();
    forall t: SyncType
      ensures t in Nothing().history
    {
      EveryType(t);
    }
    if i > 0 {
      PublishedBy(maps, i - 1);
      assert inputs[..i][..i - 1] == inputs[..i - 1];
      assert i <= 3 ==> maps[..i] == maps[..i - 1] + [maps[i - 1]];
      assert maps[..3] == maps;
    }
  }

  lemma IsSensible(maps: seq<MapData>, i: nat)
    requires |maps| == 3 && i < 9
    ensures Sensible(HistoryAfter(LosingInputs(maps)[..i]), LosingInputs(maps)[i])
  {
    PublishedBy(maps, i);
    hide HistoryAfter;
    forall t: SyncType
      ensures t in NoNews() && NoNews()[t] == None
    {
      EveryType(t);
    }
  }

  lemma IsPlausible(maps: seq<MapData>)
    requires |maps| == 3
    ensures Plausible(LosingInputs(maps))
  {
    var inputs := LosingInputs(maps);
    assert forall i :: 0 <= i < |inputs| && Asked(inputs[i]).Some? ==> i == 6;
    hide HistoryAfter, Sensible, Asked, LosingInputs;
    forall i | 0 <= i < |inputs|
      ensures Sensible(HistoryAfter(inputs[..i]), inputs[i])
    {
      IsSensible(maps, i);
    }
  }

  // The manager itself, with such inputs.
  method LoseWakeup(fsid: string, pools: PoolTable, h: string, g: string, name: string, other: string)
    returns (cm: ClusterMonitor, ghost ws: seq<World>, ghost es: seq<Event>, ghost trail: seq<Answer>)
    requires h != g && name != other
    ensures fresh(cm) && cm.Valid() && cm.syncObjects.Valid()
    ensures IsService(fsid, LosingInputs(Maps(pools, h, g, name, other)), ws, es, trail) && cm.View() == ws[9].monitor
    ensures trail[8].raised && IsSubmitted(cm.View().requests, "request") && OsdMap in cm.View().mirrors
    ensures MissedWakeup(cm.View().requests.requests["request"], cm.View().mirrors[OsdMap].stored)
  {
    hide MissedWakeup, IsService, Plausible, ClusterMonitor.Valid, ClusterMonitor.View, SnapshotOf;
    var inputs := LosingInputs(Maps(pools, h, g, name, other));
    IsPlausible(Maps(pools, h, g, name, other));
    var seen;
    cm, seen, ws, es, trail := Serve(fsid, inputs);
    WakeupIsLost(fsid, pools, h, g, name, other, ws, es, trail);
  }
}
