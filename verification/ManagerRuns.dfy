// The manager as an object, given one input after another: what it does is a run of the manager as a
// value, whose events are these inputs, so that everything proved about runs holds of the object.
module ManagerRuns {
  import opened Wrappers
  import opened SyncTypes
  import opened SyncMirror
  import opened Requests
  import opened RequestObjects
  import opened RequestIndex
  import opened RequestCollections
  import opened Cluster
  import opened ClusterSteps
  import opened ClusterRuns
  import opened ClusterMonitors
  import opened CollectionRuns
  import opened Rolls
  import RegistryRuns

  // What the manager is given; the cluster itself publishes maps meanwhile.
  datatype Input =
    | Published(t: SyncType, data: MapData)
    | HeartbeatFrom(minion: Minion, versions: map<SyncType, Version>, timeout: Time, now: Time)
    | MapFrom(minion: Minion, t: SyncType, version: Version, data: MapData, refused: set<RequestId>, now: Time)
    | JobReplyFrom(jid: JobId, minion: Minion, reply: Reply, accepts: bool, now: Time)
    | RunningJobs(jobs: seq<JobId>, now: Time)
    | Clock(now: Time)
    | CancelOf(id: RequestId)
    | RequestOf(id: RequestId, plan: Plan, accepts: bool, now: Time)
    | DebugJobOf(id: RequestId, call: Command, minion: Minion, accepts: bool, now: Time)

  // Versions and maps are ones that the cluster has had, and there is something to grow.
  ghost predicate Sensible(history: map<SyncType, History>, input: Input) {
    && (forall t: SyncType :: t in history)
    && match input
       case HeartbeatFrom(minion, versions, timeout, now) =>
         forall t: SyncType :: t in versions && Truthful(t, versions[t], history[t])
       case MapFrom(minion, t, version, data, refused, now) => Genuine(t, SyncObject(version, data), history[t])
       case JobReplyFrom(jid, minion, reply, accepts, now) =>
         reply.Success? ==> Truthful(OsdMap, Some(reply.version), history[OsdMap])
       case RequestOf(id, plan, accepts, now) => Creatable(plan) && !plan.SaltCall?
       case _ => true
  }

  function Extended(history: map<SyncType, History>, input: Input): map<SyncType, History> {
    if input.Published? && input.t in history then history[input.t := history[input.t] + [input.data]] else history
  }

  // The request that an input brings.
  function Asked(input: Input): Option<RequestId> {
    if input.RequestOf? || input.DebugJobOf? then Some(input.id) else None
  }

  function Asking(msg: Message): Option<RequestId> {
    if msg.ClusterRequest? || msg.DebugJob? then Some(msg.id) else None
  }

  // The event of the model that an input is. What it does not say is the order in which requests are
  // walked, and whether the registry of servers failed.
  ghost predicate IsEventOf(input: Input, e: Event) {
    match input
    case Published(t, data) => e == Publish(t, data)
    case _ => e.Deliver? && IsMessageOf(input, e.msg)
  }

  ghost predicate IsMessageOf(input: Input, msg: Message) {
    match input
    case Published(t, data) => false
    case HeartbeatFrom(minion, versions, timeout, now) =>
      msg.Heartbeat? && msg == Heartbeat(minion, versions, timeout, msg.order, now)
    case MapFrom(minion, t, version, data, refused, now) =>
      msg.MapReply? && msg == MapReply(minion, t, SyncObject(version, data), msg.order, refused, msg.failed, now)
    case JobReplyFrom(jid, minion, reply, accepts, now) => msg == JobReply(jid, minion, reply, accepts, now)
    case RunningJobs(jobs, now) => msg == StillRunning(jobs, now)
    case Clock(now) => msg.ClockTick? && msg == ClockTick(msg.order, msg.done, now)
    case CancelOf(id) => msg == CancelRequest(id)
    case RequestOf(id, plan, accepts, now) => msg == ClusterRequest(id, plan, accepts, now)
    case DebugJobOf(id, call, minion, accepts, now) => msg == DebugJob(id, call, minion, accepts, now)
  }

  // What comes of an input in the registry of servers, which sees new maps only.
  ghost predicate Answered(fsid: string, input: Input, w: World, e: Event, m: Roll, a: Answer)
    requires Total(w.monitor.mirrors) && m.Valid()
  {
    && (if input.MapFrom? && IsNews(input.t, w.monitor.mirrors[input.t], input.version)
        then Shown(fsid, input.t, input.data, m, a)
        else !a.raised && a.after == m)
    && (e.Deliver? && e.msg.MapReply? ==> e.msg.failed == a.raised)
  }

  lemma NewIds(w: World, msg: Message, w': World)
    requires Inv(w) && Next(w, Deliver(msg), w')
    ensures forall id :: id in w'.monitor.requests.requests ==>
              id in w.monitor.requests.requests || Asking(msg) == Some(id)
  {
    var c := w.monitor.requests;
    match msg
    case MapReply(minion, t, o, order, refused, failed, now) =>
      OnMapAllAgrees(c, order, SubmittedIds(c), t, o, refused, now);
    case JobReply(jid, minion, reply, accepts, now) =>
      OnCompletionEffect(c, w.monitor.mirrors[OsdMap], jid, minion, reply, accepts, now);
    case StillRunning(jobs, now) => OnTickResponseAgrees(c, jobs, now);
    case _ =>
  }

  // One input, and the event of the model that it is.
  method Take(cm: ClusterMonitor, input: Input, ghost w: World)
    returns (ghost e: Event, ghost w': World, ghost a: Answer)
    requires cm.Valid() && Inv(w) && w.monitor == cm.View() && Sensible(w.history, input)
    requires Asked(input).Some? ==> Asked(input).value !in w.monitor.requests.requests
    modifies cm, cm.syncObjects, cm.requests, cm.requests.salt, cm.servers, cm.Objects()
    ensures cm.Valid() && cm.syncObjects.Valid() && fresh(cm.Objects() - old(cm.Objects()))
    ensures Total(w.monitor.mirrors) && old(cm.servers.Roster().Valid()) && cm.servers.Roster().Valid()
    ensures cm.servers.Roster() == a.after && w'.monitor == cm.View()
    ensures Answered(cm.fsid, input, w, e, old(cm.servers.Roster()), a)
    ensures IsEventOf(input, e) && Next(w, e, w')
    ensures w'.history == Extended(w.history, input)
    ensures forall id :: id in w'.monitor.requests.requests ==>
              id in w.monitor.requests.requests || Asked(input) == Some(id)
  {
    hide Inv, Handle, Possible, Sensible, ClusterMonitor.View, ClusterMonitor.Objects, IsMessageOf, Shown;
    hide ServerRegistry.ServerMonitor.Roster, Roll.Valid;
    InvFacts(w);
    match input
    case Published(t, data) =>
      cm.servers.RosterValid();
      e, w' := Publish(t, data), w.(history := w.history[t := w.history[t] + [data]]);
      a := RegistryRuns.Answer(false, null, [], cm.servers.Roster(), cm.servers.Roster());
    case _ =>
      ghost var msg;
      msg, a := Handled(cm, input, w);
      e, w' := Deliver(msg), w.(monitor := cm.View());
      AskedThen(input, msg);
      NewIds(w, msg, w');
  }

  lemma AskedThen(input: Input, msg: Message)
    requires IsMessageOf(input, msg)
    ensures Asking(msg) == Asked(input)
  {
  }

  lemma InvFacts(w: World)
    requires Inv(w)
    ensures Total(w.monitor.mirrors) && (forall t: SyncType :: t in w.history) && AllWellFormed(w.monitor.requests)
  {
  }

  method Handled(cm: ClusterMonitor, input: Input, ghost w: World) returns (ghost msg: Message, ghost a: Answer)
    requires cm.Valid() && Inv(w) && w.monitor == cm.View() && Sensible(w.history, input) && !input.Published?
    requires Asked(input).Some? ==> Asked(input).value !in w.monitor.requests.requests
    modifies cm, cm.syncObjects, cm.requests, cm.requests.salt, cm.servers, cm.Objects()
    ensures cm.Valid() && fresh(cm.Objects() - old(cm.Objects()))
    ensures Total(w.monitor.mirrors) && old(cm.servers.Roster().Valid()) && cm.servers.Roster().Valid()
    ensures cm.servers.Roster() == a.after
    ensures Answered(cm.fsid, input, w, Deliver(msg), old(cm.servers.Roster()), a)
    ensures IsMessageOf(input, msg) && Next(w, Deliver(msg), w.(monitor := cm.View()))
  {
    hide ClusterMonitor.Valid, ClusterMonitor.View, ClusterMonitor.Objects, Inv, RequestCollection.Objects;
    hide OnHeartbeat, OnSyncObject, OnJobReply, MakeRequest, Tick, OnTickResponse, Cancel, Shown;
    hide ServerRegistry.ServerMonitor.Roster, Roll.Valid;
    cm.AreApart();
    cm.RosterValid();
    InvFacts(w);
    a := RegistryRuns.Answer(false, null, [], cm.servers.Roster(), cm.servers.Roster());
    match input
    case HeartbeatFrom(minion, versions, timeout, now) =>
      ghost var order := cm.OnHeartbeat(minion, versions, timeout, now);
      msg := Heartbeat(minion, versions, timeout, order, now);
    case MapFrom(minion, t, version, data, refused, now) =>
      var failed;
      ghost var order;
      failed, order, a := cm.OnSyncObject(minion, t, version, data, refused, now);
      msg := MapReply(minion, t, SyncObject(version, data), order, refused, failed, now);
    case JobReplyFrom(jid, minion, reply, accepts, now) =>
      var raised := cm.OnJobReply(jid, minion, reply, accepts, now);
      msg := JobReply(jid, minion, reply, accepts, now);
    case RunningJobs(jobs, now) =>
      cm.OnTickResponse(jobs, now);
      msg := StillRunning(jobs, now);
    case Clock(now) =>
      ghost var order, done := cm.OnTick(now);
      msg := ClockTick(order, done, now);
    case CancelOf(id) =>
      cm.Cancel(id);
      msg := CancelRequest(id);
    case RequestOf(id, plan, accepts, now) =>
      var failed := cm.MakeRequest(id, plan, accepts, now);
      msg := ClusterRequest(id, plan, accepts, now);
    case DebugJobOf(id, call, minion, accepts, now) =>
      var failed := cm.DebugJob(id, call, minion, accepts, now);
      msg := DebugJob(id, call, minion, accepts, now);
  }

  // ---------------------------------------------------------------- what can be seen of the manager

  // The favourite, the maps stored, and how far each request is.
  datatype Snapshot = Snapshot(favorite: Option<Minion>, maps: map<SyncType, SyncObject>,
                               requests: map<RequestId, (State, bool)>)

  ghost function SnapshotOf(m: Monitor): Snapshot {
    Snapshot(m.favorite,
             map t: SyncType | t in m.mirrors :: m.mirrors[t].stored,
             map id | id in m.requests.requests :: (m.requests.requests[id].state, m.requests.requests[id].error))
  }

  method Look(cm: ClusterMonitor) returns (s: Snapshot)
    requires cm.Valid()
    ensures cm.Valid() && cm.syncObjects.Valid() && s == SnapshotOf(cm.View())
  {
    hide ServerRegistry.ServerMonitor.Valid, Agreed;
    var requests := cm.requests.byRequestId;
    s := Snapshot(cm.favoriteMon, cm.syncObjects.objects,
                  map id | id in requests :: (requests[id].state, requests[id].error));
    cm.syncObjects.StoredMaps();
    ghost var m := cm.View();
    assert m.requests.requests.Keys == requests.Keys;
    forall id | id in requests
      ensures requests[id].View() == m.requests.requests[id]
    {
    }
    hide SyncObjects.View;
  }

  // ---------------------------------------------------------------- one input after another

  // Nothing published, nothing stored, nothing asked for.
  ghost function Nothing(): World {
    World(map t: SyncType | t in SYNC_OBJECT_TYPES :: [],
          Monitor(map t: SyncType | t in SYNC_OBJECT_TYPES :: EMPTY_MIRROR, EMPTY_COLLECTION, None, map[]))
  }

  lemma NothingIsInitial()
    ensures Initial(Nothing()) && Total(Nothing().monitor.mirrors)
  {
    forall t: SyncType
      ensures t in SYNC_OBJECT_TYPES
    {
      EveryType(t);
    }
  }

  // One event more.
  lemma RunOnward(ws: seq<World>, es: seq<Event>, e: Event, w': World)
    requires IsRun(ws, es) && Next(ws[|es|], e, w')
    ensures IsRun(ws + [w'], es + [e])
  {
    forall i | 0 <= i < |es + [e]|
      ensures Next((ws + [w'])[i], (es + [e])[i], (ws + [w'])[i + 1])
    {
      if i < |es| {
        assert Next(ws[i], es[i], ws[i + 1]);
      }
    }
  }

  ghost function HistoryAfter(inputs: seq<Input>): map<SyncType, History> {
    if inputs == [] then Nothing().history
    else Extended(HistoryAfter(inputs[..|inputs| - 1]), inputs[|inputs| - 1])
  }

  // Each input is sensible when it comes, and no two requests have the same id.
  ghost predicate Plausible(inputs: seq<Input>) {
    && (forall i :: 0 <= i < |inputs| ==> Sensible(HistoryAfter(inputs[..i]), inputs[i]))
    && (forall i, j :: 0 <= i < j < |inputs| && Asked(inputs[j]).Some? ==> Asked(inputs[i]) != Asked(inputs[j]))
  }

  ghost predicate AskedBefore(inputs: seq<Input>, i: nat, id: RequestId)
    requires i <= |inputs|
  {
    exists j :: 0 <= j < i && Asked(inputs[j]) == Some(id)
  }

  lemma InputAt(inputs: seq<Input>, i: nat)
    requires Plausible(inputs) && i < |inputs|
    ensures Sensible(HistoryAfter(inputs[..i]), inputs[i])
    ensures HistoryAfter(inputs[..i + 1]) == Extended(HistoryAfter(inputs[..i]), inputs[i])
    ensures Asked(inputs[i]).Some? ==> !AskedBefore(inputs, i, Asked(inputs[i]).value)
    ensures forall id :: AskedBefore(inputs, i + 1, id) <==> AskedBefore(inputs, i, id) || Asked(inputs[i]) == Some(id)
  {
    assert inputs[..i + 1][..i] == inputs[..i];
  }

  method Start(fsid: string) returns (cm: ClusterMonitor)
    ensures cm.Valid() && cm.syncObjects.Valid() && cm.Objects() == {} && cm.fsid == fsid
    ensures fresh(cm) && fresh(cm.syncObjects) && fresh(cm.requests) && fresh(cm.requests.salt) && fresh(cm.servers)
    ensures cm.View() == Nothing().monitor
    ensures cm.servers.Roster() == RegistryRuns.RollAt([], 0)
  {
    hide HistoryAfter;
    cm := new ClusterMonitor(fsid);
    forall t: SyncType {
      EveryType(t);
    }
    SameMirrors(cm.View().mirrors, Nothing().monitor.mirrors);
  }

  // The i-th step of a run is due to the i-th input, and so is what came of it in the registry.
  ghost predicate IsStep(fsid: string, inputs: seq<Input>, ws: seq<World>, es: seq<Event>, trail: seq<Answer>, i: nat)
    requires i < |inputs| && i < |es| && i < |trail| && |ws| == |es| + 1
  {
    && Total(ws[i].monitor.mirrors) && RegistryRuns.RollAt(trail, i).Valid()
    && IsEventOf(inputs[i], es[i])
    && Answered(fsid, inputs[i], ws[i], es[i], RegistryRuns.RollAt(trail, i), trail[i])
  }

  // A run of a new manager that is due to these inputs.
  ghost predicate IsService(fsid: string, inputs: seq<Input>, ws: seq<World>, es: seq<Event>, trail: seq<Answer>)
    ensures IsService(fsid, inputs, ws, es, trail) ==>
              IsRun(ws, es) && |es| == |inputs| == |trail| && |ws| == |es| + 1
  {
    && IsRun(ws, es) && ws[0] == Nothing() && |es| == |inputs| == |trail|
    && forall i :: 0 <= i < |inputs| ==> IsStep(fsid, inputs, ws, es, trail, i)
  }

  // A run that is due to the first inputs.
  ghost predicate Served(fsid: string, inputs: seq<Input>, i: nat, ws: seq<World>, es: seq<Event>, trail: seq<Answer>)
    requires i <= |inputs|
    ensures Served(fsid, inputs, i, ws, es, trail) ==>
              IsRun(ws, es) && |es| == |trail| == i && |ws| == i + 1
  {
    && IsService(fsid, inputs[..i], ws, es, trail)
    && ws[i].history == HistoryAfter(inputs[..i])
    && forall id :: id in ws[i].monitor.requests.requests ==> AskedBefore(inputs, i, id)
  }

  lemma Begins(fsid: string, inputs: seq<Input>)
    ensures Served(fsid, inputs, 0, [Nothing()], [], [])
  {
    NothingIsInitial();
  }

  lemma Ready(fsid: string, inputs: seq<Input>, i: nat, ws: seq<World>, es: seq<Event>, trail: seq<Answer>)
    requires Plausible(inputs) && i < |inputs| && Served(fsid, inputs, i, ws, es, trail)
    ensures Inv(ws[i]) && Sensible(ws[i].history, inputs[i])
    ensures Asked(inputs[i]).Some? ==> Asked(inputs[i]).value !in ws[i].monitor.requests.requests
  {
    RunKeeps(ws, es, i);
    InputAt(inputs, i);
  }

  lemma Taken(fsid: string, inputs: seq<Input>, i: nat, ws: seq<World>, es: seq<Event>, trail: seq<Answer>, e: Event,
              w': World, a: Answer)
    requires Plausible(inputs) && i < |inputs| && Served(fsid, inputs, i, ws, es, trail) && Next(ws[i], e, w')
    requires w'.history == Extended(ws[i].history, inputs[i])
    requires Total(ws[i].monitor.mirrors) && RegistryRuns.RollAt(trail, i).Valid() && IsEventOf(inputs[i], e)
    requires Answered(fsid, inputs[i], ws[i], e, RegistryRuns.RollAt(trail, i), a)
    requires forall id :: id in w'.monitor.requests.requests ==>
               id in ws[i].monitor.requests.requests || Asked(inputs[i]) == Some(id)
    ensures Served(fsid, inputs, i + 1, ws + [w'], es + [e], trail + [a])
  {
    hide IsRun, Next, IsEventOf, Answered, Roll.Valid, HistoryAfter, Plausible;
    InputAt(inputs, i);
    RunOnward(ws, es, e, w');
    var given, ws', es', trail' := inputs[..i + 1], ws + [w'], es + [e], trail + [a];
    assert ws'[0] == ws[0];
    forall k | 0 <= k < |given|
      ensures IsStep(fsid, given, ws', es', trail', k)
    {
      assert RegistryRuns.RollAt(trail', k) == RegistryRuns.RollAt(trail, k);
      if k < i {
        assert IsStep(fsid, inputs[..i], ws, es, trail, k);
      }
    }
  }

  // A new manager, given any plausible inputs, goes through a run of the model that is due to just
  // these; after each of them it looks as the run says.
  method Serve(fsid: string, inputs: seq<Input>)
    returns (cm: ClusterMonitor, seen: seq<Snapshot>, ghost ws: seq<World>, ghost es: seq<Event>,
             ghost trail: seq<Answer>)
    requires Plausible(inputs)
    ensures fresh(cm) && cm.Valid() && cm.syncObjects.Valid() && cm.fsid == fsid
    ensures IsService(fsid, inputs, ws, es, trail)
    ensures ws[|es|].monitor == cm.View() && cm.servers.Roster() == RegistryRuns.RollAt(trail, |trail|)
    ensures |seen| == |inputs| && forall i :: 0 <= i < |seen| ==> seen[i] == SnapshotOf(ws[i + 1].monitor)
  {
    hide *;
    cm := Start(fsid);
    Begins(fsid, inputs);
    seen, ws, es, trail := [], [Nothing()], [], [];
    ghost var objects := cm.Objects();
    for i := 0 to |inputs|
      invariant cm.Valid() && fresh(cm) && fresh(cm.syncObjects) && fresh(cm.requests) && fresh(cm.requests.salt)
      invariant fresh(cm.servers) && objects == cm.Objects() && fresh(objects) && cm.syncObjects.Valid()
      invariant cm.fsid == fsid && Served(fsid, inputs, i, ws, es, trail)
      invariant ws[i].monitor == cm.View() && cm.servers.Roster() == RegistryRuns.RollAt(trail, i)
      invariant |seen| == i && forall k :: 0 <= k < i ==> seen[k] == SnapshotOf(ws[k + 1].monitor)
    {
      Ready(fsid, inputs, i, ws, es, trail);
      label L:
      ghost var e, w', a := Take(cm, inputs[i], ws[i]);
      ghost var more := cm.Objects();
      assert forall x :: x in more - objects ==> fresh@L(x);
      assert forall x :: x in more ==> x in objects || x in more - objects;
      objects := more;
      Taken(fsid, inputs, i, ws, es, trail, e, w', a);
      var s := Look(cm);
      assert cm.Valid();
      seen, ws, es, trail := seen + [s], ws + [w'], es + [e], trail + [a];
      LastRoll(trail);
    }
    assert inputs[..|inputs|] == inputs;
    IsServed(fsid, inputs, ws, es, trail);
  }

  lemma LastRoll(trail: seq<Answer>)
    requires trail != []
    ensures RegistryRuns.RollAt(trail, |trail|) == trail[|trail| - 1].after
  {
  }

  lemma IsServed(fsid: string, inputs: seq<Input>, ws: seq<World>, es: seq<Event>, trail: seq<Answer>)
    requires Served(fsid, inputs, |inputs|, ws, es, trail)
    ensures IsService(fsid, inputs, ws, es, trail)
  {
    assert inputs[..|inputs|] == inputs;
  }
}
