// The manager of one Ceph cluster as a value: the mirrors of its maps, the requests, and the mon
// that is trusted for both. One function for each message that can reach it.
module Cluster {
  import opened Wrappers
  import opened SyncTypes
  import opened SyncMirror
  import opened Requests
  import opened RequestIndex

  datatype Monitor = Monitor(
    mirrors: Mirrors,
    requests: Collection,
    favorite: Option<Minion>,
    lastHeartbeat: map<Minion, Time>)

  // The mirror of every type.
  predicate Total(mirrors: Mirrors) {
    forall t: SyncType :: t in mirrors
  }

  // What reaches the manager. `order` is the order in which a dictionary of requests is walked,
  // `refused` the requests whose jobs Salt would not run, and `timeout` how long the favourite
  // may be silent: its contact period times the configured factor. `failed` says whether the registry
  // of servers, which is shown a new map before the requests are, raises an exception on it.
  datatype Message =
    | Heartbeat(minion: Minion, versions: map<SyncType, Version>, timeout: Time, order: seq<RequestId>, now: Time)
    | MapReply(minion: Minion, t: SyncType, o: SyncObject, order: seq<RequestId>, refused: set<RequestId>,
               failed: bool, now: Time)
    | JobReply(jid: JobId, minion: Minion, reply: Reply, accepts: bool, now: Time)
    | StillRunning(jobs: seq<JobId>, now: Time)
    | ClockTick(order: seq<RequestId>, done: set<RequestId>, now: Time)
    | CancelRequest(id: RequestId)
    | ClusterRequest(id: RequestId, plan: Plan, accepts: bool, now: Time)
    | DebugJob(id: RequestId, call: Command, minion: Minion, accepts: bool, now: Time)

  // ---------------------------------------------------------------- the favourite mon

  // Nothing that was asked of the old favourite will be answered now.
  function SetFavorite(m: Monitor, minion: Minion, order: seq<RequestId>): Monitor
    requires forall id :: id in order ==> id in m.requests.requests
  {
    m.(requests := FailAll(m.requests, order), favorite := Some(minion))
  }

  // The favourite has been silent for too long. One that never sent a heartbeat cannot be.
  predicate IsSilent(m: Monitor, timeout: Time, now: Time) {
    && m.favorite.Some? && m.favorite.value in m.lastHeartbeat
    && now - m.lastHeartbeat[m.favorite.value] > timeout
  }

  function Promote(m: Monitor, minion: Minion, timeout: Time, order: seq<RequestId>, now: Time): Monitor
    requires forall id :: id in order ==> id in m.requests.requests
  {
    var m1 := m.(lastHeartbeat := m.lastHeartbeat[minion := now]);
    if m.favorite.None? || (m.favorite != Some(minion) && IsSilent(m1, timeout, now))
    then SetFavorite(m1, minion, order)
    else m1
  }

  // ---------------------------------------------------------------- maps

  function HearAll(mirrors: Mirrors, minion: Minion, versions: map<SyncType, Version>, now: Time): (mirrors': Mirrors)
    requires Total(mirrors)
    ensures Total(mirrors')
  {
    map t: SyncType | t in mirrors ::
      if t in versions then HearVersion(t, mirrors[t], Some(minion), versions[t], now) else mirrors[t]
  }

  // The same, one type after another.
  function HearInTurn(mirrors: Mirrors, order: seq<SyncType>, minion: Minion, versions: map<SyncType, Version>,
                      now: Time)
    : (mirrors': Mirrors)
    requires Total(mirrors) && forall t: SyncType :: t in versions
    ensures Total(mirrors')
  {
    if order == [] then mirrors
    else
      var m1, t := HearInTurn(mirrors, order[..|order| - 1], minion, versions, now), order[|order| - 1];
      m1[t := HearVersion(t, m1[t], Some(minion), versions[t], now)]
  }

  lemma HearInTurnOneMore(mirrors: Mirrors, order: seq<SyncType>, t: SyncType, minion: Minion,
                          versions: map<SyncType, Version>, now: Time)
    requires Total(mirrors) && forall t: SyncType :: t in versions
    ensures var m1 := HearInTurn(mirrors, order, minion, versions, now);
            var m2 := HearInTurn(mirrors, order + [t], minion, versions, now);
            m2 == m1[t := HearVersion(t, m1[t], Some(minion), versions[t], now)]
  {
    assert (order + [t])[..|order|] == order;
  }

  lemma {:induction false} HearInTurnAt(mirrors: Mirrors, order: seq<SyncType>, minion: Minion,
                                        versions: map<SyncType, Version>, now: Time, t: SyncType)
    requires Total(mirrors) && forall t: SyncType :: t in versions
    requires forall i, k :: 0 <= i < k < |order| ==> order[i] != order[k]
    ensures HearInTurn(mirrors, order, minion, versions, now)[t]
         == if t in order then HearVersion(t, mirrors[t], Some(minion), versions[t], now) else mirrors[t]
  {
    if order != [] {
      var init, last := order[..|order| - 1], order[|order| - 1];
      assert order == init + [last];
      HearInTurnAt(mirrors, init, minion, versions, now, t);
    }
  }

  // In whatever order the types are taken, the result is the same.
  lemma HearInTurnIsHearAll(mirrors: Mirrors, order: seq<SyncType>, minion: Minion,
                            versions: map<SyncType, Version>, now: Time)
    requires Total(mirrors) && forall t: SyncType :: t in versions
    requires forall t: SyncType :: t in SYNC_OBJECT_TYPES ==> t in order
    requires forall i, k :: 0 <= i < k < |order| ==> order[i] != order[k]
    ensures HearInTurn(mirrors, order, minion, versions, now) == HearAll(mirrors, minion, versions, now)
  {
    forall t: SyncType
      ensures HearInTurn(mirrors, order, minion, versions, now)[t] == HearAll(mirrors, minion, versions, now)[t]
    {
      EveryType(t);
      HearInTurnAt(mirrors, order, minion, versions, now, t);
    }
    SameMirrors(HearInTurn(mirrors, order, minion, versions, now), HearAll(mirrors, minion, versions, now));
  }

  function OnHeartbeat(m: Monitor, minion: Minion, versions: map<SyncType, Version>, timeout: Time,
                       order: seq<RequestId>, now: Time): Monitor
    requires Total(m.mirrors) && forall id :: id in order ==> id in m.requests.requests
  {
    var m1 := Promote(m, minion, timeout, order, now);
    if m1.favorite != Some(minion) then m1
    else m1.(mirrors := HearAll(m1.mirrors, minion, versions, now))
  }

  // The maps that the registry of servers looks at.
  const REGISTRY_TYPES: set<SyncType> := {OsdMap, MonMap, MdsMap}

  // A fetched map is stored, whoever sent it, and only then are the requests told. If the registry
  // raises an exception on it, they are not.
  ghost function OnSyncObject(m: Monitor, minion: Minion, t: SyncType, o: SyncObject, order: seq<RequestId>,
                              refused: set<RequestId>, failed: bool, now: Time): Monitor
    requires Total(m.mirrors)
  {
    var stored := m.(mirrors := m.mirrors[t := TakeFetched(t, m.mirrors[t], Some(minion), o, now)]);
    if IsNews(t, m.mirrors[t], o.version) && !failed
    then stored.(requests := OnMapAll(m.requests, order, t, o, refused, now))
    else stored
  }

  // ---------------------------------------------------------------- requests

  function MakeRequest(m: Monitor, id: RequestId, plan: Plan, accepts: bool, now: Time): Monitor {
    if m.favorite.None? then m
    else m.(requests := RequestIndex.Submit(m.requests, id, plan, m.favorite.value, accepts, now).c)
  }

  ghost function OnJobReply(m: Monitor, jid: JobId, minion: Minion, reply: Reply, accepts: bool, now: Time): Monitor
    requires Total(m.mirrors) && AllWellFormed(m.requests)
  {
    var done := OnCompletion(m.requests, m.mirrors[OsdMap], jid, minion, reply, accepts, now);
    m.(requests := done.c, mirrors := m.mirrors[OsdMap := done.osdMap])
  }

  ghost function Handle(m: Monitor, msg: Message): Monitor
    requires Total(m.mirrors) && AllWellFormed(m.requests)
    requires msg.Heartbeat? || msg.ClockTick? ==> forall id :: id in msg.order ==> id in m.requests.requests
  {
    match msg
    case Heartbeat(minion, versions, timeout, order, now) => OnHeartbeat(m, minion, versions, timeout, order, now)
    case MapReply(minion, t, o, order, refused, failed, now) =>
      OnSyncObject(m, minion, t, o, order, refused, failed, now)
    case JobReply(jid, minion, reply, accepts, now) => OnJobReply(m, jid, minion, reply, accepts, now)
    case StillRunning(jobs, now) => m.(requests := OnTickResponse(m.requests, jobs, now))
    case ClockTick(order, done, now) => m.(requests := Tick(m.requests, order).c)
    case CancelRequest(id) => m.(requests := Cancel(m.requests, id))
    case ClusterRequest(id, plan, accepts, now) => MakeRequest(m, id, plan, accepts, now)
    case DebugJob(id, call, minion, accepts, now) =>
      m.(requests := RequestIndex.Submit(m.requests, id, SaltCall(call), minion, accepts, now).c)
  }

  // ---------------------------------------------------------------- the world around it

  // The manager, and the maps that the cluster itself has published so far.
  datatype World = World(history: map<SyncType, History>, monitor: Monitor)

  datatype Event = Publish(t: SyncType, data: MapData) | Deliver(msg: Message)

  // What the world may send: versions and maps that the cluster really has had, however old, and
  // requests under ids that are not in use. The walks are over the right requests.
  ghost predicate Possible(w: World, msg: Message)
    requires Total(w.monitor.mirrors) && forall t: SyncType :: t in w.history
  {
    var c := w.monitor.requests;
    match msg
    case Heartbeat(minion, versions, timeout, order, now) =>
      && Enumerates(order, SubmittedIds(c))
      && forall t: SyncType :: t in versions && Truthful(t, versions[t], w.history[t])
    case MapReply(minion, t, o, order, refused, failed, now) =>
      Enumerates(order, SubmittedIds(c)) && Genuine(t, o, w.history[t]) && (failed ==> t in REGISTRY_TYPES)
    case JobReply(jid, minion, reply, accepts, now) =>
      reply.Success? ==> Truthful(OsdMap, Some(reply.version), w.history[OsdMap])
    case StillRunning(jobs, now) => true
    case ClockTick(order, done, now) =>
      && done <= OverdueIds(c, now) && Enumerates(order, done)
      && (forall id :: id in done ==> id in c.requests)
      && (!Tick(c, order).raised ==> done == OverdueIds(c, now))
    case CancelRequest(id) => true
    case ClusterRequest(id, plan, accepts, now) => id !in c.requests && Creatable(plan) && !plan.SaltCall?
    case DebugJob(id, call, minion, accepts, now) => id !in c.requests
  }

  ghost predicate Next(w: World, e: Event, w': World) {
    && Total(w.monitor.mirrors) && (forall t: SyncType :: t in w.history) && AllWellFormed(w.monitor.requests)
    && match e
       case Publish(t, data) => w' == w.(history := w.history[t := w.history[t] + [data]])
       case Deliver(msg) => Possible(w, msg) && w' == w.(monitor := Handle(w.monitor, msg))
  }

  // After a start: each mirror is empty or holds what the database had, no request is known and
  // no mon is trusted yet.
  ghost predicate Restored(t: SyncType, m: Mirror, history: History) {
    m == EMPTY_MIRROR || exists o, now :: Genuine(t, o, history) && m == TakeFetched(t, EMPTY_MIRROR, None, o, now)
  }

  ghost predicate Initial(w: World) {
    && Total(w.monitor.mirrors)
    && (forall t: SyncType :: t in w.history && Restored(t, w.monitor.mirrors[t], w.history[t]))
    && w.monitor.requests == EMPTY_COLLECTION
    && w.monitor.favorite == None && w.monitor.lastHeartbeat == map[]
  }

  // A run: a world before and after each event.
  ghost predicate IsRun(ws: seq<World>, es: seq<Event>) {
    && |ws| == |es| + 1
    && Initial(ws[0])
    && forall i :: 0 <= i < |es| ==> Next(ws[i], es[i], ws[i + 1])
  }
}
