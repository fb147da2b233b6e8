// What each message keeps: the mirrors' promises, the agreement of the job index, what the
// requests may rely on, and that they evolve only as single requests do.
module ClusterSteps {
  import opened Wrappers
  import opened SyncTypes
  import opened SyncMirror
  import opened Requests
  import opened RequestIndex
  import RequestRuns
  import opened CollectionRuns
  import opened Wakeups
  import opened Cluster

  // ---------------------------------------------------------------- the invariant

  ghost predicate MirrorsSafe(history: map<SyncType, History>, mirrors: Mirrors) {
    && Total(mirrors)
    && (forall t: SyncType :: t in history && Safe(t, mirrors[t], history[t]))
  }

  ghost predicate MirrorsUnderRepair(mirrors: Mirrors) {
    Total(mirrors) && forall t: SyncType :: UnderRepair(t, mirrors[t])
  }

  ghost predicate AllGrounded(c: Collection, osdMap: SyncObject) {
    forall id :: id in c.requests ==> Grounded(c.requests[id], osdMap)
  }

  ghost predicate AllTold(c: Collection, osdMap: SyncObject) {
    forall id :: id in c.requests ==> Told(c.requests[id], osdMap)
  }

  // While the stored OSD map is the same, requests are left behind no more and no less than before.
  ghost predicate AllCarry(c: Collection, c': Collection, osdMap: SyncObject) {
    forall id :: id in c'.requests ==>
      if id in c.requests then Carries(c.requests[id], c'.requests[id], osdMap)
      else Told(c'.requests[id], osdMap) && Grounded(c'.requests[id], osdMap)
  }

  // Every request that is under way through the cluster is with the favourite.
  ghost predicate FavoriteOnly(c: Collection, favorite: Option<Minion>) {
    forall id :: IsSubmitted(c, id) && !c.requests[id].plan.SaltCall? ==>
      favorite.Some? && c.requests[id].minion == favorite
  }

  ghost predicate FavoriteHeard(m: Monitor) {
    m.favorite.Some? ==> m.favorite.value in m.lastHeartbeat
  }

  ghost predicate Inv(w: World) {
    && MirrorsSafe(w.history, w.monitor.mirrors) && MirrorsUnderRepair(w.monitor.mirrors)
    && Agreed(w.monitor.requests)
    && AllGrounded(w.monitor.requests, w.monitor.mirrors[OsdMap].stored)
    && FavoriteOnly(w.monitor.requests, w.monitor.favorite)
    && FavoriteHeard(w.monitor)
  }

  // ---------------------------------------------------------------- how requests change

  ghost predicate Evolves(r: Request, r': Request) {
    Sound(r) && exists es :: r' == RequestRuns.Run(r, es)
  }

  // A request as it enters the collection.
  ghost predicate Enters(r: Request, favorite: Option<Minion>) {
    exists plan, minion, jid, now ::
      && Creatable(plan) && (plan.SaltCall? || favorite == Some(minion))
      && r == Requests.Submit(NewRequest(plan), minion, Some(jid), now).r
  }

  ghost predicate AllEvolve(c: Collection, c': Collection, favorite: Option<Minion>) {
    && (forall id :: id in c.requests ==> id in c'.requests && Evolves(c.requests[id], c'.requests[id]))
    && (forall id :: id in c'.requests && id !in c.requests ==> Enters(c'.requests[id], favorite))
  }

  lemma DriftEvolves(r: Request, r': Request)
    requires RequestRuns.Drifts(r, r')
    ensures Evolves(r, r')
  {
  }

  lemma StepThenDriftEvolves(r: Request, e: RequestRuns.Event, r': Request)
    requires Sound(r) && RequestRuns.Drifts(RequestRuns.Step(r, e), r')
    ensures Evolves(r, r')
  {
    var r1 := RequestRuns.Step(r, e);
    var es :| RequestRuns.Quiet(es) && r' == RequestRuns.Run(r1, es);
    assert [e][..0] == [];
    assert RequestRuns.Run(r, [e]) == r1;
    RequestRuns.RunConcat(r, [e], es);
  }

  lemma UndisturbedStep(c: Collection, c': Collection, osdMap: SyncObject, favorite: Option<Minion>)
    requires Agreed(c) && AllUndisturbed(c, c') && c'.requests.Keys == c.requests.Keys
    ensures AllEvolve(c, c', favorite) && AllCarry(c, c', osdMap)
  {
    forall id | id in c.requests
      ensures Evolves(c.requests[id], c'.requests[id])
      ensures Carries(c.requests[id], c'.requests[id], osdMap)
    {
      UndisturbedDrifts(c.requests[id], c'.requests[id]);
      DriftEvolves(c.requests[id], c'.requests[id]);
      UndisturbedCarries(c.requests[id], c'.requests[id], osdMap);
    }
  }

  lemma DeliveredStep(c: Collection, c': Collection, t: SyncType, o: SyncObject, now: Time,
                      before: SyncObject, after: SyncObject, favorite: Option<Minion>)
    requires Agreed(c) && AllGrounded(c, before) && Delivered(c, c', SubmittedIds(c), t, o, now)
    requires if t == OsdMap then after == o && AtMost(before.version, o.version) else after == before
    ensures AllEvolve(c, c', favorite)
    ensures if t == OsdMap then AllGrounded(c', after) && AllTold(c', after) else AllCarry(c, c', after)
  {
    forall id | id in c.requests
      ensures Evolves(c.requests[id], c'.requests[id])
      ensures if t == OsdMap then Grounded(c'.requests[id], after) && Told(c'.requests[id], after)
              else Carries(c.requests[id], c'.requests[id], after)
    {
      var r, r' := c.requests[id], c'.requests[id];
      if IsSubmitted(c, id) {
        assert id in SubmittedIds(c);
        HandledDrifts(r, r', t, o, now);
        if t == OsdMap {
          HandledOsdMap(r, r', before, o, now);
        } else {
          HandledOther(r, r', t, o, before, now);
        }
      } else {
        assert id !in SubmittedIds(c);
        RequestRuns.StandsStill(r);
        CompleteGrounded(r, before, after);
      }
      DriftEvolves(r, r');
    }
  }

  lemma SubmitStep(c: Collection, id: RequestId, plan: Plan, minion: Minion, accepts: bool, now: Time,
                   osdMap: SyncObject, favorite: Option<Minion>)
    requires Agreed(c) && id !in c.requests && Creatable(plan)
    requires plan.SaltCall? || favorite == Some(minion)
    ensures var c' := RequestIndex.Submit(c, id, plan, minion, accepts, now).c;
            && Agreed(c') && (Exact(c) ==> Exact(c'))
            && AllEvolve(c, c', favorite) && AllCarry(c, c', osdMap)
  {
    SubmitAgrees(c, id, plan, minion, accepts, now);
    SubmitEffect(c, id, plan, minion, accepts, now);
    var c' := RequestIndex.Submit(c, id, plan, minion, accepts, now).c;
    forall other | other in c.requests
      ensures Evolves(c.requests[other], c'.requests[other]) && Carries(c.requests[other], c'.requests[other], osdMap)
    {
      RequestRuns.StandsStill(c.requests[other]);
      DriftEvolves(c.requests[other], c'.requests[other]);
      UndisturbedCarries(c.requests[other], c'.requests[other], osdMap);
    }
    if accepts {
      SubmittedEnters(plan, minion, Offer(c, accepts), now, osdMap, favorite);
    }
  }

  lemma SubmittedEnters(plan: Plan, minion: Minion, offer: Option<JobId>, now: Time, osdMap: SyncObject,
                        favorite: Option<Minion>)
    requires Creatable(plan) && offer.Some? && (plan.SaltCall? || favorite == Some(minion))
    ensures var r := Requests.Submit(NewRequest(plan), minion, offer, now).r;
            Enters(r, favorite) && Told(r, osdMap) && Grounded(r, osdMap)
  {
    SubmitIsSound(plan, minion, offer, now);
  }

  lemma CompletionStep(c: Collection, m: Mirror, jid: JobId, minion: Minion, reply: Reply, accepts: bool, now: Time,
                       favorite: Option<Minion>)
    requires Agreed(c)
    ensures var out := OnCompletion(c, m, jid, minion, reply, accepts, now);
            && Agreed(out.c) && AllEvolve(c, out.c, favorite) && AllCarry(c, out.c, m.stored)
  {
    var out := OnCompletion(c, m, jid, minion, reply, accepts, now);
    OnCompletionAgrees(c, m, jid, minion, reply, accepts, now);
    OnCompletionEffect(c, m, jid, minion, reply, accepts, now);
    forall id | id in c.requests
      ensures Evolves(c.requests[id], out.c.requests[id]) && Carries(c.requests[id], out.c.requests[id], m.stored)
    {
      var r, r' := c.requests[id], out.c.requests[id];
      if Finishes(c, jid, id, reply) {
        FinishStep(c, m, jid, id, minion, reply, accepts, now);
      } else {
        UndisturbedDrifts(r, r');
        DriftEvolves(r, r');
        UndisturbedCarries(r, r', m.stored);
      }
    }
  }

  lemma FinishStep(c: Collection, m: Mirror, jid: JobId, id: RequestId, minion: Minion, reply: Reply, accepts: bool,
                   now: Time)
    requires Agreed(c) && Finishes(c, jid, id, reply)
    ensures var out := OnCompletion(c, m, jid, minion, reply, accepts, now);
            && id in out.c.requests
            && Evolves(c.requests[id], out.c.requests[id]) && Carries(c.requests[id], out.c.requests[id], m.stored)
  {
    var r := c.requests[id];
    OnCompletionFinishes(c, m, jid, id, minion, reply, accepts, now);
    StepThenDriftEvolves(r, RequestRuns.JobDone(Result(r, reply)),
                         OnCompletion(c, m, jid, minion, reply, accepts, now).c.requests[id]);
    if !r.plan.SaltCall? {
      SuccessCarries(r, m, minion, reply.version, Offer(c, accepts), now);
    }
  }

  // ---------------------------------------------------------------- each message

  // An epoch, once stored, is never replaced by an older one.
  ghost predicate StoredRises(mirrors: Mirrors, mirrors': Mirrors)
    requires Total(mirrors) && Total(mirrors')
  {
    forall t: SyncType :: Ordered(t) ==> AtMost(mirrors[t].stored.version, mirrors'[t].stored.version)
  }

  // The invariant again, and what the step leaves of the requests and maps before it.
  ghost predicate Kept(w: World, w': World)
    requires Inv(w)
  {
    && Inv(w')
    && AllEvolve(w.monitor.requests, w'.monitor.requests, w.monitor.favorite)
    && StoredRises(w.monitor.mirrors, w'.monitor.mirrors)
  }

  // A message that brings a new OSD map.
  ghost predicate StoresOsdMap(m: Monitor, msg: Message)
    requires Total(m.mirrors)
  {
    msg.MapReply? && msg.t == OsdMap && IsNews(OsdMap, m.mirrors[OsdMap], msg.o.version)
  }

  // A new OSD map leaves every request told of it, unless the registry fails on it; then, and with
  // other messages, requests are as far behind as they were.
  ghost predicate Tells(m: Monitor, msg: Message, m': Monitor)
    requires Total(m.mirrors) && Total(m'.mirrors)
  {
    if StoresOsdMap(m, msg) then
      && m'.mirrors[OsdMap].stored == msg.o
      && if msg.failed then m'.requests == m.requests else AllTold(m'.requests, msg.o)
    else
      && m'.mirrors[OsdMap].stored == m.mirrors[OsdMap].stored
      && AllCarry(m.requests, m'.requests, m.mirrors[OsdMap].stored)
  }

  lemma CarryGrounded(c: Collection, c': Collection, osdMap: SyncObject)
    requires AllGrounded(c, osdMap) && AllCarry(c, c', osdMap)
    ensures AllGrounded(c', osdMap)
  {
  }

  lemma EvolvedStays(r: Request, r': Request)
    requires Evolves(r, r')
    ensures Sound(r') && RequestRuns.Stays(r, r')
  {
    var es :| r' == RequestRuns.Run(r, es);
    RequestRuns.RunStays(r, es);
  }

  lemma EvolveKeepsFavorite(c: Collection, c': Collection, favorite: Option<Minion>)
    requires Agreed(c) && AllEvolve(c, c', favorite) && FavoriteOnly(c, favorite)
    ensures FavoriteOnly(c', favorite)
  {
    forall id | IsSubmitted(c', id) && !c'.requests[id].plan.SaltCall?
      ensures favorite.Some? && c'.requests[id].minion == favorite
    {
      if id in c.requests {
        EvolvedStays(c.requests[id], c'.requests[id]);
        assert IsSubmitted(c, id);
      } else {
        assert Enters(c'.requests[id], favorite);
      }
    }
  }

  lemma HearAllKeeps(history: map<SyncType, History>, mirrors: Mirrors, minion: Minion,
                     versions: map<SyncType, Version>, now: Time)
    requires MirrorsSafe(history, mirrors) && MirrorsUnderRepair(mirrors)
    requires forall t: SyncType :: t in versions ==> Truthful(t, versions[t], history[t])
    ensures var mirrors' := HearAll(mirrors, minion, versions, now);
            && MirrorsSafe(history, mirrors') && MirrorsUnderRepair(mirrors') && StoredRises(mirrors, mirrors')
            && mirrors'[OsdMap].stored == mirrors[OsdMap].stored
  {
    var mirrors' := HearAll(mirrors, minion, versions, now);
    forall t: SyncType
      ensures Safe(t, mirrors'[t], history[t]) && UnderRepair(t, mirrors'[t])
      ensures mirrors'[t].stored == mirrors[t].stored
    {
      if t in versions {
        VersionKeepsSafe(t, mirrors[t], Some(minion), versions[t], now, history[t]);
        VersionKeepsRepair(t, mirrors[t], Some(minion), versions[t], now);
      }
    }
  }

  lemma OneMirrorKeeps(history: map<SyncType, History>, mirrors: Mirrors, t: SyncType, m: Mirror)
    requires MirrorsSafe(history, mirrors) && MirrorsUnderRepair(mirrors)
    requires Safe(t, m, history[t]) && UnderRepair(t, m)
    requires Ordered(t) ==> AtMost(mirrors[t].stored.version, m.stored.version)
    ensures var mirrors' := mirrors[t := m];
            && MirrorsSafe(history, mirrors') && MirrorsUnderRepair(mirrors') && StoredRises(mirrors, mirrors')
            && mirrors'[OsdMap] == if t == OsdMap then m else mirrors[OsdMap]
  {
  }

  // The parts of a step put together.
  lemma Assemble(w: World, m: Monitor)
    requires Inv(w)
    requires MirrorsSafe(w.history, m.mirrors) && MirrorsUnderRepair(m.mirrors)
        && StoredRises(w.monitor.mirrors, m.mirrors)
    requires Agreed(m.requests) && AllEvolve(w.monitor.requests, m.requests, w.monitor.favorite)
    requires AllGrounded(m.requests, m.mirrors[OsdMap].stored)
    requires FavoriteOnly(m.requests, m.favorite) && FavoriteHeard(m)
    ensures Kept(w, w.(monitor := m))
  {
  }

  lemma PromoteKeeps(m: Monitor, minion: Minion, timeout: Time, order: seq<RequestId>, now: Time, osdMap: SyncObject)
    requires Agreed(m.requests)
    requires FavoriteOnly(m.requests, m.favorite) && FavoriteHeard(m)
    requires Enumerates(order, SubmittedIds(m.requests))
    ensures var m' := Promote(m, minion, timeout, order, now);
            && Agreed(m'.requests) && (Exact(m.requests) ==> Exact(m'.requests))
            && AllEvolve(m.requests, m'.requests, m.favorite)
            && AllCarry(m.requests, m'.requests, osdMap)
            && FavoriteOnly(m'.requests, m'.favorite) && FavoriteHeard(m')
            && m'.mirrors == m.mirrors
  {
    FailAllUndisturbed(m.requests, order);
    UndisturbedStep(m.requests, FailAll(m.requests, order), osdMap, m.favorite);
    forall id | id in m.requests.requests
      ensures Undisturbed(m.requests.requests[id], m.requests.requests[id])
    {
    }
    UndisturbedStep(m.requests, m.requests, osdMap, m.favorite);
  }

  lemma HeartbeatKeeps(w: World, minion: Minion, versions: map<SyncType, Version>, timeout: Time,
                       order: seq<RequestId>, now: Time)
    requires Inv(w) && Possible(w, Heartbeat(minion, versions, timeout, order, now))
    ensures var m' := OnHeartbeat(w.monitor, minion, versions, timeout, order, now);
            && Kept(w, w.(monitor := m'))
            && Tells(w.monitor, Heartbeat(minion, versions, timeout, order, now), m')
  {
    var m1 := Promote(w.monitor, minion, timeout, order, now);
    PromoteKeeps(w.monitor, minion, timeout, order, now, w.monitor.mirrors[OsdMap].stored);
    CarryGrounded(w.monitor.requests, m1.requests, w.monitor.mirrors[OsdMap].stored);
    if m1.favorite == Some(minion) {
      HearAllKeeps(w.history, w.monitor.mirrors, minion, versions, now);
      Assemble(w, m1.(mirrors := HearAll(m1.mirrors, minion, versions, now)));
    } else {
      Assemble(w, m1);
    }
  }

  lemma MapReplyKeeps(w: World, minion: Minion, t: SyncType, o: SyncObject, order: seq<RequestId>,
                      refused: set<RequestId>, failed: bool, now: Time)
    requires Inv(w) && Possible(w, MapReply(minion, t, o, order, refused, failed, now))
    ensures var m' := OnSyncObject(w.monitor, minion, t, o, order, refused, failed, now);
            && Kept(w, w.(monitor := m'))
            && Tells(w.monitor, MapReply(minion, t, o, order, refused, failed, now), m')
  {
    var m, c := w.monitor.mirrors[t], w.monitor.requests;
    var m' := OnSyncObject(w.monitor, minion, t, o, order, refused, failed, now);
    FetchedMirrorKeeps(w.history, w.monitor.mirrors, t, minion, o, now);
    MapToRequestsKeeps(w, minion, t, o, order, refused, failed, now);
    EvolveKeepsFavorite(c, m'.requests, w.monitor.favorite);
    Assemble(w, m');
  }

  lemma FetchedMirrorKeeps(history: map<SyncType, History>, mirrors: Mirrors, t: SyncType, minion: Minion,
                           o: SyncObject, now: Time)
    requires MirrorsSafe(history, mirrors) && MirrorsUnderRepair(mirrors) && Genuine(t, o, history[t])
    ensures var mirrors' := mirrors[t := TakeFetched(t, mirrors[t], Some(minion), o, now)];
            MirrorsSafe(history, mirrors') && MirrorsUnderRepair(mirrors') && StoredRises(mirrors, mirrors')
  {
    FetchKeepsSafe(t, mirrors[t], Some(minion), o, now, history[t]);
    FetchRepairs(t, mirrors[t], Some(minion), o, now);
    OneMirrorKeeps(history, mirrors, t, TakeFetched(t, mirrors[t], Some(minion), o, now));
  }

  lemma MapToRequestsKeeps(w: World, minion: Minion, t: SyncType, o: SyncObject, order: seq<RequestId>,
                           refused: set<RequestId>, failed: bool, now: Time)
    requires Inv(w) && Possible(w, MapReply(minion, t, o, order, refused, failed, now))
    ensures var m' := OnSyncObject(w.monitor, minion, t, o, order, refused, failed, now);
            && Agreed(m'.requests) && AllEvolve(w.monitor.requests, m'.requests, w.monitor.favorite)
            && AllGrounded(m'.requests, m'.mirrors[OsdMap].stored)
            && Tells(w.monitor, MapReply(minion, t, o, order, refused, failed, now), m')
  {
    var m, c := w.monitor.mirrors[t], w.monitor.requests;
    var m' := OnSyncObject(w.monitor, minion, t, o, order, refused, failed, now);
    var before, after := w.monitor.mirrors[OsdMap].stored, m'.mirrors[OsdMap].stored;
    if IsNews(t, m, o.version) && !failed {
      OnMapAllAgrees(c, order, SubmittedIds(c), t, o, refused, now);
      DeliveredStep(c, m'.requests, t, o, now, before, after, w.monitor.favorite);
      if t != OsdMap {
        CarryGrounded(c, m'.requests, before);
      }
    } else {
      NothingHappens(c, before, w.monitor.favorite);
      forall id | id in c.requests
        ensures Grounded(c.requests[id], after)
      {
        StaysGrounded(c.requests[id], before, after);
      }
    }
  }

  lemma NothingHappens(c: Collection, osdMap: SyncObject, favorite: Option<Minion>)
    requires Agreed(c)
    ensures AllEvolve(c, c, favorite) && AllCarry(c, c, osdMap)
  {
    forall id | id in c.requests
      ensures Undisturbed(c.requests[id], c.requests[id])
    {
    }
    UndisturbedStep(c, c, osdMap, favorite);
  }

  // The end of a job reports a version to the mirror of the OSD map, or leaves it alone.
  lemma CompletionMirror(c: Collection, m: Mirror, jid: JobId, minion: Minion, reply: Reply, accepts: bool, now: Time)
    requires Agreed(c)
    ensures var m' := OnCompletion(c, m, jid, minion, reply, accepts, now).osdMap;
            || m' == m
            || (reply.Success? && m' == HearVersion(OsdMap, m, Some(minion), Some(reply.version), now))
  {
    if jid in c.byJid {
      var r := c.requests[c.byJid[jid]];
      if r.state == Submitted && !r.plan.SaltCall? && reply.Success? {
        CompletionNotifies(r, m, minion, reply.version, Offer(c, accepts), now);
      }
    }
  }

  lemma CompletionNotifies(r: Request, m: Mirror, minion: Minion, version: nat, offer: Option<JobId>, now: Time)
    requires Sound(r) && r.state == Submitted
    ensures CompleteSuccess(r, m, minion, version, offer, now).osdMap
         in {m, HearVersion(OsdMap, m, Some(minion), Some(version), now)}
  {
    var done := CompleteJid(r, version);
    if !done.raised {
      assert OsdMap in AwaitingVersions(done.r) ==> AwaitingVersions(done.r)[OsdMap] == Some(version);
    }
  }

  lemma JobReplyKeeps(w: World, jid: JobId, minion: Minion, reply: Reply, accepts: bool, now: Time)
    requires Inv(w) && Possible(w, JobReply(jid, minion, reply, accepts, now))
    ensures var m' := OnJobReply(w.monitor, jid, minion, reply, accepts, now);
            && Kept(w, w.(monitor := m')) && Tells(w.monitor, JobReply(jid, minion, reply, accepts, now), m')
  {
    var m, c := w.monitor.mirrors[OsdMap], w.monitor.requests;
    var out := OnCompletion(c, m, jid, minion, reply, accepts, now);
    CompletionStep(c, m, jid, minion, reply, accepts, now, w.monitor.favorite);
    CarryGrounded(c, out.c, m.stored);
    EvolveKeepsFavorite(c, out.c, w.monitor.favorite);
    CompletionMirrorKeeps(w, jid, minion, reply, accepts, now);
    Assemble(w, OnJobReply(w.monitor, jid, minion, reply, accepts, now));
  }

  lemma CompletionMirrorKeeps(w: World, jid: JobId, minion: Minion, reply: Reply, accepts: bool, now: Time)
    requires Inv(w) && Possible(w, JobReply(jid, minion, reply, accepts, now))
    ensures var out := OnCompletion(w.monitor.requests, w.monitor.mirrors[OsdMap], jid, minion, reply, accepts, now);
            var mirrors' := w.monitor.mirrors[OsdMap := out.osdMap];
            && MirrorsSafe(w.history, mirrors') && MirrorsUnderRepair(mirrors')
            && StoredRises(w.monitor.mirrors, mirrors')
            && out.osdMap.stored == w.monitor.mirrors[OsdMap].stored
  {
    var m := w.monitor.mirrors[OsdMap];
    CompletionMirror(w.monitor.requests, m, jid, minion, reply, accepts, now);
    if reply.Success? {
      VersionKeepsSafe(OsdMap, m, Some(minion), Some(reply.version), now, w.history[OsdMap]);
      VersionKeepsRepair(OsdMap, m, Some(minion), Some(reply.version), now);
    }
    OneMirrorKeeps(w.history, w.monitor.mirrors, OsdMap,
                   OnCompletion(w.monitor.requests, m, jid, minion, reply, accepts, now).osdMap);
  }

  // The other messages leave the mirrors and the favourite alone.
  lemma RequestsOnlyKeeps(w: World, msg: Message, c': Collection)
    requires Inv(w) && Agreed(c') && !msg.MapReply?
    requires AllEvolve(w.monitor.requests, c', w.monitor.favorite)
    requires AllCarry(w.monitor.requests, c', w.monitor.mirrors[OsdMap].stored)
    ensures var m' := w.monitor.(requests := c'); Kept(w, w.(monitor := m')) && Tells(w.monitor, msg, m')
  {
    CarryGrounded(w.monitor.requests, c', w.monitor.mirrors[OsdMap].stored);
    EvolveKeepsFavorite(w.monitor.requests, c', w.monitor.favorite);
  }

  lemma HandleKeeps(w: World, msg: Message)
    requires Inv(w) && Possible(w, msg)
    ensures Kept(w, w.(monitor := Handle(w.monitor, msg))) && Tells(w.monitor, msg, Handle(w.monitor, msg))
  {
    var c, osdMap, favorite := w.monitor.requests, w.monitor.mirrors[OsdMap].stored, w.monitor.favorite;
    match msg
    case Heartbeat(minion, versions, timeout, order, now) => HeartbeatKeeps(w, minion, versions, timeout, order, now);
    case MapReply(minion, t, o, order, refused, failed, now) =>
      MapReplyKeeps(w, minion, t, o, order, refused, failed, now);
    case JobReply(jid, minion, reply, accepts, now) => JobReplyKeeps(w, jid, minion, reply, accepts, now);
    case StillRunning(jobs, now) =>
      TickResponseUndisturbed(c, jobs, now);
      UndisturbedStep(c, OnTickResponse(c, jobs, now), osdMap, favorite);
      RequestsOnlyKeeps(w, msg, OnTickResponse(c, jobs, now));
    case ClockTick(order, done, now) =>
      TickUndisturbed(c, order, done, now);
      UndisturbedStep(c, Tick(c, order).c, osdMap, favorite);
      RequestsOnlyKeeps(w, msg, Tick(c, order).c);
    case CancelRequest(id) =>
      CancelUndisturbed(c, id);
      UndisturbedStep(c, Cancel(c, id), osdMap, favorite);
      RequestsOnlyKeeps(w, msg, Cancel(c, id));
    case ClusterRequest(id, plan, accepts, now) =>
      if favorite.Some? {
        SubmitStep(c, id, plan, favorite.value, accepts, now, osdMap, favorite);
        RequestsOnlyKeeps(w, msg, RequestIndex.Submit(c, id, plan, favorite.value, accepts, now).c);
      } else {
        NothingHappens(c, osdMap, favorite);
        RequestsOnlyKeeps(w, msg, c);
      }
    case DebugJob(id, call, minion, accepts, now) =>
      SubmitStep(c, id, SaltCall(call), minion, accepts, now, osdMap, favorite);
      RequestsOnlyKeeps(w, msg, RequestIndex.Submit(c, id, SaltCall(call), minion, accepts, now).c);
  }

  // Whatever happens, in the cluster or to the manager, the invariant is kept.
  lemma NextKeeps(w: World, e: Event, w': World)
    requires Inv(w) && Next(w, e, w')
    ensures Kept(w, w')
    ensures forall t: SyncType :: t in w.history && t in w'.history && w.history[t] <= w'.history[t]
  {
    match e
    case Publish(t, data) =>
      NothingHappens(w.monitor.requests, w.monitor.mirrors[OsdMap].stored, w.monitor.favorite);
      GrowthKeepsSafe(t, w.monitor.mirrors[t], w.history[t], data);
    case Deliver(msg) => HandleKeeps(w, msg);
  }

  lemma RestoredIsSafe(t: SyncType, m: Mirror, history: History)
    requires Restored(t, m, history)
    ensures Safe(t, m, history) && UnderRepair(t, m)
  {
  }

  lemma InitialInv(w: World)
    requires Initial(w)
    ensures Inv(w)
  {
    forall t: SyncType
      ensures t in w.history && Safe(t, w.monitor.mirrors[t], w.history[t]) && UnderRepair(t, w.monitor.mirrors[t])
    {
      RestoredIsSafe(t, w.monitor.mirrors[t], w.history[t]);
    }
  }
}
