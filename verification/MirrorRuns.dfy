// What the mirrors come to over whole runs: the newest version of each map that was fetched, and the
// newest that was heard of.
module MirrorRuns {
  import opened Wrappers
  import opened SyncTypes
  import opened SyncMirror
  import opened Requests
  import opened RequestIndex
  import RequestRuns
  import opened CollectionRuns
  import opened Wakeups
  import opened Cluster
  import opened ClusterSteps
  import opened ClusterRuns
  import opened Favorites

  // A later epoch, where the first map is later than none; or another hash.
  predicate Newer(t: SyncType, a: Version, b: Version) {
    if Ordered(t) then a.Some? && (b.None? || b.value < a.value) else a != b
  }

  // No fetch is underway, or it has been for ten seconds.
  predicate MayFetch(m: Mirror, now: Time) {
    m.fetchingAt.None? || now - m.fetchingAt.value >= 10
  }

  // A version that is heard of, and is newer than what is stored, is remembered, if it is newer than
  // what was known; and a fetch is started, if there is a minion to ask, unless one is underway.
  lemma HearingIsExact(t: SyncType, m: Mirror, minion: Option<Minion>, version: Version, now: Time)
    ensures var m', news := HearVersion(t, m, minion, version, now), Newer(t, version, m.stored.version);
            && m'.stored == m.stored
            && m'.known == (if news && Newer(t, version, m.known) then version else m.known)
            && m'.fetchingAt == (if news && minion.Some? && MayFetch(m, now) then Some(now) else m.fetchingAt)
  {
  }

  // A fetched map is stored if it is newer, and known if it is newer; no fetch is underway any more,
  // but for one that is started at once if something newer still is known.
  lemma FetchingIsExact(t: SyncType, m: Mirror, minion: Option<Minion>, o: SyncObject, now: Time)
    ensures var m' := TakeFetched(t, m, minion, o, now);
            && m'.stored == (if Newer(t, o.version, m.stored.version) then o else m.stored)
            && m'.known == (if Newer(t, o.version, m.known) then o.version else m.known)
            && m'.fetchingAt == (if minion.Some? && Newer(t, m'.known, o.version) then Some(now) else None)
  {
  }

  // ---------------------------------------------------------------- who speaks of a version

  // The end of this job made a request await this version of the OSD map. Version 0 is looked for by
  // growths only.
  ghost predicate Returns(c: Collection, jid: JobId, version: nat) {
    exists id :: IsSubmitted(c, id) && c.requests[id].jid == Some(jid) && AwaitsItsMap(c.requests[id].plan)
                 && (version != 0 || c.requests[id].plan.PgCreating?)
  }

  // The step told the manager of this version of a map: by a heartbeat of the favourite, by the map
  // itself, or by the result of a job.
  ghost predicate Tells(w: World, e: Event, w': World, t: SyncType, version: Version) {
    e.Deliver? &&
    match e.msg
    case Heartbeat(minion, versions, timeout, order, now) =>
      w'.monitor.favorite == Some(minion) && t in versions && versions[t] == version
    case MapReply(minion, t1, o, order, refused, failed, now) => t1 == t && o.version == version
    case JobReply(jid, minion, reply, accepts, now) =>
      && t == OsdMap && reply.Success? && version == Some(reply.version)
      && Returns(w.monitor.requests, jid, reply.version)
    case _ => false
  }

  // What the end of a job does to the mirror of the OSD map.
  lemma CompletionIsHeard(c: Collection, m: Mirror, jid: JobId, minion: Minion, reply: Reply, accepts: bool, now: Time)
    requires Agreed(c)
    ensures OnCompletion(c, m, jid, minion, reply, accepts, now).osdMap
         == if reply.Success? && Returns(c, jid, reply.version)
            then HearVersion(OsdMap, m, Some(minion), Some(reply.version), now) else m
  {
    hide HearVersion;
    if jid in c.byJid {
      var id := c.byJid[jid];
      assert Entry(c.requests[id], jid) && Sound(c.requests[id]);
      if Finishes(c, jid, id, reply) && !c.requests[id].plan.SaltCall? {
        OnCompletionFinishes(c, m, jid, id, minion, reply, accepts, now);
        SuccessIsHeard(c.requests[id], m, minion, reply.version, Offer(c, accepts), now);
      }
    }
  }

  lemma SuccessIsHeard(r: Request, m: Mirror, minion: Minion, version: nat, offer: Option<JobId>, now: Time)
    requires Sound(r) && r.state == Submitted && r.jid.Some?
    ensures CompleteSuccess(r, m, minion, version, offer, now).osdMap
         == if AwaitsItsMap(r.plan) && (version != 0 || r.plan.PgCreating?)
            then HearVersion(OsdMap, m, Some(minion), Some(version), now) else m
  {
    hide HearVersion, OnMap;
    CompleteJidIsSound(r, version);
  }

  // ---------------------------------------------------------------- one step

  // What a step does to the mirror of an ordered type.
  ghost predicate Steps(w: World, e: Event, w': World, t: SyncType)
    requires Total(w.monitor.mirrors) && Total(w'.monitor.mirrors)
  {
    var m, m' := w.monitor.mirrors[t], w'.monitor.mirrors[t];
    && AtMost(m.known, m'.known) && AtMost(m.stored.version, m'.stored.version)
    && (forall v :: Tells(w, e, w', t, v) ==> AtMost(v, m'.known))
    && (m'.known == m.known || Tells(w, e, w', t, m'.known))
    && (e.Deliver? && e.msg.MapReply? && e.msg.t == t ==> AtMost(e.msg.o.version, m'.stored.version))
    && (m'.stored == m.stored || (e.Deliver? && e.msg.MapReply? && e.msg.t == t && m'.stored == e.msg.o))
  }

  lemma HearingRises(t: SyncType, m: Mirror, minion: Minion, version: Version, now: Time)
    requires Ordered(t) && AtMost(m.stored.version, m.known)
    ensures var m' := HearVersion(t, m, Some(minion), version, now);
            && m'.stored == m.stored && AtMost(m.known, m'.known) && AtMost(version, m'.known)
            && (m'.known == m.known || m'.known == version)
  {
  }

  lemma FetchingRises(t: SyncType, m: Mirror, minion: Minion, o: SyncObject, now: Time)
    requires Ordered(t)
    ensures var m' := TakeFetched(t, m, Some(minion), o, now);
            && AtMost(m.stored.version, m'.stored.version) && AtMost(o.version, m'.stored.version)
            && (m'.stored == m.stored || m'.stored == o)
            && AtMost(m.known, m'.known) && AtMost(o.version, m'.known)
            && (m'.known == m.known || m'.known == o.version)
  {
  }

  lemma Still(t: SyncType, m: Mirror)
    ensures AtMost(m.known, m.known) && AtMost(m.stored.version, m.stored.version)
  {
  }

  lemma MirrorInOrder(w: World, t: SyncType)
    requires Inv(w) && Ordered(t)
    ensures Total(w.monitor.mirrors) && AtMost(w.monitor.mirrors[t].stored.version, w.monitor.mirrors[t].known)
  {
    assert Safe(t, w.monitor.mirrors[t], w.history[t]);
  }

  lemma HeartbeatSteps(w: World, e: Event, w': World, t: SyncType)
    requires Inv(w) && Next(w, e, w') && e.Deliver? && e.msg.Heartbeat? && Ordered(t)
    ensures Total(w'.monitor.mirrors) && Steps(w, e, w', t)
  {
    hide Inv, Next, OnHeartbeat, HearVersion, AtMost;
    MirrorInOrder(w, t);
    var m := w.monitor.mirrors[t];
    HeartbeatComes(w, e, w');
    HeartbeatChooses(w.monitor, e.msg.minion, e.msg.versions, e.msg.timeout, e.msg.order, e.msg.now);
    Still(t, m);
    if w'.monitor.favorite == Some(e.msg.minion) && t in e.msg.versions {
      HearingRises(t, m, e.msg.minion, e.msg.versions[t], e.msg.now);
    }
  }

  lemma ReplyMirror(w: World, e: Event, w': World)
    requires Inv(w) && Next(w, e, w') && e.Deliver? && e.msg.JobReply?
    ensures Total(w.monitor.mirrors)
    ensures var m, msg := w.monitor.mirrors[OsdMap], e.msg;
            w'.monitor.mirrors
            == if msg.reply.Success? && Returns(w.monitor.requests, msg.jid, msg.reply.version) then
                 var m' := HearVersion(OsdMap, m, Some(msg.minion), Some(msg.reply.version), msg.now);
                 w.monitor.mirrors[OsdMap := m']
               else w.monitor.mirrors
  {
    CompletionIsHeard(w.monitor.requests, w.monitor.mirrors[OsdMap], e.msg.jid, e.msg.minion, e.msg.reply,
                      e.msg.accepts, e.msg.now);
    hide OnCompletion, HearVersion, Returns, Possible;
    assert w'.monitor == OnJobReply(w.monitor, e.msg.jid, e.msg.minion, e.msg.reply, e.msg.accepts, e.msg.now);
    assert w.monitor.mirrors[OsdMap := w.monitor.mirrors[OsdMap]] == w.monitor.mirrors;
  }

  lemma ReplySteps(w: World, e: Event, w': World, t: SyncType)
    requires Inv(w) && Next(w, e, w') && e.Deliver? && e.msg.JobReply? && Ordered(t)
    ensures Total(w'.monitor.mirrors) && Steps(w, e, w', t)
  {
    hide Inv, Next, HearVersion, AtMost, Returns;
    MirrorInOrder(w, OsdMap);
    ReplyMirror(w, e, w');
    Still(t, w.monitor.mirrors[t]);
    if e.msg.reply.Success? {
      HearingRises(OsdMap, w.monitor.mirrors[OsdMap], e.msg.minion, Some(e.msg.reply.version), e.msg.now);
    }
  }

  lemma FetchMirror(w: World, e: Event, w': World)
    requires Inv(w) && Next(w, e, w') && e.Deliver? && e.msg.MapReply?
    ensures Total(w.monitor.mirrors)
    ensures var m, msg := w.monitor.mirrors[e.msg.t], e.msg;
            w'.monitor.mirrors == w.monitor.mirrors[msg.t := TakeFetched(msg.t, m, Some(msg.minion), msg.o, msg.now)]
  {
    hide TakeFetched, OnMapAll, Possible, Inv;
  }

  lemma FetchSteps(w: World, e: Event, w': World, t: SyncType)
    requires Inv(w) && Next(w, e, w') && e.Deliver? && e.msg.MapReply? && Ordered(t)
    ensures Total(w'.monitor.mirrors) && Steps(w, e, w', t)
  {
    hide Inv, Next, TakeFetched, AtMost;
    FetchMirror(w, e, w');
    Still(t, w.monitor.mirrors[t]);
    if e.msg.t == t {
      FetchingRises(t, w.monitor.mirrors[t], e.msg.minion, e.msg.o, e.msg.now);
    }
  }

  lemma OtherSteps(w: World, e: Event, w': World, t: SyncType)
    requires Inv(w) && Next(w, e, w') && Ordered(t)
    requires e.Deliver? ==> !e.msg.Heartbeat? && !e.msg.MapReply? && !e.msg.JobReply?
    ensures Total(w'.monitor.mirrors) && Steps(w, e, w', t)
  {
    hide Possible, Tick, OnTickResponse, RequestIndex.Cancel, RequestIndex.Submit;
    assert w'.monitor.mirrors == w.monitor.mirrors;
  }

  lemma AnyStep(w: World, e: Event, w': World, t: SyncType)
    requires Inv(w) && Next(w, e, w') && Ordered(t)
    ensures Total(w'.monitor.mirrors) && Steps(w, e, w', t)
  {
    hide Inv, Next, Steps;
    if e.Deliver? && e.msg.Heartbeat? {
      HeartbeatSteps(w, e, w', t);
    } else if e.Deliver? && e.msg.MapReply? {
      FetchSteps(w, e, w', t);
    } else if e.Deliver? && e.msg.JobReply? {
      ReplySteps(w, e, w', t);
    } else {
      OtherSteps(w, e, w', t);
    }
  }

  // ---------------------------------------------------------------- whole runs

  // The k-th step fetched this map.
  predicate Fetches(es: seq<Event>, k: nat, t: SyncType, o: SyncObject)
    requires k < |es|
  {
    es[k].Deliver? && es[k].msg.MapReply? && es[k].msg.t == t && es[k].msg.o == o
  }

  // What is stored is the newest of the maps that were fetched, whenever and from whomever; or what
  // was there at the start, if none was newer.
  lemma {:induction false} NewestIsStored(ws: seq<World>, es: seq<Event>, i: nat, t: SyncType)
    requires IsRun(ws, es) && i <= |es| && Ordered(t)
    ensures Inv(ws[0]) && Inv(ws[i])
    ensures var first, stored := ws[0].monitor.mirrors[t].stored, ws[i].monitor.mirrors[t].stored;
            && AtMost(first.version, stored.version)
            && (forall k, o :: 0 <= k < i && Fetches(es, k, t, o) ==> AtMost(o.version, stored.version))
            && (stored == first || exists k :: 0 <= k < i && Fetches(es, k, t, stored))
  {
    hide Inv, Next, Tells;
    MirrorsAreSafe(ws, es, 0, i, t);
    if i == 0 {
    } else {
      NewestIsStored(ws, es, i - 1, t);
      MirrorInOrder(ws[i - 1], t);
      AnyStep(ws[i - 1], es[i - 1], ws[i], t);
      var stored := ws[i].monitor.mirrors[t].stored;
      if stored != ws[i - 1].monitor.mirrors[t].stored {
        assert Fetches(es, i - 1, t, stored);
      }
    }
  }

  // What is known is the newest of the versions that the manager was told of.
  lemma {:induction false} NewestIsKnown(ws: seq<World>, es: seq<Event>, i: nat, t: SyncType)
    requires IsRun(ws, es) && i <= |es| && Ordered(t)
    ensures Inv(ws[0]) && Inv(ws[i])
    ensures var first, known := ws[0].monitor.mirrors[t].known, ws[i].monitor.mirrors[t].known;
            && AtMost(first, known)
            && (forall k, v :: 0 <= k < i && Tells(ws[k], es[k], ws[k + 1], t, v) ==> AtMost(v, known))
            && (known == first || exists k :: 0 <= k < i && Tells(ws[k], es[k], ws[k + 1], t, known))
  {
    hide Inv, Next, Tells;
    MirrorsAreSafe(ws, es, 0, i, t);
    if i == 0 {
      Still(t, ws[0].monitor.mirrors[t]);
    } else {
      NewestIsKnown(ws, es, i - 1, t);
      MirrorInOrder(ws[i - 1], t);
      AnyStep(ws[i - 1], es[i - 1], ws[i], t);
      var known := ws[i].monitor.mirrors[t].known;
      forall k, v | 0 <= k < i && Tells(ws[k], es[k], ws[k + 1], t, v)
        ensures AtMost(v, known)
      {
        assert k < i - 1 ==> AtMost(v, ws[i - 1].monitor.mirrors[t].known);
      }
      if known != ws[i - 1].monitor.mirrors[t].known {
        assert Tells(ws[i - 1], es[i - 1], ws[i], t, known);
      }
    }
  }

  // ---------------------------------------------------------------- what requests wait for

  // The end of a job that leaves a request awaiting a version makes that version known; and if it is
  // not stored, a fetch is underway, started now if none was.
  lemma AwaitedIsFetched(w: World, msg: Message, id: RequestId)
    requires Inv(w) && Possible(w, msg) && msg.JobReply? && msg.reply.Success? && msg.reply.version != 0
    requires IsSubmitted(w.monitor.requests, id) && w.monitor.requests.requests[id].jid == Some(msg.jid)
    requires AwaitsItsMap(w.monitor.requests.requests[id].plan)
    ensures var m', v := Handle(w.monitor, msg), msg.reply.version;
            && id in m'.requests.requests && m'.requests.requests[id].awaitVersion == Some(v) && Total(m'.mirrors)
            && var before, after := w.monitor.mirrors[OsdMap], m'.mirrors[OsdMap];
               && after.stored == before.stored
               && after.known.Some? && v <= after.known.value
               && (after.stored.version.None? || after.stored.version.value < v ==>
                     after.fetchingAt == if before.fetchingAt.None? || msg.now - before.fetchingAt.value >= 10
                                         then Some(msg.now) else before.fetchingAt)
  {
    var c, m := w.monitor.requests, w.monitor.mirrors[OsdMap];
    assert Safe(OsdMap, m, w.history[OsdMap]);
    FinishedAwaits(w, msg, id);
    CompletionIsHeard(c, m, msg.jid, msg.minion, msg.reply, msg.accepts, msg.now);
    assert Returns(c, msg.jid, msg.reply.version);
    HearingIsExact(OsdMap, m, Some(msg.minion), Some(msg.reply.version), msg.now);
  }

  // In every world of every run, a version that a request awaits is known of.
  lemma {:induction false} AwaitedIsKnown(ws: seq<World>, es: seq<Event>, i: nat, id: RequestId, v: nat)
    requires IsRun(ws, es) && i <= |es| && id in ws[i].monitor.requests.requests && v != 0
    requires AwaitsItsMap(ws[i].monitor.requests.requests[id].plan)
    requires ws[i].monitor.requests.requests[id].awaitVersion == Some(v)
    ensures Inv(ws[i])
    ensures ws[i].monitor.mirrors[OsdMap].known.Some? && v <= ws[i].monitor.mirrors[OsdMap].known.value
  {
    hide Inv, Next;
    RunKeeps(ws, es, i);
    if i == 0 {
      NobodyWaits(ws, es);
    } else {
      RunKeeps(ws, es, i - 1);
      AnyStep(ws[i - 1], es[i - 1], ws[i], OsdMap);
      if WaitedAlready(ws[i - 1], id, v) {
        AwaitedIsKnown(ws, es, i - 1, id, v);
      } else {
        StartsWaiting(ws[i - 1], es[i - 1], ws[i], id, v);
      }
    }
  }

  predicate WaitedAlready(w: World, id: RequestId, v: nat) {
    && id in w.monitor.requests.requests && AwaitsItsMap(w.monitor.requests.requests[id].plan)
    && w.monitor.requests.requests[id].awaitVersion == Some(v)
  }

  lemma NobodyWaits(ws: seq<World>, es: seq<Event>)
    requires IsRun(ws, es)
    ensures ws[0].monitor.requests.requests == map[]
  {
  }

  // Only the end of its job makes a request wait for a version.
  lemma StartsWaiting(w: World, e: Event, w': World, id: RequestId, v: nat)
    requires Inv(w) && Next(w, e, w') && WaitedAlready(w', id, v) && !WaitedAlready(w, id, v) && v != 0
    ensures Tells(w, e, w', OsdMap, Some(v))
  {
    hide Handle, Possible;
    NextKeeps(w, e, w');
    if id in w.monitor.requests.requests {
      EvolvedStays(w.monitor.requests.requests[id], w'.monitor.requests.requests[id]);
      if e.Deliver? && !EndsJobOf(w, e, id) {
        HandleDrifts(w, e.msg, id);
        RequestRuns.DriftStays(w.monitor.requests.requests[id], w'.monitor.requests.requests[id]);
      } else {
        FinishedAwaits(w, e.msg, id);
        assert Entry(w.monitor.requests.requests[id], e.msg.jid);
        assert Returns(w.monitor.requests, e.msg.jid, v);
      }
    }
  }
}
