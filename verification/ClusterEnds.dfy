// How requests end in a cluster: exactly which messages make one fail, and which make it succeed.
module ClusterEnds {
  import opened Wrappers
  import opened SyncTypes
  import opened SyncMirror
  import opened Requests
  import opened RequestIndex
  import RequestRuns
  import opened RequestEnds
  import opened CollectionRuns
  import opened Wakeups
  import opened Cluster
  import opened ClusterSteps
  import opened ClusterRuns
  import opened Deliveries
  import opened Favorites
  import opened MirrorRuns

  predicate EndedBadly(r: Request) {
    r.state == Complete && r.error
  }

  predicate EndedWell(r: Request) {
    r.state == Complete && !r.error
  }

  // ---------------------------------------------------------------- the end of a job

  // Its reply ends a request in error: the job failed, or an OSD map with its result is stored
  // already, on which the request fails.
  ghost predicate FailsOnReply(r: Request, reply: Reply, osdMap: SyncObject) {
    match reply
    case SaltFailure => true
    case RadosError => !r.plan.SaltCall?
    case Success(version) =>
      AwaitsItsMap(r.plan) && Reached(Ended(r, version), osdMap) && FailsOn(Ended(r, version), OsdMap, osdMap, false)
  }

  // It ends a plain job well; and a request that an OSD map that is stored already makes succeed.
  ghost predicate SucceedsOnReply(r: Request, reply: Reply, osdMap: SyncObject) {
    match reply
    case SaltFailure => false
    case RadosError => r.plan.SaltCall?
    case Success(version) => !AwaitsItsMap(r.plan) || SucceedsOn(Ended(r, version), OsdMap, osdMap)
  }

  lemma SuccessEnds(r: Request, m: Mirror, minion: Minion, version: nat, offer: Option<JobId>, now: Time)
    requires Sound(r) && r.state == Submitted && r.jid.Some? && !r.plan.SaltCall?
    ensures var r' := CompleteSuccess(r, m, minion, version, offer, now).r;
            && (EndedBadly(r') <==> FailsOnReply(r, Success(version), m.stored))
            && (EndedWell(r') <==> SucceedsOnReply(r, Success(version), m.stored))
            && r'.jobs == r.jobs && r'.aliveAt == r.aliveAt
  {
    hide OnMap, SucceedsOn;
    CompleteJidIsSound(r, version);
    if AwaitsItsMap(r.plan) {
      var done := Ended(r, version);
      EndedIsSound(r, version);
      MapAnswered(done, OsdMap, m.stored, offer, now);
      if Reached(done, m.stored) {
        SuccessTakes(r, m, minion, version, offer, now);
      } else {
        SuccessWaits(r, m, minion, version, offer, now);
      }
    }
  }

  // The stored map is handed over at once exactly if it is of the version that the job returned.
  lemma SuccessTakes(r: Request, m: Mirror, minion: Minion, version: nat, offer: Option<JobId>, now: Time)
    requires Sound(r) && r.state == Submitted && r.jid.Some? && AwaitsItsMap(r.plan)
    requires Reached(Ended(r, version), m.stored)
    ensures CompleteSuccess(r, m, minion, version, offer, now).r
         == RequestRuns.Step(Ended(r, version), RequestRuns.MapArrives(OsdMap, m.stored, offer, now))
    ensures Sound(Ended(r, version)) && !SendsOn(Ended(r, version), OsdMap, m.stored)
  {
    hide OnMap;
    CompleteJidIsSound(r, version);
    EndedIsSound(r, version);
    assert CompleteJid(r, version).r == Ended(r, version);
  }

  lemma SuccessWaits(r: Request, m: Mirror, minion: Minion, version: nat, offer: Option<JobId>, now: Time)
    requires Sound(r) && r.state == Submitted && r.jid.Some? && AwaitsItsMap(r.plan)
    requires !Reached(Ended(r, version), m.stored)
    ensures CompleteSuccess(r, m, minion, version, offer, now).r == Ended(r, version)
    ensures !SucceedsOn(Ended(r, version), OsdMap, m.stored)
  {
    hide OnMap;
    CompleteJidIsSound(r, version);
    assert CompleteJid(r, version).r == Ended(r, version);
  }

  // A reply to its job ends a request, in error or well, exactly as said; one to another's does not.
  lemma ReplyEnds(c: Collection, m: Mirror, jid: JobId, minion: Minion, reply: Reply, accepts: bool, now: Time,
                  id: RequestId)
    requires Agreed(c) && IsSubmitted(c, id)
    ensures var r, out := c.requests[id], OnCompletion(c, m, jid, minion, reply, accepts, now);
            && id in out.c.requests
            && var r' := out.c.requests[id];
               && (EndedBadly(r') <==> r.jid == Some(jid) && FailsOnReply(r, reply, m.stored))
               && (EndedWell(r') <==> r.jid == Some(jid) && SucceedsOnReply(r, reply, m.stored))
               && r'.jobs == r.jobs && r'.aliveAt == r.aliveAt
               && (r.jid != Some(jid) ==> r' == r)
  {
    var r := c.requests[id];
    assert Sound(r);
    if r.jid == Some(jid) {
      assert jid in c.byJid && c.byJid[jid] == id;
      if reply.SaltFailure? || (reply.RadosError? && !r.plan.SaltCall?) {
        InterruptionEnds(r);
      } else {
        OnCompletionFinishes(c, m, jid, id, minion, reply, accepts, now);
        if r.plan.SaltCall? {
          CompleteJidIsSound(r, 0);
        } else {
          SuccessEnds(r, m, minion, reply.version, Offer(c, accepts), now);
        }
      }
    } else if jid in c.byJid {
      assert Entry(c.requests[c.byJid[jid]], jid);
      OneReplied(c, m, c.byJid[jid], minion, reply, accepts, now);
    }
  }

  // ---------------------------------------------------------------- maps

  lemma InvParts(w: World)
    requires Inv(w)
    ensures Total(w.monitor.mirrors) && Agreed(w.monitor.requests)
  {
  }

  lemma SoundIn(c: Collection, id: RequestId)
    requires Agreed(c) && id in c.requests
    ensures Sound(c.requests[id]) && AllWellFormed(c)
  {
  }

  // In its turn, a request is offered a job for the map exactly if Salt does not refuse it.
  lemma {:induction false} Offered(c: Collection, order: seq<RequestId>, ids: set<RequestId>, t: SyncType,
                                   o: SyncObject, refused: set<RequestId>, now: Time, id: RequestId)
    returns (offer: Option<JobId>)
    requires Agreed(c) && Enumerates(order, ids) && forall i :: i in ids ==> IsSubmitted(c, i)
    requires id in ids
    ensures offer.None? <==> id in refused
    ensures id in OnMapAll(c, order, t, o, refused, now).requests
    ensures Sound(c.requests[id])
    ensures OnMapAll(c, order, t, o, refused, now).requests[id]
         == RequestRuns.Step(c.requests[id], RequestRuns.MapArrives(t, o, offer, now))
  {
    hide OnMap, Sound, AwaitingVersions;
    assert id in order;
    var init, last := order[..|order| - 1], order[|order| - 1];
    var prior := EnumeratesPrefix(order, ids);
    OnMapAllAgrees(c, init, prior, t, o, refused, now);
    OnMapAllAgrees(c, order, ids, t, o, refused, now);
    var c1 := OnMapAll(c, init, t, o, refused, now);
    SoundIn(c, id);
    SoundIn(c1, last);
    OnMapOneHandles(c1, last, t, o, Accepts(refused, last), now);
    if id == last {
      assert c1.requests[id] == c.requests[id];
      offer := OfferedTo(c1, id, t, o, Accepts(refused, id), now);
    } else {
      offer := Offered(c, init, prior, t, o, refused, now, id);
    }
  }

  lemma OfferedTo(c: Collection, id: RequestId, t: SyncType, o: SyncObject, accepts: bool, now: Time)
    returns (offer: Option<JobId>)
    requires Agreed(c) && IsSubmitted(c, id)
    ensures offer.Some? <==> accepts
    ensures AllWellFormed(c) && id in OnMapOne(c, id, t, o, accepts, now).requests && Sound(c.requests[id])
    ensures OnMapOne(c, id, t, o, accepts, now).requests[id]
         == RequestRuns.Step(c.requests[id], RequestRuns.MapArrives(t, o, offer, now))
  {
    hide OnMap;
    offer := Offer(c, accepts);
  }

  // ---------------------------------------------------------------- ticks

  // A tick ends the requests that it walks to, up to one that is complete already.
  predicate Walked(c: Collection, order: seq<RequestId>, id: RequestId) {
    exists k :: 0 <= k < |order| && order[k] == id && forall j :: 0 <= j <= k ==> IsSubmitted(c, order[j])
  }

  predicate AllSubmitted(c: Collection, order: seq<RequestId>) {
    forall j :: 0 <= j < |order| ==> IsSubmitted(c, order[j])
  }

  lemma WalkedNext(c: Collection, order: seq<RequestId>, id: RequestId)
    requires order != []
    ensures var init, last := order[..|order| - 1], order[|order| - 1];
            && (AllSubmitted(c, order) <==> AllSubmitted(c, init) && IsSubmitted(c, last))
            && (Walked(c, order, id) <==> Walked(c, init, id) || (id == last && AllSubmitted(c, order)))
  {
    var init, last := order[..|order| - 1], order[|order| - 1];
    assert forall j :: 0 <= j < |init| ==> order[j] == init[j];
    if k :| 0 <= k < |order| && order[k] == id && forall j :: 0 <= j <= k ==> IsSubmitted(c, order[j]) {
      if k < |init| {
        assert init[k] == id;
      }
    }
    if k :| 0 <= k < |init| && init[k] == id && forall j :: 0 <= j <= k ==> IsSubmitted(c, init[j]) {
      assert order[k] == id && forall j :: 0 <= j <= k ==> order[j] == init[j];
    }
  }

  lemma AllUnderWay(c: Collection, order: seq<RequestId>, ids: set<RequestId>)
    requires Agreed(c) && Enumerates(order, ids) && ids <= c.requests.Keys
    ensures AllSubmitted(c, order) <==> !(exists i :: i in ids && c.requests[i].state == Complete)
  {
    forall i | i in ids
      ensures IsSubmitted(c, i) <==> c.requests[i].state != Complete
    {
      SoundIn(c, i);
    }
    assert forall i :: i in ids <==> i in order;
  }

  lemma {:induction false} TickEnds(c: Collection, order: seq<RequestId>, ids: set<RequestId>, id: RequestId)
    requires Agreed(c) && Enumerates(order, ids) && Endable(c, ids) && IsSubmitted(c, id)
    ensures id in Tick(c, order).c.requests
    ensures Tick(c, order).c.requests[id] == if Walked(c, order, id) then Abandon(c.requests[id]).r else c.requests[id]
  {
    hide Agreed, Abandon, Walked, EndOne, Ticked, AllSubmitted;
    if order == [] {
      NotWalked(c, id);
    } else {
      var init, last := order[..|order| - 1], order[|order| - 1];
      var prior := EnumeratesPrefix(order, ids);
      TickEnds(c, init, prior, id);
      TickAgrees(c, init, prior);
      WalkedNext(c, order, id);
      AllUnderWay(c, init, prior);
      if !Tick(c, init).raised {
        LastEnds(c, Tick(c, init).c, prior, last, id);
      }
    }
  }

  lemma NotWalked(c: Collection, id: RequestId)
    ensures !Walked(c, [], id)
  {
  }

  // The last one of a walk that has not been stopped.
  lemma LastEnds(c: Collection, c1: Collection, prior: set<RequestId>, last: RequestId, id: RequestId)
    requires Agreed(c1) && Ticked(c, Effect(c1, false), prior) && last !in prior && last in c.requests
    requires c.requests[last].state == Complete ==> c.requests[last].error
    requires IsSubmitted(c, id) && Agreed(c)
    ensures last in c1.requests && id in c1.requests && id in EndOne(c1, last).c.requests
    ensures EndOne(c1, last).c.requests[id]
         == if id == last then Abandon(c.requests[id]).r else c1.requests[id]
    ensures id == last ==> c1.requests[id] == c.requests[id]
    ensures !IsSubmitted(c, last) ==> id != last
  {
    hide Agreed, Abandon, EndOne;
    SoundIn(c, last);
    EndOneAgrees(c1, last);
  }

  // A tick walks requests that have been silent for more than a minute while their job was out, and
  // unless it meets one that is complete already, it ends all of them.
  lemma TickIsForTheSilent(w: World, msg: Message, id: RequestId)
    requires Inv(w) && Possible(w, msg) && msg.ClockTick? && IsSubmitted(w.monitor.requests, id)
    ensures var c := w.monitor.requests;
            var r := c.requests[id];
            && (Walked(c, msg.order, id) ==> r.jid.Some? && r.aliveAt.Some? && msg.now - r.aliveAt.value > 60)
            && (AllSubmitted(c, msg.order) ==>
                  (Walked(c, msg.order, id) <==> r.jid.Some? && r.aliveAt.Some? && msg.now - r.aliveAt.value > 60))
  {
    var c := w.monitor.requests;
    var r := c.requests[id];
    assert Sound(r);
    OverdueAreEndable(c, msg.now);
    TickAgrees(c, msg.order, msg.done);
    AllUnderWay(c, msg.order, msg.done);
    hide Tick, Ticked;
    if Walked(c, msg.order, id) {
      assert id in msg.order;
      var j :| j in c.byJid && c.byJid[j] == id && Overdue(r, msg.now);
      assert Entry(r, j);
    }
    if r.jid.Some? && r.aliveAt.Some? && msg.now - r.aliveAt.value > 60 {
      assert c.byJid[r.jid.value] == id;
      assert id in OverdueIds(c, msg.now);
      if AllSubmitted(c, msg.order) {
        assert id in msg.order;
        var k :| 0 <= k < |msg.order| && msg.order[k] == id;
      }
    }
  }

  // ---------------------------------------------------------------- one message

  // The message makes a request fail that is under way.
  ghost predicate Fails(w: World, e: Event, id: RequestId) {
    && e.Deliver? && IsSubmitted(w.monitor.requests, id) && Total(w.monitor.mirrors)
    && var m, r := w.monitor, w.monitor.requests.requests[id];
       match e.msg
       case Heartbeat(minion, versions, timeout, order, now) => Dethrones(m, minion, timeout, now)
       case MapReply(minion, t, o, order, refused, failed, now) =>
         Newer(t, o.version, m.mirrors[t].stored.version) && !failed && FailsOn(r, t, o, id in refused)
       case JobReply(jid, minion, reply, accepts, now) =>
         r.jid == Some(jid) && FailsOnReply(r, reply, m.mirrors[OsdMap].stored)
       case ClockTick(order, done, now) => Walked(m.requests, order, id)
       case CancelRequest(cancelled) => cancelled == id
       case _ => false
  }

  // The message makes it succeed.
  ghost predicate Succeeds(w: World, e: Event, id: RequestId) {
    && e.Deliver? && IsSubmitted(w.monitor.requests, id) && Total(w.monitor.mirrors)
    && var m, r := w.monitor, w.monitor.requests.requests[id];
       match e.msg
       case MapReply(minion, t, o, order, refused, failed, now) =>
         Newer(t, o.version, m.mirrors[t].stored.version) && !failed && SucceedsOn(r, t, o)
       case JobReply(jid, minion, reply, accepts, now) =>
         r.jid == Some(jid) && SucceedsOnReply(r, reply, m.mirrors[OsdMap].stored)
       case _ => false
  }

  // The message lets a growth send its next job.
  ghost predicate Sends(w: World, e: Event, id: RequestId) {
    && e.Deliver? && e.msg.MapReply? && IsSubmitted(w.monitor.requests, id) && Total(w.monitor.mirrors)
    && Newer(e.msg.t, e.msg.o.version, w.monitor.mirrors[e.msg.t].stored.version) && !e.msg.failed
    && SendsOn(w.monitor.requests.requests[id], e.msg.t, e.msg.o) && id !in e.msg.refused
  }

  // The message says that its job is running.
  ghost predicate Seen(w: World, e: Event, id: RequestId) {
    && e.Deliver? && e.msg.StillRunning? && IsSubmitted(w.monitor.requests, id)
    && w.monitor.requests.requests[id].jid.Some? && w.monitor.requests.requests[id].jid.value in e.msg.jobs
  }

  // What becomes of a request that is under way.
  ghost predicate GoesOn(w: World, e: Event, w': World, id: RequestId)
    requires IsSubmitted(w.monitor.requests, id)
  {
    && id in w'.monitor.requests.requests
    && var r, r' := w.monitor.requests.requests[id], w'.monitor.requests.requests[id];
       && (EndedBadly(r') <==> Fails(w, e, id))
       && (EndedWell(r') <==> Succeeds(w, e, id))
       && (Sends(w, e, id) ==> r.plan.PgCreating? && r.progress.Some?)
       && r'.jobs == (if Sends(w, e, id) then r.jobs + [NextJob(r)] else r.jobs)
       && r'.aliveAt == (if Sends(w, e, id) || Seen(w, e, id) then Some(e.msg.now) else r.aliveAt)
  }

  lemma MapGoesOn(w: World, msg: Message, id: RequestId)
    requires Inv(w) && Possible(w, msg) && msg.MapReply? && IsSubmitted(w.monitor.requests, id)
    ensures GoesOn(w, Deliver(msg), w.(monitor := Handle(w.monitor, msg)), id)
  {
    var c := w.monitor.requests;
    assert IsNews(msg.t, w.monitor.mirrors[msg.t], msg.o.version)
      <==> Newer(msg.t, msg.o.version, w.monitor.mirrors[msg.t].stored.version);
    if IsNews(msg.t, w.monitor.mirrors[msg.t], msg.o.version) && !msg.failed {
      var offer := Offered(c, msg.order, SubmittedIds(c), msg.t, msg.o, msg.refused, msg.now, id);
      MapAnswered(c.requests[id], msg.t, msg.o, offer, msg.now);
    }
  }

  lemma ReplyGoesOn(w: World, msg: Message, id: RequestId)
    requires Inv(w) && Possible(w, msg) && msg.JobReply? && IsSubmitted(w.monitor.requests, id)
    ensures GoesOn(w, Deliver(msg), w.(monitor := Handle(w.monitor, msg)), id)
  {
    hide FailsOnReply, SucceedsOnReply, OnCompletion, Inv;
    InvParts(w);
    SoundIn(w.monitor.requests, id);
    ReplyEnds(w.monitor.requests, w.monitor.mirrors[OsdMap], msg.jid, msg.minion, msg.reply, msg.accepts, msg.now, id);
  }

  lemma HeartbeatGoesOn(w: World, msg: Message, id: RequestId)
    requires Inv(w) && Possible(w, msg) && msg.Heartbeat? && IsSubmitted(w.monitor.requests, id)
    ensures GoesOn(w, Deliver(msg), w.(monitor := Handle(w.monitor, msg)), id)
  {
    hide OnHeartbeat, Dethrones, Inv;
    InvParts(w);
    HeartbeatChooses(w.monitor, msg.minion, msg.versions, msg.timeout, msg.order, msg.now);
  }

  lemma TickGoesOn(w: World, msg: Message, id: RequestId)
    requires Inv(w) && Possible(w, msg) && msg.ClockTick? && IsSubmitted(w.monitor.requests, id)
    ensures GoesOn(w, Deliver(msg), w.(monitor := Handle(w.monitor, msg)), id)
  {
    hide Walked, Tick, Inv, Agreed, Sound;
    InvParts(w);
    var c := w.monitor.requests;
    OverdueAreEndable(c, msg.now);
    TickEnds(c, msg.order, msg.done, id);
    SoundIn(c, id);
    InterruptionEnds(c.requests[id]);
  }

  lemma SeenGoesOn(w: World, msg: Message, id: RequestId)
    requires Inv(w) && Possible(w, msg) && msg.StillRunning? && IsSubmitted(w.monitor.requests, id)
    ensures GoesOn(w, Deliver(msg), w.(monitor := Handle(w.monitor, msg)), id)
  {
    hide OnTickResponse, Inv, Agreed;
    InvParts(w);
    SoundIn(w.monitor.requests, id);
    ReportedAlive(w.monitor.requests, msg.jobs, msg.now, id);
  }

  lemma CancelGoesOn(w: World, msg: Message, id: RequestId)
    requires Inv(w) && Possible(w, msg) && msg.CancelRequest? && IsSubmitted(w.monitor.requests, id)
    ensures GoesOn(w, Deliver(msg), w.(monitor := Handle(w.monitor, msg)), id)
  {
    hide Inv, Agreed, Abandon;
    InvParts(w);
    SoundIn(w.monitor.requests, id);
    InterruptionEnds(w.monitor.requests.requests[id]);
  }

  lemma SubmitGoesOn(w: World, msg: Message, id: RequestId)
    requires Inv(w) && Possible(w, msg) && (msg.ClusterRequest? || msg.DebugJob?)
    requires IsSubmitted(w.monitor.requests, id)
    ensures GoesOn(w, Deliver(msg), w.(monitor := Handle(w.monitor, msg)), id)
  {
    hide Inv, Agreed, Requests.Submit;
    InvParts(w);
    SoundIn(w.monitor.requests, id);
  }

  // Whatever happens, a request that is under way ends in error, or well, exactly as said.
  lemma StepGoesOn(w: World, e: Event, w': World, id: RequestId)
    requires Inv(w) && Next(w, e, w') && IsSubmitted(w.monitor.requests, id)
    ensures GoesOn(w, e, w', id)
  {
    hide Inv, Handle, Possible, GoesOn;
    match e
    case Publish(t, data) => PublishGoesOn(w, e, w', id);
    case Deliver(msg) =>
      if msg.MapReply? {
        MapGoesOn(w, msg, id);
      } else if msg.JobReply? {
        ReplyGoesOn(w, msg, id);
      } else if msg.Heartbeat? {
        HeartbeatGoesOn(w, msg, id);
      } else if msg.ClockTick? {
        TickGoesOn(w, msg, id);
      } else if msg.StillRunning? {
        SeenGoesOn(w, msg, id);
      } else if msg.CancelRequest? {
        CancelGoesOn(w, msg, id);
      } else {
        SubmitGoesOn(w, msg, id);
      }
  }

  lemma PublishGoesOn(w: World, e: Event, w': World, id: RequestId)
    requires e.Publish? && w'.monitor == w.monitor && IsSubmitted(w.monitor.requests, id)
    ensures GoesOn(w, e, w', id)
  {
  }

  // ---------------------------------------------------------------- whole runs

  // In every world of every run, a request has ended in error exactly if some message before made it
  // fail, and well exactly if some message made it succeed.
  lemma {:induction false} RequestsEnd(ws: seq<World>, es: seq<Event>, i: nat, id: RequestId)
    requires IsRun(ws, es) && i <= |es| && id in ws[i].monitor.requests.requests
    ensures var r := ws[i].monitor.requests.requests[id];
            && (EndedBadly(r) <==> exists k :: 0 <= k < i && Fails(ws[k], es[k], id))
            && (EndedWell(r) <==> exists k :: 0 <= k < i && Succeeds(ws[k], es[k], id))
  {
    hide Inv, Next, Fails, Succeeds;
    RunKeeps(ws, es, i);
    if i == 0 {
      NothingAtFirst(ws, es, id);
    } else {
      RunKeeps(ws, es, i - 1);
      var w, e, w' := ws[i - 1], es[i - 1], ws[i];
      if IsSubmitted(w.monitor.requests, id) {
        RequestsEnd(ws, es, i - 1, id);
        StepGoesOn(w, e, w', id);
      } else if id in w.monitor.requests.requests {
        RequestsEnd(ws, es, i - 1, id);
        StaysEnded(w, e, w', id);
      } else {
        NotThereBefore(ws, es, i - 1, id);
        IsNew(w, e, w', id);
      }
      NotUnderWay(w, e, id);
    }
  }

  lemma NotUnderWay(w: World, e: Event, id: RequestId)
    ensures !IsSubmitted(w.monitor.requests, id) ==> !Fails(w, e, id) && !Succeeds(w, e, id)
  {
  }

  lemma StaysEnded(w: World, e: Event, w': World, id: RequestId)
    requires Inv(w) && Next(w, e, w') && id in w.monitor.requests.requests && !IsSubmitted(w.monitor.requests, id)
    ensures id in w'.monitor.requests.requests
    ensures var r, r' := w.monitor.requests.requests[id], w'.monitor.requests.requests[id];
            r.state == Complete && r'.state == Complete && r'.error == r.error
  {
    hide Next;
    NextKeeps(w, e, w');
    SoundIn(w.monitor.requests, id);
    EvolvedStays(w.monitor.requests.requests[id], w'.monitor.requests.requests[id]);
  }

  lemma IsNew(w: World, e: Event, w': World, id: RequestId)
    requires Inv(w) && Next(w, e, w') && id !in w.monitor.requests.requests && id in w'.monitor.requests.requests
    ensures w'.monitor.requests.requests[id].state == Submitted
  {
    hide Next;
    NextKeeps(w, e, w');
    assert Enters(w'.monitor.requests.requests[id], w.monitor.favorite);
  }

  // A request that is not there has never been.
  lemma NotThereBefore(ws: seq<World>, es: seq<Event>, i: nat, id: RequestId)
    requires IsRun(ws, es) && i <= |es| && id !in ws[i].monitor.requests.requests
    ensures forall k :: 0 <= k < i ==> !Fails(ws[k], es[k], id) && !Succeeds(ws[k], es[k], id)
  {
    hide Inv, Next;
    forall k | 0 <= k < i
      ensures !Fails(ws[k], es[k], id) && !Succeeds(ws[k], es[k], id)
    {
      RunFollows(ws, es, k, i);
    }
  }

  // ---------------------------------------------------------------- operations on the OSD map

  // What ends a request without a map: its job fails, the user or a tick gives it up, or the favourite
  // changes.
  ghost predicate Interrupts(w: World, e: Event, id: RequestId) {
    && e.Deliver? && IsSubmitted(w.monitor.requests, id)
    && match e.msg
       case JobReply(jid, minion, reply, accepts, now) =>
         w.monitor.requests.requests[id].jid == Some(jid) && !reply.Success?
       case CancelRequest(cancelled) => cancelled == id
       case ClockTick(order, done, now) => Walked(w.monitor.requests, order, id)
       case Heartbeat(minion, versions, timeout, order, now) => Dethrones(w.monitor, minion, timeout, now)
       case _ => false
  }

  // The version of the OSD map that the job made gets there: with the map, or it is there when the
  // job ends.
  ghost predicate Arrives(w: World, e: Event, id: RequestId) {
    && e.Deliver? && IsSubmitted(w.monitor.requests, id) && Total(w.monitor.mirrors)
    && var r, stored := w.monitor.requests.requests[id], w.monitor.mirrors[OsdMap].stored;
       match e.msg
       case MapReply(minion, t, o, order, refused, failed, now) =>
         t == OsdMap && !failed && Newer(OsdMap, o.version, stored.version) && Reached(r, o)
       case JobReply(jid, minion, reply, accepts, now) =>
         && r.jid == Some(jid) && reply.Success? && 0 < reply.version
         && stored.version.Some? && reply.version <= stored.version.value
       case _ => false
  }

  lemma ModifyingStep(w: World, e: Event, id: RequestId)
    requires Inv(w) && IsSubmitted(w.monitor.requests, id)
    requires w.monitor.requests.requests[id].plan.OsdMapModifying?
    ensures (Fails(w, e, id) <==> Interrupts(w, e, id)) && (Succeeds(w, e, id) <==> Arrives(w, e, id))
  {
    InvParts(w);
  }

  // In every world of every run, an operation on the OSD map has failed exactly if it was interrupted,
  // and is complete without error exactly if the map that its job made has arrived.
  lemma {:induction false} OperationsComplete(ws: seq<World>, es: seq<Event>, i: nat, id: RequestId)
    requires IsRun(ws, es) && i <= |es| && id in ws[i].monitor.requests.requests
    requires ws[i].monitor.requests.requests[id].plan.OsdMapModifying?
    ensures var r := ws[i].monitor.requests.requests[id];
            && (EndedBadly(r) <==> exists k :: 0 <= k < i && Interrupts(ws[k], es[k], id))
            && (EndedWell(r) <==> exists k :: 0 <= k < i && Arrives(ws[k], es[k], id))
  {
    hide Inv, Next, Fails, Succeeds, Interrupts, Arrives;
    RequestsEnd(ws, es, i, id);
    forall k | 0 <= k < i
      ensures (Fails(ws[k], es[k], id) <==> Interrupts(ws[k], es[k], id))
      ensures Succeeds(ws[k], es[k], id) <==> Arrives(ws[k], es[k], id)
    {
      RunKeeps(ws, es, k);
      if IsSubmitted(ws[k].monitor.requests, id) {
        SamePlan(ws, es, k, i, id);
        ModifyingStep(ws[k], es[k], id);
      } else {
        NotUnderWay(ws[k], es[k], id);
        NotDisturbed(ws[k], es[k], id);
      }
    }
  }

  lemma NotDisturbed(w: World, e: Event, id: RequestId)
    ensures !IsSubmitted(w.monitor.requests, id) ==> !Interrupts(w, e, id) && !Arrives(w, e, id)
  {
  }

  lemma SamePlan(ws: seq<World>, es: seq<Event>, k: nat, i: nat, id: RequestId)
    requires IsRun(ws, es) && k <= i <= |es| && id in ws[k].monitor.requests.requests
    ensures id in ws[i].monitor.requests.requests
    ensures ws[i].monitor.requests.requests[id].plan == ws[k].monitor.requests.requests[id].plan
  {
    hide Inv, Next;
    RunFollows(ws, es, k, i);
    EvolvedStays(ws[k].monitor.requests.requests[id], ws[i].monitor.requests.requests[id]);
  }

  // ---------------------------------------------------------------- how requests start, and are seen

  // A request is filed exactly if there is a favourite and Salt takes its job, which is what the user
  // asked for, and goes to the favourite.
  lemma RequestIsFiled(w: World, msg: Message)
    requires Inv(w) && Possible(w, msg) && (msg.ClusterRequest? || msg.DebugJob?)
    ensures var c, c' := w.monitor.requests.requests, Handle(w.monitor, msg).requests.requests;
            && (forall id :: id in c ==> id in c' && c'[id] == c[id])
            && (msg.id in c' <==> msg.accepts && (msg.DebugJob? || w.monitor.favorite.Some?))
            && c'.Keys <= c.Keys + {msg.id}
            && (msg.id in c' ==>
                  var r := c'[msg.id];
                  && r.plan == (if msg.DebugJob? then SaltCall(msg.call) else msg.plan)
                  && r.minion == (if msg.DebugJob? then Some(msg.minion) else w.monitor.favorite)
                  && r.state == Submitted && r.jid.Some? && r.aliveAt == Some(msg.now) && r.jobs == [Asked(r.plan)]
                  && !r.error && r.awaitVersion == None)
  {
    hide Inv, NewRequest;
    var c := w.monitor.requests;
    if msg.DebugJob? {
      Starts(SaltCall(msg.call), msg.minion, Offer(c, msg.accepts), msg.now);
    } else if w.monitor.favorite.Some? {
      Starts(msg.plan, w.monitor.favorite.value, Offer(c, msg.accepts), msg.now);
    }
  }

  // A request is known to be alive at the time of a report exactly if the report names its job.
  lemma {:induction false} ReportedAlive(c: Collection, jobs: seq<JobId>, now: Time, id: RequestId)
    requires Agreed(c) && IsSubmitted(c, id)
    ensures var c', r := OnTickResponse(c, jobs, now), c.requests[id];
            && id in c'.requests && c'.byJid == c.byJid
            && c'.requests[id] == if r.jid.Some? && r.jid.value in jobs then r.(aliveAt := Some(now)) else r
  {
    if jobs != [] {
      var init, jid := jobs[..|jobs| - 1], jobs[|jobs| - 1];
      assert jobs == init + [jid];
      ReportedAlive(c, init, now, id);
      if jid in c.byJid {
        assert Entry(c.requests[c.byJid[jid]], jid);
      }
    }
  }
}
