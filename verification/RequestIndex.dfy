// The collection of user requests as a value: requests by their own id, and by the id of the
// job that each has out.
module RequestIndex {
  import opened Wrappers
  import opened SyncTypes
  import opened SyncMirror
  import opened Requests

  const TICK_PERIOD: Time := 20

  // `nextSerial` numbers the next job that Salt will accept.
  datatype Collection = Collection(requests: map<RequestId, Request>, byJid: map<JobId, RequestId>, nextSerial: nat)

  const EMPTY_COLLECTION := Collection(map[], map[], 0)

  function Offer(c: Collection, accepts: bool): Option<JobId> {
    if accepts then Some(JobId(c.nextSerial)) else None
  }

  predicate IsSubmitted(c: Collection, id: RequestId) {
    id in c.requests && c.requests[id].state == Submitted
  }

  ghost function SubmittedIds(c: Collection): set<RequestId> {
    set id | id in c.requests && c.requests[id].state == Submitted
  }

  // ---------------------------------------------------------------- the operations

  // A request changes and the index does not.
  function Put(c: Collection, id: RequestId, r: Request): Collection {
    c.(requests := c.requests[id := r])
  }

  function Reindex(byJid: map<JobId, RequestId>, id: RequestId, before: Option<JobId>, after: Option<JobId>)
    : map<JobId, RequestId>
  {
    if before == after then byJid
    else
      var rest := if before.Some? then byJid - {before.value} else byJid;
      if after.Some? then rest[after.value := id] else rest
  }

  // A request changes, perhaps submitting a job, and the index follows.
  function Update(c: Collection, id: RequestId, r: Request): Collection
    requires id in c.requests && |c.requests[id].jobs| <= |r.jobs|
  {
    Collection(
      c.requests[id := r],
      Reindex(c.byJid, id, c.requests[id].jid, r.jid),
      c.nextSerial + |r.jobs| - |c.requests[id].jobs|)
  }

  datatype Effect = Effect(c: Collection, raised: bool)

  function Submit(c: Collection, id: RequestId, plan: Plan, minion: Minion, accepts: bool, now: Time): Effect {
    var o := Requests.Submit(NewRequest(plan), minion, Offer(c, accepts), now);
    if o.raised || o.r.jid.None? then Effect(c, true)
    else Effect(Collection(c.requests[id := o.r], c.byJid[o.r.jid.value := id], c.nextSerial + 1), false)
  }

  // End a request with an error inside the block that updates the index.
  function EndOne(c: Collection, id: RequestId): Effect
    requires id in c.requests
  {
    var out := Abandon(c.requests[id]);
    Effect(if out.raised then Put(c, id, out.r) else Update(c, id, out.r), out.raised)
  }

  // End a submitted request with an error, index and all.
  function Fail(c: Collection, id: RequestId): Collection
    requires id in c.requests
  {
    Update(c, id, Abandon(c.requests[id]).r)
  }

  function Cancel(c: Collection, id: RequestId): Collection {
    if id !in c.requests || c.requests[id].state == Complete then c else Fail(c, id)
  }

  function FailAll(c: Collection, order: seq<RequestId>): (c': Collection)
    requires forall id :: id in order ==> id in c.requests
    ensures c'.requests.Keys == c.requests.Keys
  {
    if order == [] then c else Fail(FailAll(c, order[..|order| - 1]), order[|order| - 1])
  }

  ghost predicate AllWellFormed(c: Collection) {
    forall id :: id in c.requests ==> WellFormed(c.requests[id])
  }

  ghost function OnMapOne(c: Collection, id: RequestId, t: SyncType, o: SyncObject, accepts: bool,
                          now: Time): Collection
    requires AllWellFormed(c)
  {
    if id !in c.requests || t !in AwaitingVersions(c.requests[id]) then c
    else
      var out := OnMap(c.requests[id], t, o, Offer(c, accepts), now);
      if out.raised then Put(c, id, Abandon(out.r).r) else Update(c, id, out.r)
  }

  predicate Accepts(refused: set<RequestId>, id: RequestId) {
    id !in refused
  }

  // A new map is offered to the requests one by one; Salt refuses the jobs of some of them.
  ghost function OnMapAll(c: Collection, order: seq<RequestId>, t: SyncType, o: SyncObject,
                          refused: set<RequestId>, now: Time): Collection
  {
    if order == [] then c
    else
      var c1, id := OnMapAll(c, order[..|order| - 1], t, o, refused, now), order[|order| - 1];
      if AllWellFormed(c1) then OnMapOne(c1, id, t, o, Accepts(refused, id), now) else c1
  }

  datatype Reply = SaltFailure | RadosError | Success(version: nat)

  datatype Completion = Completion(c: Collection, osdMap: Mirror, raised: bool)

  // A job has ended. The awaited OSD map version, if the request now awaits one, is made known to
  // the mirror of the OSD map, and a map that is new enough is handed over at once.
  ghost function OnCompletion(c: Collection, m: Mirror, jid: JobId, minion: Minion, reply: Reply, accepts: bool,
                              now: Time)
    : Completion
    requires AllWellFormed(c)
  {
    if jid !in c.byJid || c.byJid[jid] !in c.requests then Completion(c, m, false)
    else OnReply(c, m, c.byJid[jid], minion, reply, accepts, now)
  }

  ghost function OnReply(c: Collection, m: Mirror, id: RequestId, minion: Minion, reply: Reply, accepts: bool,
                         now: Time)
    : Completion
    requires AllWellFormed(c) && id in c.requests
  {
    var r := c.requests[id];
    if reply.SaltFailure? then
      var e := EndOne(c, id);
      Completion(e.c, m, e.raised)
    else if r.plan.SaltCall? then
      var out := CompleteJid(r, 0);
      Completion(if out.raised then Put(c, id, out.r) else Update(c, id, out.r), m, out.raised)
    else
      var o := OnRados(c, m, id, minion, reply, accepts, now);
      Completion(o.c, o.osdMap, false)
  }

  // The commands of a rados job ran; an error that they report, like an exception, ends the
  // request and leaves the index alone.
  ghost function OnRados(c: Collection, m: Mirror, id: RequestId, minion: Minion, reply: Reply, accepts: bool,
                         now: Time)
    : Completion
    requires AllWellFormed(c) && id in c.requests && !reply.SaltFailure?
  {
    var r := c.requests[id];
    if r.state != Submitted then Completion(c, m, false)
    else if reply.RadosError? then Completion(Put(c, id, Abandon(r).r), m, false)
    else
      var p := CompleteSuccess(r, m, minion, reply.version, Offer(c, accepts), now);
      Completion(if p.raised then Put(c, id, p.r) else Update(c, id, p.r), p.osdMap, false)
  }

  datatype Progressed = Progressed(r: Request, osdMap: Mirror, raised: bool)

  // The part of a successful completion that concerns the request and the mirror only; a request
  // whose code raises has been abandoned.
  ghost function CompleteSuccess(r: Request, m: Mirror, minion: Minion, version: nat, offer: Option<JobId>, now: Time)
    : (p: Progressed)
    requires WellFormed(r) && r.state == Submitted
    ensures |r.jobs| <= |p.r.jobs|
    ensures p.raised ==> p.r.jobs == r.jobs
  {
    var out := CompleteJid(r, version);
    if out.raised then Progressed(Abandon(out.r).r, m, true)
    else
      var m1 := NotifyAwaited(out.r, m, minion, now);
      var out1 := if HasAwaited(out.r, m1) then OnMap(out.r, OsdMap, m1.stored, offer, now) else out;
      Progressed(Settle(out1).r, m1, out1.raised)
  }

  function NotifyAwaited(r: Request, m: Mirror, minion: Minion, now: Time): Mirror {
    if OsdMap in AwaitingVersions(r) && AwaitingVersions(r)[OsdMap].Some?
    then HearVersion(OsdMap, m, Some(minion), AwaitingVersions(r)[OsdMap], now)
    else m
  }

  // The stored OSD map is already of the version that the request awaits.
  predicate HasAwaited(r: Request, m: Mirror) {
    && OsdMap in AwaitingVersions(r)
    && Awaits(AwaitingVersions(r)[OsdMap])
    && Cmp(OsdMap, m.stored.version, AwaitingVersions(r)[OsdMap]) >= 0
  }

  predicate Overdue(r: Request, now: Time) {
    r.aliveAt.Some? && now - r.aliveAt.value > 3 * TICK_PERIOD
  }

  ghost function OverdueIds(c: Collection, now: Time): set<RequestId> {
    set j | j in c.byJid && c.byJid[j] in c.requests && Overdue(c.requests[c.byJid[j]], now) :: c.byJid[j]
  }

  // Overdue requests are ended one by one; one that is complete already trips an assertion, and
  // those after it are left alone.
  function Tick(c: Collection, order: seq<RequestId>): (e: Effect)
    requires forall id :: id in order ==> id in c.requests
    ensures e.c.requests.Keys == c.requests.Keys
  {
    if order == [] then Effect(c, false)
    else
      var e, id := Tick(c, order[..|order| - 1]), order[|order| - 1];
      if e.raised then e else EndOne(e.c, id)
  }

  // A job reported as running is alive now.
  function Alive(c: Collection, jid: JobId, now: Time): Collection {
    if jid in c.byJid && c.byJid[jid] in c.requests
    then Put(c, c.byJid[jid], c.requests[c.byJid[jid]].(aliveAt := Some(now)))
    else c
  }

  function OnTickResponse(c: Collection, jobs: seq<JobId>, now: Time): Collection {
    if jobs == [] then c else Alive(OnTickResponse(c, jobs[..|jobs| - 1], now), jobs[|jobs| - 1], now)
  }

  // ---------------------------------------------------------------- index agreement

  // Each submitted request with a job out is what the index gives for that job; each entry of the
  // index is for a request that holds that job, or for one that ended with an error.
  ghost predicate Agreed(c: Collection) {
    && (forall id :: id in c.requests ==> Sound(c.requests[id]) && c.requests[id].state != New)
    && (forall id :: IsSubmitted(c, id) && c.requests[id].jid.Some? ==>
          c.requests[id].jid.value in c.byJid && c.byJid[c.requests[id].jid.value] == id)
    && (forall j :: j in c.byJid ==>
          && j.serial < c.nextSerial
          && c.byJid[j] in c.requests
          && Entry(c.requests[c.byJid[j]], j))
  }

  predicate Entry(r: Request, j: JobId) {
    r.jid == Some(j) || (r.state == Complete && r.error)
  }

  // No entry is stale.
  ghost predicate Exact(c: Collection) {
    forall j :: j in c.byJid ==> c.byJid[j] in c.requests && c.requests[c.byJid[j]].jid == Some(j)
  }

  // A change that either keeps the request's job, ends the request, or gives it the next job.
  predicate SoundChange(c: Collection, id: RequestId, r: Request)
    requires id in c.requests
  {
    && Sound(r) && r.state != New
    && |r.jobs| >= |c.requests[id].jobs|
    && (r.jid.Some? ==> r.jid == c.requests[id].jid || r.jid == Some(JobId(c.nextSerial)))
    && (r.jid == Some(JobId(c.nextSerial)) ==> |r.jobs| > |c.requests[id].jobs|)
  }

  lemma UpdateAgrees(c: Collection, id: RequestId, r: Request)
    requires Agreed(c) && IsSubmitted(c, id) && SoundChange(c, id, r)
    ensures Agreed(Update(c, id, r))
    ensures Exact(c) ==> Exact(Update(c, id, r))
  {
    var c', before := Update(c, id, r), c.requests[id].jid;
    forall j | j in c'.byJid
      ensures j.serial < c'.nextSerial && c'.byJid[j] in c'.requests && Entry(c'.requests[c'.byJid[j]], j)
      ensures Exact(c) ==> c'.requests[c'.byJid[j]].jid == Some(j)
    {
    }
  }

  lemma FailAgrees(c: Collection, id: RequestId)
    requires Agreed(c) && IsSubmitted(c, id)
    ensures Agreed(Fail(c, id))
    ensures Exact(c) ==> Exact(Fail(c, id))
    ensures Fail(c, id).requests == c.requests[id := Abandon(c.requests[id]).r]
    ensures !IsSubmitted(Fail(c, id), id) && Fail(c, id).requests[id].error
    ensures Fail(c, id).nextSerial == c.nextSerial
  {
    AbandonIsSound(c.requests[id]);
    UpdateAgrees(c, id, Abandon(c.requests[id]).r);
  }

  // An exception ends a request without touching the index, which leaves at most a stale entry.
  lemma PutAbandonedAgrees(c: Collection, id: RequestId, r: Request)
    requires Agreed(c) && IsSubmitted(c, id)
    requires WellFormed(r) && r.state == Submitted
    ensures Agreed(Put(c, id, Abandon(r).r))
    ensures Exact(c) ==> (Exact(Put(c, id, Abandon(r).r)) <==> c.requests[id].jid.None?)
  {
    AbandonIsSound(r);
    if c.requests[id].jid.Some? {
      assert c.requests[id].jid.value in c.byJid;
    }
  }

  lemma SubmitAgrees(c: Collection, id: RequestId, plan: Plan, minion: Minion, accepts: bool, now: Time)
    requires Agreed(c) && id !in c.requests && Creatable(plan)
    ensures Agreed(Submit(c, id, plan, minion, accepts, now).c)
    ensures Exact(c) ==> Exact(Submit(c, id, plan, minion, accepts, now).c)
  {
    if accepts {
      SubmitIsSound(plan, minion, Offer(c, accepts), now);
    }
  }

  lemma SubmitEffect(c: Collection, id: RequestId, plan: Plan, minion: Minion, accepts: bool, now: Time)
    ensures var o := Requests.Submit(NewRequest(plan), minion, Offer(c, accepts), now);
            var e := Submit(c, id, plan, minion, accepts, now);
            && o.raised == e.raised == !accepts
            && (accepts ==>
                  && o.r.jid == Some(JobId(c.nextSerial)) && |o.r.jobs| == 1
                  && e.c.requests == c.requests[id := o.r]
                  && e.c.byJid == c.byJid[JobId(c.nextSerial) := id]
                  && e.c.nextSerial == c.nextSerial + 1)
            && (!accepts ==> e.c == c)
  {
  }

  lemma OnMapOneAgrees(c: Collection, id: RequestId, t: SyncType, o: SyncObject, accepts: bool, now: Time)
    requires Agreed(c) && IsSubmitted(c, id)
    ensures Agreed(OnMapOne(c, id, t, o, accepts, now))
    ensures Exact(c) ==> Exact(OnMapOne(c, id, t, o, accepts, now))
  {
    var r := c.requests[id];
    if t in AwaitingVersions(r) {
      OnMapIsSound(r, t, o, Offer(c, accepts), now);
      var out := OnMap(r, t, o, Offer(c, accepts), now);
      if out.raised {
        PutAbandonedAgrees(c, id, out.r);
      } else {
        UpdateAgrees(c, id, out.r);
      }
    }
  }

  // ---------------------------------------------------------------- whole entry points

  // An order in which a dictionary or set may be walked: each element once.
  ghost predicate Enumerates(order: seq<RequestId>, ids: set<RequestId>) {
    && (forall id :: id in order <==> id in ids)
    && (forall i, k :: 0 <= i < k < |order| ==> order[i] != order[k])
  }

  // Some order in which to walk a set.
  ghost function Ordering(ids: set<RequestId>): (order: seq<RequestId>)
    ensures Enumerates(order, ids)
  {
    if ids == {} then []
    else
      var id :| id in ids;
      var prior := ids - {id};
      Ordering(prior) + [id]
  }

  // The ids before the last one of an order.
  lemma EnumeratesPrefix(order: seq<RequestId>, ids: set<RequestId>) returns (prior: set<RequestId>)
    requires Enumerates(order, ids) && order != []
    ensures var init, last := order[..|order| - 1], order[|order| - 1];
            && Grows(prior, last, ids)
            && last !in init && Enumerates(init, prior)
  {
    var init, last := order[..|order| - 1], order[|order| - 1];
    assert order == init + [last];
    prior := ids - {last};
  }

  // `ids` is `prior` and one id more.
  ghost predicate Grows(prior: set<RequestId>, id: RequestId, ids: set<RequestId>) {
    && id !in prior
    && forall i :: i in ids <==> i in prior || i == id
  }

  lemma {:induction false} FailAllAgrees(c: Collection, order: seq<RequestId>, ids: set<RequestId>)
    requires Agreed(c) && Enumerates(order, ids) && forall id :: id in ids ==> IsSubmitted(c, id)
    ensures var c' := FailAll(c, order);
            && Agreed(c') && (Exact(c) ==> Exact(c'))
            && c'.requests.Keys == c.requests.Keys
            && c'.nextSerial == c.nextSerial
            && (forall id :: id in c.requests ==>
                  c'.requests[id] == if id in ids then Abandon(c.requests[id]).r else c.requests[id])
  {
    if order != [] {
      var init, last := order[..|order| - 1], order[|order| - 1];
      var prior := EnumeratesPrefix(order, ids);
      FailAllAgrees(c, init, prior);
      FailAgrees(FailAll(c, init), last);
    }
  }

  // How one request is left by a map: untouched, or as its own code and the exception handler leave it.
  ghost predicate Handled(r: Request, r': Request, t: SyncType, o: SyncObject, now: Time) {
    if t in AwaitingVersions(r)
    then WellFormed(r) && exists offer :: r' == Settle(OnMap(r, t, o, offer, now)).r
    else r' == r
  }

  // The requests of `ids` have handled a map, the others are as they were.
  ghost predicate Delivered(c: Collection, c': Collection, ids: set<RequestId>, t: SyncType, o: SyncObject, now: Time) {
    && c'.requests.Keys == c.requests.Keys
    && (forall id :: id in c.requests && id !in ids ==> c'.requests[id] == c.requests[id])
    && (forall id :: id in ids && id in c.requests ==> Handled(c.requests[id], c'.requests[id], t, o, now))
  }

  lemma DeliveredOneMore(c: Collection, c1: Collection, c2: Collection, prior: set<RequestId>, last: RequestId,
                         ids: set<RequestId>, t: SyncType, o: SyncObject, now: Time)
    requires Grows(prior, last, ids) && last in c.requests && Delivered(c, c1, prior, t, o, now)
    requires c2.requests.Keys == c1.requests.Keys
    requires forall id :: id in c1.requests && id != last ==> c2.requests[id] == c1.requests[id]
    requires Handled(c1.requests[last], c2.requests[last], t, o, now)
    ensures Delivered(c, c2, ids, t, o, now)
  {
    forall id | id in ids && id in c.requests
      ensures Handled(c.requests[id], c2.requests[id], t, o, now)
    {
    }
  }

  lemma {:induction false} OnMapAllAgrees(c: Collection, order: seq<RequestId>, ids: set<RequestId>,
                                          t: SyncType, o: SyncObject, refused: set<RequestId>, now: Time)
    requires Agreed(c) && Enumerates(order, ids) && forall id :: id in ids ==> IsSubmitted(c, id)
    ensures Agreed(OnMapAll(c, order, t, o, refused, now))
    ensures Exact(c) ==> Exact(OnMapAll(c, order, t, o, refused, now))
    ensures Delivered(c, OnMapAll(c, order, t, o, refused, now), ids, t, o, now)
  {
    if order != [] {
      var init, last := order[..|order| - 1], order[|order| - 1];
      var prior := EnumeratesPrefix(order, ids);
      OnMapAllAgrees(c, init, prior, t, o, refused, now);
      var c1 := OnMapAll(c, init, t, o, refused, now);
      assert c1.requests[last] == c.requests[last];
      OnMapOneAgrees(c1, last, t, o, Accepts(refused, last), now);
      OnMapOneHandles(c1, last, t, o, Accepts(refused, last), now);
      DeliveredOneMore(c, c1, OnMapOne(c1, last, t, o, Accepts(refused, last), now), prior, last, ids, t, o, now);
    }
  }

  lemma OnMapOneHandles(c: Collection, id: RequestId, t: SyncType, o: SyncObject, accepts: bool, now: Time)
    requires AllWellFormed(c) && id in c.requests
    ensures var c' := OnMapOne(c, id, t, o, accepts, now);
            && c'.requests.Keys == c.requests.Keys
            && (forall other :: other in c.requests && other != id ==> c'.requests[other] == c.requests[other])
            && Handled(c.requests[id], c'.requests[id], t, o, now)
  {
    var r := c.requests[id];
    if t in AwaitingVersions(r) {
      var out := OnMap(r, t, o, Offer(c, accepts), now);
      assert OnMapOne(c, id, t, o, accepts, now).requests[id] == Settle(out).r;
    }
  }

  // The job of a growth ended, and the OSD map that it made is stored already, but lacks the pool.
  predicate PoolIsGone(r: Request, osdMap: SyncObject, version: nat) {
    && r.plan.PgCreating? && version != 0 && AtMost(Some(version), osdMap.version)
    && r.plan.poolId !in Pools(osdMap)
  }

  // That is exactly when the end of a job makes the request's code raise.
  lemma CompleteRaises(r: Request, m: Mirror, minion: Minion, version: nat, offer: Option<JobId>, now: Time)
    requires Sound(r) && r.state == Submitted && r.jid.Some?
    ensures CompleteSuccess(r, m, minion, version, offer, now).raised <==> PoolIsGone(r, m.stored, version)
  {
    CompleteJidIsSound(r, version);
  }

  // Some entry of the index outlives its request after this completion: an error reported by the
  // mon commands leaves it behind, or the loss of the pool that a growth is about.
  ghost predicate LeavesStaleEntry(c: Collection, m: Mirror, jid: JobId, reply: Reply) {
    && jid in c.byJid && IsSubmitted(c, c.byJid[jid])
    && !c.requests[c.byJid[jid]].plan.SaltCall?
    && match reply
       case SaltFailure => false
       case RadosError => true
       case Success(version) => PoolIsGone(c.requests[c.byJid[jid]], m.stored, version)
  }

  lemma CompleteSuccessAgrees(c: Collection, m: Mirror, id: RequestId, minion: Minion, version: nat, accepts: bool,
                              now: Time)
    requires Agreed(c) && IsSubmitted(c, id) && c.requests[id].jid.Some?
    ensures var p := CompleteSuccess(c.requests[id], m, minion, version, Offer(c, accepts), now);
            if PoolIsGone(c.requests[id], m.stored, version)
            then p.raised && Agreed(Put(c, id, p.r)) && !Exact(Put(c, id, p.r))
            else !p.raised && Agreed(Update(c, id, p.r)) && (Exact(c) ==> Exact(Update(c, id, p.r)))
  {
    var r := c.requests[id];
    CompleteJidIsSound(r, version);
    CompleteRaises(r, m, minion, version, Offer(c, accepts), now);
    var done := CompleteJid(r, version).r;
    var m1 := NotifyAwaited(done, m, minion, now);
    if HasAwaited(done, m1) {
      OnMapIsSound(done, OsdMap, m1.stored, Offer(c, accepts), now);
      var out := OnMap(done, OsdMap, m1.stored, Offer(c, accepts), now);
      if out.raised {
        PutAbandonedAgrees(c, id, out.r);
        AbandonIsSound(out.r);
        assert r.jid.value in c.byJid;
      } else {
        UpdateAgrees(c, id, out.r);
      }
    } else {
      UpdateAgrees(c, id, done);
    }
  }

  lemma OnRadosAgrees(c: Collection, m: Mirror, id: RequestId, minion: Minion, reply: Reply, accepts: bool, now: Time)
    requires Agreed(c) && IsSubmitted(c, id) && c.requests[id].jid.Some? && !reply.SaltFailure?
    ensures var c' := OnRados(c, m, id, minion, reply, accepts, now).c;
            && Agreed(c')
            && (Exact(c) ==>
                  (Exact(c') <==> reply.Success? && !PoolIsGone(c.requests[id], m.stored, reply.version)))
  {
    match reply
    case RadosError => PutAbandonedAgrees(c, id, c.requests[id]);
    case Success(version) => CompleteSuccessAgrees(c, m, id, minion, version, accepts, now);
  }

  lemma OnCompletionAgrees(c: Collection, m: Mirror, jid: JobId, minion: Minion, reply: Reply, accepts: bool, now: Time)
    requires Agreed(c)
    ensures Agreed(OnCompletion(c, m, jid, minion, reply, accepts, now).c)
    ensures Exact(c) ==>
              (Exact(OnCompletion(c, m, jid, minion, reply, accepts, now).c)
               <==> !LeavesStaleEntry(c, m, jid, reply))
    ensures OnCompletion(c, m, jid, minion, reply, accepts, now).raised
       <==> jid in c.byJid && c.requests[c.byJid[jid]].state == Complete
            && (reply.SaltFailure? || c.requests[c.byJid[jid]].plan.SaltCall?)
  {
    if jid in c.byJid {
      var id := c.byJid[jid];
      var r, c' := c.requests[id], OnCompletion(c, m, jid, minion, reply, accepts, now).c;
      assert AllWellFormed(c) && Entry(r, jid);
      if r.state == Complete {
        assert Abandon(r) == Outcome(r, true);
        assert Put(c, id, r) == c;
        assert c' == c;
      } else if reply.SaltFailure? {
        FailAgrees(c, id);
        assert c' == Fail(c, id);
      } else if r.plan.SaltCall? {
        CompleteJidIsSound(r, 0);
        UpdateAgrees(c, id, CompleteJid(r, 0).r);
        assert c' == Update(c, id, CompleteJid(r, 0).r);
      } else {
        OnRadosAgrees(c, m, id, minion, reply, accepts, now);
        assert c' == OnRados(c, m, id, minion, reply, accepts, now).c;
      }
    }
  }

  // A complete request that is still in the index ended with an error.
  ghost predicate Endable(c: Collection, ids: set<RequestId>) {
    forall id :: id in ids ==> id in c.requests && (c.requests[id].state == Complete ==> c.requests[id].error)
  }

  lemma OverdueAreEndable(c: Collection, now: Time)
    requires Agreed(c)
    ensures Endable(c, OverdueIds(c, now))
  {
    forall id | id in OverdueIds(c, now)
      ensures id in c.requests && (c.requests[id].state == Complete ==> c.requests[id].error)
    {
      var j :| j in c.byJid && c.byJid[j] == id;
      assert Entry(c.requests[id], j) && Sound(c.requests[id]);
    }
  }

  lemma EndOneAgrees(c: Collection, id: RequestId)
    requires Agreed(c) && id in c.requests && (c.requests[id].state == Complete ==> c.requests[id].error)
    ensures var e, r := EndOne(c, id), c.requests[id];
            && Agreed(e.c) && (Exact(c) ==> Exact(e.c))
            && (e.raised <==> r.state == Complete)
            && (e.raised ==> e.c == c)
            && (!e.raised ==> e.c.requests == c.requests[id := Abandon(r).r] && Abandon(r).r.state == Complete)
  {
    if c.requests[id].state == Complete {
      assert Sound(c.requests[id]);
      assert Abandon(c.requests[id]) == Outcome(c.requests[id], true);
      assert Put(c, id, c.requests[id]) == c;
    } else {
      FailAgrees(c, id);
    }
  }

  // What is left after some overdue requests were ended: the first complete one stops the walk.
  ghost predicate Ticked(c: Collection, e: Effect, ids: set<RequestId>) {
    && e.c.requests.Keys == c.requests.Keys
    && (forall id :: id in c.requests && id !in ids ==> e.c.requests[id] == c.requests[id])
    && (forall id :: id in c.requests && id in ids ==>
          && (e.c.requests[id] == c.requests[id] || EndedIn(c, e.c, id))
          && (!e.raised ==> EndedIn(c, e.c, id)))
  }

  ghost predicate EndedIn(c: Collection, c': Collection, id: RequestId)
    requires id in c.requests && id in c'.requests
  {
    c.requests[id].state == Submitted && c'.requests[id] == Abandon(c.requests[id]).r
  }

  lemma TickedOneMore(c: Collection, e: Effect, c2: Collection, prior: set<RequestId>, last: RequestId,
                      ids: set<RequestId>)
    requires !e.raised && Grows(prior, last, ids) && last in c.requests && Ticked(c, e, prior)
    requires c.requests[last].state == Submitted
    requires c2.requests == e.c.requests[last := Abandon(e.c.requests[last]).r]
    ensures Ticked(c, Effect(c2, false), ids)
  {
  }

  // A tick raises exactly when it walks onto a stale entry, whose request is overdue but complete.
  lemma {:induction false} TickAgrees(c: Collection, order: seq<RequestId>, ids: set<RequestId>)
    requires Agreed(c) && Enumerates(order, ids)
    requires Endable(c, ids)
    ensures Agreed(Tick(c, order).c) && (Exact(c) ==> Exact(Tick(c, order).c))
    ensures Ticked(c, Tick(c, order), ids)
    ensures Tick(c, order).raised <==> exists id :: id in ids && c.requests[id].state == Complete
  {
    if order != [] {
      var init, last := order[..|order| - 1], order[|order| - 1];
      var prior := EnumeratesPrefix(order, ids);
      TickAgrees(c, init, prior);
      var e := Tick(c, init);
      assert e.c.requests[last] == c.requests[last];
      if !e.raised {
        EndOneAgrees(e.c, last);
        if !EndOne(e.c, last).raised {
          TickedOneMore(c, e, EndOne(e.c, last).c, prior, last, ids);
        }
      }
    }
  }

  lemma AliveAgrees(c: Collection, jid: JobId, now: Time)
    requires Agreed(c) && jid in c.byJid
    ensures var id := c.byJid[jid];
            var c' := Put(c, id, c.requests[id].(aliveAt := Some(now)));
            Agreed(c') && (Exact(c) ==> Exact(c'))
  {
  }

  // Only the time at which a request was last known to run changes, and not that of a success.
  predicate JustSeen(r: Request, r': Request) {
    && (r.state == Submitted || (r.state == Complete && r.error))
    && r'.aliveAt.Some? && r' == r.(aliveAt := r'.aliveAt)
  }

  ghost predicate Refreshed(c: Collection, c': Collection) {
    && c'.requests.Keys == c.requests.Keys
    && (forall id :: id in c.requests ==>
          c'.requests[id] == c.requests[id] || JustSeen(c.requests[id], c'.requests[id]))
  }

  lemma RefreshedOneMore(c: Collection, c1: Collection, id: RequestId, now: Time)
    requires Refreshed(c, c1) && id in c1.requests
    requires c1.requests[id].state == Submitted || (c1.requests[id].state == Complete && c1.requests[id].error)
    ensures Refreshed(c, Put(c1, id, c1.requests[id].(aliveAt := Some(now))))
  {
    var c2 := Put(c1, id, c1.requests[id].(aliveAt := Some(now)));
    assert JustSeen(c.requests[id], c2.requests[id]);
    forall other | other in c.requests && other != id
      ensures c2.requests[other] == c.requests[other] || JustSeen(c.requests[other], c2.requests[other])
    {
      assert c2.requests[other] == c1.requests[other];
    }
  }

  lemma {:induction false} OnTickResponseAgrees(c: Collection, jobs: seq<JobId>, now: Time)
    requires Agreed(c)
    ensures Agreed(OnTickResponse(c, jobs, now))
    ensures Exact(c) ==> Exact(OnTickResponse(c, jobs, now))
    ensures Refreshed(c, OnTickResponse(c, jobs, now))
  {
    if jobs != [] {
      var init, jid := jobs[..|jobs| - 1], jobs[|jobs| - 1];
      OnTickResponseAgrees(c, init, now);
      var c1 := OnTickResponse(c, init, now);
      if jid in c1.byJid {
        AliveAgrees(c1, jid, now);
        assert Entry(c1.requests[c1.byJid[jid]], jid);
        assert Sound(c1.requests[c1.byJid[jid]]);
        RefreshedOneMore(c, c1, c1.byJid[jid], now);
      }
    }
  }

  // ---------------------------------------------------------------- one more turn of each loop

  lemma EnumeratesOneMore(order: seq<RequestId>, prior: set<RequestId>, id: RequestId, ids: set<RequestId>)
    requires Enumerates(order, prior) && Grows(prior, id, ids)
    ensures Enumerates(order + [id], ids)
    ensures (order + [id])[..|order|] == order
  {
  }

  // The job that a submitted request has out is in the index, so that it can be taken out of it.
  predicate JobIndexed(c: Collection, id: RequestId) {
    id in c.requests && (c.requests[id].jid.Some? ==> c.requests[id].jid.value in c.byJid)
  }

  lemma EntryIsIndexed(c: Collection, jid: JobId)
    requires Agreed(c) && jid in c.byJid
    ensures AllWellFormed(c) && JobIndexed(c, c.byJid[jid])
    ensures IsSubmitted(c, c.byJid[jid]) ==> c.requests[c.byJid[jid]].jid == Some(jid)
  {
  }

  lemma FailAllOneMore(c: Collection, order: seq<RequestId>, prior: set<RequestId>, id: RequestId, ids: set<RequestId>)
    requires Agreed(c) && Enumerates(order, prior) && Grows(prior, id, ids)
    requires forall i :: i in ids ==> IsSubmitted(c, i)
    ensures Enumerates(order + [id], ids)
    ensures IsSubmitted(FailAll(c, order), id) && JobIndexed(FailAll(c, order), id)
    ensures FailAll(c, order + [id]) == Fail(FailAll(c, order), id)
  {
    EnumeratesOneMore(order, prior, id, ids);
    FailAllAgrees(c, order, prior);
  }

  lemma TickOneMore(c: Collection, order: seq<RequestId>, prior: set<RequestId>, id: RequestId, ids: set<RequestId>)
    requires Agreed(c) && Enumerates(order, prior) && Grows(prior, id, ids)
    requires Endable(c, ids) && !Tick(c, order).raised
    ensures var c1 := Tick(c, order).c;
            && Enumerates(order + [id], ids)
            && JobIndexed(c1, id)
            && Tick(c, order + [id]) == EndOne(c1, id)
  {
    EnumeratesOneMore(order, prior, id, ids);
    TickAgrees(c, order, prior);
    assert Tick(c, order).c.requests[id] == c.requests[id];
  }

  lemma OnTickResponseOneMore(c: Collection, jobs: seq<JobId>, i: nat, now: Time)
    requires Agreed(c) && i < |jobs|
    ensures OnTickResponse(c, jobs[..i + 1], now) == Alive(OnTickResponse(c, jobs[..i], now), jobs[i], now)
  {
    assert jobs[..i + 1][..i] == jobs[..i];
  }

  lemma OnMapAllOneMore(c: Collection, order: seq<RequestId>, prior: set<RequestId>, id: RequestId, ids: set<RequestId>,
                        t: SyncType, o: SyncObject, refused: set<RequestId>, now: Time)
    requires Agreed(c) && Enumerates(order, prior) && Grows(prior, id, ids)
    requires forall i :: i in ids ==> IsSubmitted(c, i)
    ensures var c1 := OnMapAll(c, order, t, o, refused, now);
            && Enumerates(order + [id], ids)
            && AllWellFormed(c1) && IsSubmitted(c1, id) && JobIndexed(c1, id)
            && OnMapAll(c, order + [id], t, o, refused, now) == OnMapOne(c1, id, t, o, Accepts(refused, id), now)
  {
    EnumeratesOneMore(order, prior, id, ids);
    OnMapAllAgrees(c, order, prior, t, o, refused, now);
    assert OnMapAll(c, order, t, o, refused, now).requests[id] == c.requests[id];
  }

  // What a request's code leaves, from the parts of the collection that it changes; an exception
  // skips the update of the index.
  lemma ChangeIs(c: Collection, id: RequestId, r: Request, raised: bool, c': Collection)
    requires id in c.requests && |c.requests[id].jobs| <= |r.jobs|
    requires c'.requests == c.requests[id := r]
    requires c'.byJid == if raised then c.byJid else Reindex(c.byJid, id, c.requests[id].jid, r.jid)
    requires c'.nextSerial == c.nextSerial + |r.jobs| - |c.requests[id].jobs|
    requires raised ==> |r.jobs| == |c.requests[id].jobs|
    ensures c' == if raised then Put(c, id, r) else Update(c, id, r)
  {
  }

  lemma SubmitIs(c: Collection, id: RequestId, plan: Plan, minion: Minion, accepts: bool, now: Time, r: Request,
                 c': Collection)
    requires r == Requests.Submit(NewRequest(plan), minion, Offer(c, accepts), now).r
    requires accepts ==> c'.requests == c.requests[id := r] && r.jid.Some? && c'.byJid == c.byJid[r.jid.value := id]
    requires !accepts ==> c'.requests == c.requests && c'.byJid == c.byJid
    requires c'.nextSerial == c.nextSerial + |r.jobs|
    ensures Submit(c, id, plan, minion, accepts, now) == Effect(c', !accepts)
  {
  }

  lemma OnMapOneIs(c: Collection, id: RequestId, t: SyncType, o: SyncObject, accepts: bool, now: Time,
                   out: Outcome, c': Collection)
    requires AllWellFormed(c) && IsSubmitted(c, id) && t in AwaitingVersions(c.requests[id])
    requires out == OnMap(c.requests[id], t, o, Offer(c, accepts), now)
    requires c'.requests == c.requests[id := Settle(out).r]
    requires c'.byJid == if out.raised then c.byJid else Reindex(c.byJid, id, c.requests[id].jid, Settle(out).r.jid)
    requires c'.nextSerial == c.nextSerial + |Settle(out).r.jobs| - |c.requests[id].jobs|
    ensures c' == OnMapOne(c, id, t, o, accepts, now)
  {
    RaisedIsSubmitted(c.requests[id], t, o, Offer(c, accepts), now);
    ChangeIs(c, id, Settle(out).r, out.raised, c');
  }

  lemma OnRadosSuccessIs(c: Collection, m: Mirror, id: RequestId, minion: Minion, version: nat, accepts: bool,
                         now: Time,
                         p: Progressed, c': Collection)
    requires AllWellFormed(c) && IsSubmitted(c, id)
    requires p == CompleteSuccess(c.requests[id], m, minion, version, Offer(c, accepts), now)
    requires c'.requests == c.requests[id := p.r]
    requires c'.byJid == if p.raised then c.byJid else Reindex(c.byJid, id, c.requests[id].jid, p.r.jid)
    requires c'.nextSerial == c.nextSerial + |p.r.jobs| - |c.requests[id].jobs|
    ensures OnRados(c, m, id, minion, Success(version), accepts, now) == Completion(c', p.osdMap, false)
  {
    ChangeIs(c, id, p.r, p.raised, c');
  }

  // One id fewer left over is one id more dealt with.
  lemma TakeOut(all: set<RequestId>, rest: set<RequestId>, done: set<RequestId>, id: RequestId)
    returns (left: set<RequestId>, more: set<RequestId>)
    requires rest <= all && id in rest && done == all - rest
    ensures left == rest - {id} && left <= all && |left| < |rest|
    ensures more == all - left && Grows(done, id, more)
  {
    left := rest - {id};
    more := all - left;
  }
}
