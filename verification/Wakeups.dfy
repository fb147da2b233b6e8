// How far each request has come, measured against the OSD map that Calamari has stored.
module Wakeups {
  import opened Wrappers
  import opened SyncTypes
  import opened SyncMirror
  import opened Requests
  import opened RequestIndex
  import opened CollectionRuns

  // Requests whose success means that the mirror shows their effect.
  predicate AwaitsItsMap(plan: Plan) {
    plan.OsdMapModifying? || plan.PoolCreating? || plan.PgCreating?
  }

  // The stored OSD map has what the request's last job made.
  predicate Visible(r: Request, osdMap: SyncObject) {
    Awaits(r.awaitVersion) && AtMost(r.awaitVersion, osdMap.version)
  }

  // The request waits for an OSD map that is stored already.
  predicate MissedWakeup(r: Request, osdMap: SyncObject) {
    && r.state == Submitted && OsdMap in AwaitingVersions(r)
    && Awaits(AwaitingVersions(r)[OsdMap])
    && AtMost(AwaitingVersions(r)[OsdMap], osdMap.version)
  }

  // While the PGs of a tranche are created, the stored OSD map shows the tranche's PG count.
  predicate ShowsGoal(r: Request, osdMap: SyncObject) {
    && r.progress.Some? && r.plan.PgCreating?
    && r.plan.poolId in Pools(osdMap)
    && Pools(osdMap)[r.plan.poolId].pgNum == r.progress.value.goal
  }

  // The request waits for the PGs of a tranche, while the stored OSD map shows another PG count.
  predicate GoalHidden(r: Request, osdMap: SyncObject) {
    r.state == Submitted && r.plan.PgCreating? && r.phase == PgMapWait && !ShowsGoal(r, osdMap)
  }

  // How a request can be behind the stored OSD map: it waits for a version that is there, or for the
  // PGs of the tranche of its last job, of which this is the number.
  datatype Lag = Wakeup | Tranche(jobs: nat)

  predicate Behind(r: Request, osdMap: SyncObject, lag: Lag) {
    match lag
    case Wakeup => MissedWakeup(r, osdMap)
    case Tranche(n) => GoalHidden(r, osdMap) && |r.jobs| == n
  }

  // The request is where it would be if it had been told of the stored OSD map.
  predicate Told(r: Request, osdMap: SyncObject) {
    !MissedWakeup(r, osdMap) && !GoalHidden(r, osdMap)
  }

  // What the request takes for done is so in the stored OSD map.
  predicate Grounded(r: Request, osdMap: SyncObject) {
    && (r.state == Complete && !r.error && AwaitsItsMap(r.plan) ==> Visible(r, osdMap))
    && (r.state == Submitted && r.plan.PoolCreating? && r.awaitingPgs ==> Visible(r, osdMap))
    && (r.state == Submitted && r.plan.PgCreating? && r.phase == PgMapWait ==> Visible(r, osdMap))
  }

  // While the stored OSD map is the same, a request is neither left behind nor brought up to date,
  // except by the end of a job or its own.
  predicate Carries(r: Request, r': Request, osdMap: SyncObject) {
    && (Grounded(r, osdMap) ==> Grounded(r', osdMap))
    && |r.jobs| <= |r'.jobs|
    && (r'.state == Submitted ==> r.state == Submitted && (MissedWakeup(r', osdMap) <==> MissedWakeup(r, osdMap)))
    && (GoalHidden(r', osdMap) ==> GoalHidden(r, osdMap) && |r'.jobs| == |r.jobs|)
    && (GoalHidden(r, osdMap) && r'.state == Submitted && |r'.jobs| == |r.jobs| ==> GoalHidden(r', osdMap))
  }

  lemma UndisturbedCarries(r: Request, r': Request, osdMap: SyncObject)
    requires Sound(r) && r.state != New && Undisturbed(r, r')
    ensures Carries(r, r', osdMap)
  {
  }

  // An OSD map that is at least as new as the one before, once handed over, leaves nothing to wake.
  lemma TakesOsdMap(r: Request, before: SyncObject, o: SyncObject, offer: Option<JobId>, now: Time)
    requires Sound(r) && r.state == Submitted && Grounded(r, before) && AtMost(before.version, o.version)
    requires OsdMap in AwaitingVersions(r)
    ensures var r' := Settle(OnMap(r, OsdMap, o, offer, now)).r; Told(r', o) && Grounded(r', o)
  {
    OnMapIsSound(r, OsdMap, o, offer, now);
    match r.plan
    case SaltCall(_) =>
    case RadosCall(_) =>
    case OsdMapModifying(_) =>
    case PoolCreating(_, _) => PoolTakesOsdMap(r, before, o);
    case PgCreating(_, _, _, _, _, _, _) =>
  }

  lemma PoolTakesOsdMap(r: Request, before: SyncObject, o: SyncObject)
    requires Sound(r) && r.state == Submitted && Grounded(r, before) && AtMost(before.version, o.version)
    requires r.plan.PoolCreating? && OsdMap in AwaitingVersions(r)
    ensures var r' := Settle(OnMapPool(r, OsdMap, o)).r; Told(r', o) && Grounded(r', o)
  {
  }

  lemma HandledOsdMap(r: Request, r': Request, before: SyncObject, o: SyncObject, now: Time)
    requires Sound(r) && r.state == Submitted && Grounded(r, before) && AtMost(before.version, o.version)
    requires Handled(r, r', OsdMap, o, now)
    ensures Told(r', o) && Grounded(r', o)
  {
    if OsdMap in AwaitingVersions(r) {
      var offer :| r' == Settle(OnMap(r, OsdMap, o, offer, now)).r;
      TakesOsdMap(r, before, o, offer, now);
    }
  }

  lemma HandledOther(r: Request, r': Request, t: SyncType, o: SyncObject, osdMap: SyncObject, now: Time)
    requires Sound(r) && r.state == Submitted
    requires t != OsdMap && Handled(r, r', t, o, now)
    ensures Carries(r, r', osdMap)
  {
    if t in AwaitingVersions(r) {
      var offer :| r' == Settle(OnMap(r, t, o, offer, now)).r;
      OnMapIsSound(r, t, o, offer, now);
      TakesOtherMap(r, t, o, osdMap, offer, now);
    }
  }

  lemma TakesOtherMap(r: Request, t: SyncType, o: SyncObject, osdMap: SyncObject, offer: Option<JobId>, now: Time)
    requires Sound(r) && r.state == Submitted
    requires t != OsdMap && t in AwaitingVersions(r)
    ensures Carries(r, Settle(OnMap(r, t, o, offer, now)).r, osdMap)
  {
    match r.plan
    case SaltCall(_) =>
    case RadosCall(_) =>
    case OsdMapModifying(_) =>
    case PoolCreating(_, _) => PoolTakesOtherMap(r, t, o, osdMap);
    case PgCreating(_, _, _, _, _, _, _) => GrowthTakesSummary(r, o, osdMap, offer, now);
  }

  lemma PoolTakesOtherMap(r: Request, t: SyncType, o: SyncObject, osdMap: SyncObject)
    requires Sound(r) && r.state == Submitted
    requires r.plan.PoolCreating? && t != OsdMap && t in AwaitingVersions(r)
    ensures Carries(r, Settle(OnMapPool(r, t, o)).r, osdMap)
  {
  }

  lemma GrowthTakesSummary(r: Request, o: SyncObject, osdMap: SyncObject, offer: Option<JobId>, now: Time)
    requires Sound(r) && r.state == Submitted
    requires r.plan.PgCreating? && r.phase == PgMapWait
    ensures Carries(r, Settle(OnPgSummaryGrowth(r, o, offer, now)).r, osdMap)
  {
  }

  lemma CompleteGrounded(r: Request, before: SyncObject, osdMap: SyncObject)
    requires r.state == Complete && Grounded(r, before) && AtMost(before.version, osdMap.version)
    ensures Grounded(r, osdMap) && Told(r, osdMap)
  {
  }

  // A newer OSD map that is stored, but not handed over, takes nothing back.
  lemma StaysGrounded(r: Request, before: SyncObject, osdMap: SyncObject)
    requires Grounded(r, before) && AtMost(before.version, osdMap.version)
    ensures Grounded(r, osdMap)
  {
  }

  // Whichever of the job's reply and its map comes first: the map is looked for at once.
  lemma SuccessServed(r: Request, m: Mirror, minion: Minion, version: nat, offer: Option<JobId>, now: Time)
    requires Sound(r) && r.state == Submitted && r.jid.Some?
    ensures var p := CompleteSuccess(r, m, minion, version, offer, now);
            Told(p.r, p.osdMap.stored) && Grounded(p.r, p.osdMap.stored)
  {
    CompleteJidIsSound(r, version);
    var done := CompleteJid(r, version).r;
    var m1 := NotifyAwaited(done, m, minion, now);
    if HasAwaited(done, m1) {
      DoneTakesOsdMap(r, version, m1.stored, offer, now);
    }
  }

  // The end of a job, too, leaves no request behind.
  lemma SuccessCarries(r: Request, m: Mirror, minion: Minion, version: nat, offer: Option<JobId>, now: Time)
    requires Sound(r) && r.state == Submitted && r.jid.Some?
    ensures var p := CompleteSuccess(r, m, minion, version, offer, now);
            p.osdMap.stored == m.stored && Carries(r, p.r, m.stored)
  {
    SuccessServed(r, m, minion, version, offer, now);
    SuccessDrifts(r, m, minion, version, offer, now);
  }

  lemma DoneTakesOsdMap(r: Request, version: nat, o: SyncObject, offer: Option<JobId>, now: Time)
    requires Sound(r) && r.state == Submitted && r.jid.Some?
    requires var done := CompleteJid(r, version).r;
             OsdMap in AwaitingVersions(done) && done.state == Submitted
    ensures var r' := Settle(OnMap(CompleteJid(r, version).r, OsdMap, o, offer, now)).r; Told(r', o) && Grounded(r', o)
  {
    CompleteJidIsSound(r, version);
    var done := CompleteJid(r, version).r;
    // Nothing is stored before the first map, so nothing has been missed.
    TakesOsdMap(done, SyncObject(None, NoData), o, offer, now);
  }
}
