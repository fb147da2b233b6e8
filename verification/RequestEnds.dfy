// How a request goes on and how it ends: exactly which maps and which results of its jobs make it
// succeed, fail, move on or send its next job.
module RequestEnds {
  import opened Wrappers
  import opened PgDigest
  import opened SyncTypes
  import opened Requests
  import opened RequestRuns

  // ---------------------------------------------------------------- what a map shows a request

  // The map has at least the version that the request awaits. Version 0 is awaited by nobody.
  predicate Reached(r: Request, o: SyncObject) {
    r.awaitVersion.Some? && o.version.Some? && 0 < r.awaitVersion.value <= o.version.value
  }

  predicate HasPoolId(o: SyncObject, pool: PoolId) {
    o.data.OsdData? && pool in o.data.pools
  }

  ghost predicate HasName(o: SyncObject, name: string) {
    exists id :: HasPoolId(o, id) && o.data.pools[id].name == name
  }

  predicate HasTally(o: SyncObject, pool: PoolId) {
    o.data.PgData? && pool in o.data.byPool
  }

  // The pool that grows has as many PGs as the growth has asked for so far.
  predicate AtGoal(r: Request, o: SyncObject) {
    && r.plan.PgCreating? && r.progress.Some?
    && HasPoolId(o, r.plan.poolId) && o.data.pools[r.plan.poolId].pgNum == r.progress.value.goal
  }

  // So many of the pool's PGs, or more, are out of 'creating'.
  ghost predicate Created(o: SyncObject, pool: PoolId, count: int) {
    HasTally(o, pool) && NotCreating(o.data.byPool[pool]) >= count
  }

  // The map makes a request fail: the pool that it is about is not there, or has another PG count,
  // or Salt refuses the next job.
  ghost predicate FailsOn(r: Request, t: SyncType, o: SyncObject, refused: bool) {
    match r.plan
    case SaltCall(_) => false
    case RadosCall(_) => false
    case OsdMapModifying(_) => false
    case PoolCreating(_, name) =>
      if r.awaitingPgs then t == PgSummary && r.newPoolId.Some? && !HasTally(o, r.newPoolId.value)
      else t == OsdMap && Reached(r, o) && !HasName(o, name)
    case PgCreating(_, poolId, _, _, _, _, _) =>
      match r.phase
      case JidWait => false
      case OsdMapWait => t == OsdMap && (!AtGoal(r, o) || r.awaitVersion == Some(0))
      case PgMapWait =>
        || (t == OsdMap && !AtGoal(r, o))
        || (t == PgSummary && (!HasTally(o, poolId) || (SendsOn(r, t, o) && refused)))
  }

  // The map makes a request succeed.
  ghost predicate SucceedsOn(r: Request, t: SyncType, o: SyncObject) {
    match r.plan
    case SaltCall(_) => false
    case RadosCall(_) => false
    case OsdMapModifying(_) => t == OsdMap && Reached(r, o)
    case PoolCreating(_, _) =>
      r.awaitingPgs && t == PgSummary && r.newPoolId.Some? && Created(o, r.newPoolId.value, r.pgCount)
    case PgCreating(_, _, _, _, _, _, _) =>
      r.phase == OsdMapWait && t == OsdMap && AtGoal(r, o) && Reached(r, o) && r.progress.value.stillToCreate == 0
  }

  // The map lets a growth send its next job: the PGs asked for so far are there.
  ghost predicate SendsOn(r: Request, t: SyncType, o: SyncObject) {
    && r.plan.PgCreating? && r.progress.Some? && r.phase == PgMapWait
    && t == PgSummary && Created(o, r.plan.poolId, r.progress.value.goal)
  }

  // One block more, but no more than there are to be.
  function NextGoal(r: Request): int
    requires r.plan.PgCreating? && r.progress.Some?
  {
    var goal, next := r.progress.value.goal, r.progress.value.goal + r.plan.blockSize;
    if goal == r.plan.final || r.plan.final < next then r.plan.final else next
  }

  // The next tranche, or pgp_num after the last.
  function NextJob(r: Request): seq<Command>
    requires r.plan.PgCreating? && r.progress.Some?
  {
    if r.progress.value.goal == r.plan.final then [SetPgpNum(r.plan.growName, r.plan.pgpNum)]
    else [SetPgNum(r.plan.growName, NextGoal(r))]
  }

  // ---------------------------------------------------------------- a map

  // What a map is to do to a request: end it, let it send a job, or neither.
  ghost predicate Answered(r: Request, t: SyncType, o: SyncObject, offer: Option<JobId>, now: Time, r': Request) {
    && (r'.state == Complete && r'.error <==> FailsOn(r, t, o, offer.None?))
    && (r'.state == Complete && !r'.error <==> SucceedsOn(r, t, o))
    && if SendsOn(r, t, o) && offer.Some? then
         && r'.jobs == r.jobs + [NextJob(r)] && r'.jid == offer && r'.aliveAt == Some(now)
         && r'.state == Submitted && r'.phase == JidWait
       else r'.jobs == r.jobs && r'.aliveAt == r.aliveAt && r'.jid == (if r'.state == Complete then None else r.jid)
  }

  lemma PoolAnswered(r: Request, t: SyncType, o: SyncObject, offer: Option<JobId>, now: Time)
    requires Sound(r) && r.state == Submitted && r.plan.PoolCreating?
    ensures Answered(r, t, o, offer, now, Step(r, MapArrives(t, o, offer, now)))
  {
    hide NotCreating;
  }

  lemma SummaryAnswered(r: Request, o: SyncObject, offer: Option<JobId>, now: Time)
    requires Sound(r) && r.state == Submitted && r.plan.PgCreating? && r.phase == PgMapWait
    ensures Answered(r, PgSummary, o, offer, now, Step(r, MapArrives(PgSummary, o, offer, now)))
  {
    hide NotCreating;
  }

  lemma OsdMapAnswered(r: Request, o: SyncObject, offer: Option<JobId>, now: Time)
    requires Sound(r) && r.state == Submitted && r.plan.PgCreating? && r.phase == OsdMapWait
    ensures Answered(r, OsdMap, o, offer, now, Step(r, MapArrives(OsdMap, o, offer, now)))
  {
    hide NotCreating, OnPgSummaryGrowth, OnOtherMapGrowth;
    assert Step(r, MapArrives(OsdMap, o, offer, now)) == Settle(OnOsdMapGrowth(r, OsdMap, o)).r;
    hide OnMap;
  }

  lemma OtherMapAnswered(r: Request, o: SyncObject, offer: Option<JobId>, now: Time)
    requires Sound(r) && r.state == Submitted && r.plan.PgCreating? && r.phase == PgMapWait
    ensures Answered(r, OsdMap, o, offer, now, Step(r, MapArrives(OsdMap, o, offer, now)))
  {
    hide NotCreating, OnPgSummaryGrowth, OnOsdMapGrowth;
    assert Step(r, MapArrives(OsdMap, o, offer, now)) == Settle(OnOtherMapGrowth(r, OsdMap, o)).r;
    hide OnMap;
  }

  lemma Unanswered(r: Request, t: SyncType, o: SyncObject, offer: Option<JobId>, now: Time)
    requires Sound(r) && r.state == Submitted && t !in AwaitingVersions(r)
    ensures Answered(r, t, o, offer, now, Step(r, MapArrives(t, o, offer, now)))
  {
    hide NotCreating, OnMap;
  }

  // A map ends a request in error, or well, exactly if it makes it fail, or succeed; and the request
  // sends a job exactly if it is a growth whose PGs are there, and Salt takes the job.
  lemma MapAnswered(r: Request, t: SyncType, o: SyncObject, offer: Option<JobId>, now: Time)
    requires Sound(r) && r.state == Submitted
    ensures Answered(r, t, o, offer, now, Step(r, MapArrives(t, o, offer, now)))
  {
    if t !in AwaitingVersions(r) {
      Unanswered(r, t, o, offer, now);
    } else if r.plan.PoolCreating? {
      PoolAnswered(r, t, o, offer, now);
    } else if r.plan.PgCreating? {
      hide Answered, Step;
      if t == PgSummary {
        SummaryAnswered(r, o, offer, now);
      } else if r.phase == OsdMapWait {
        OsdMapAnswered(r, o, offer, now);
      } else {
        OtherMapAnswered(r, o, offer, now);
      }
    }
  }

  // A growth waits for PGs from the OSD map on that its job made; it has its tally from the last
  // summary, and its goal from the last job.
  lemma GrowthMoves(r: Request, t: SyncType, o: SyncObject, offer: Option<JobId>, now: Time)
    requires Sound(r) && r.state == Submitted && r.plan.PgCreating?
    requires Step(r, MapArrives(t, o, offer, now)).state == Submitted
    ensures var r' := Step(r, MapArrives(t, o, offer, now));
            && (r.phase == OsdMapWait ==> r'.phase == if t == OsdMap && Reached(r, o) then PgMapWait else OsdMapWait)
            && (r.phase == JidWait ==> r' == r)
            && (r.phase == PgMapWait ==> r'.phase == if SendsOn(r, t, o) then JidWait else PgMapWait)
            && r'.progress.value.goal == (if SendsOn(r, t, o) then NextGoal(r) else r.progress.value.goal)
            && var n := if HasTally(o, r.plan.poolId) then NotCreating(o.data.byPool[r.plan.poolId]) else 0;
               r'.progress.value.stillToCreate
               == if r.phase == PgMapWait && t == PgSummary then (if n < r.plan.final then r.plan.final - n else 0)
                  else r.progress.value.stillToCreate
  {
    hide NotCreating;
  }

  // A new pool is found in an OSD map that is new enough, and with it the number of its PGs; before
  // that, and after, the request does not change.
  lemma PoolFound(r: Request, t: SyncType, o: SyncObject, offer: Option<JobId>, now: Time)
    requires Sound(r) && r.state == Submitted && r.plan.PoolCreating?
    requires Step(r, MapArrives(t, o, offer, now)).state == Submitted
    ensures var r' := Step(r, MapArrives(t, o, offer, now));
            if !r.awaitingPgs && t == OsdMap && Reached(r, o) then
              && r'.awaitingPgs && r'.newPoolId.Some? && HasPoolId(o, r'.newPoolId.value)
              && o.data.pools[r'.newPoolId.value] == Pool(r.plan.poolName, r'.pgCount)
            else r' == r
  {
    hide NotCreating;
  }

  // ---------------------------------------------------------------- the other events

  // The request once its job has ended with this version of the OSD map.
  function Ended(r: Request, version: nat): Request {
    var r1 := r.(jid := None, awaitVersion := Some(version));
    if r.plan.PgCreating? then r1.(phase := OsdMapWait) else r1
  }

  // The end of its job completes a plain job; the others await the version that it returned.
  lemma JobEnds(r: Request, version: nat)
    requires Sound(r) && r.state == Submitted && r.jid.Some?
    ensures Step(r, JobDone(version))
         == if r.plan.SaltCall? || r.plan.RadosCall? then r.(jid := None, state := Complete) else Ended(r, version)
  {
  }

  lemma EndedIsSound(r: Request, version: nat)
    requires Sound(r) && r.state == Submitted && r.jid.Some? && !r.plan.SaltCall? && !r.plan.RadosCall?
    ensures Sound(Ended(r, version)) && Ended(r, version).state == Submitted
  {
  }

  lemma InterruptionEnds(r: Request)
    requires Sound(r) && r.state == Submitted
    ensures Abandon(r) == Outcome(r.(jid := None, error := true, state := Complete), false)
    ensures Step(r, Interrupted) == r.(jid := None, error := true, state := Complete)
  {
  }

  // ---------------------------------------------------------------- the start

  // What a user has asked for.
  function Asked(plan: Plan): seq<Command> {
    match plan
    case SaltCall(call) => [call]
    case RadosCall(commands) => commands
    case OsdMapModifying(commands) => commands
    case PoolCreating(commands, _) => commands
    case PgCreating(pre, _, name, _, initial, final, blockSize) =>
      pre + [SetPgNum(name, if initial + blockSize < final then initial + blockSize else final)]
  }

  // A submitted request has been given to that mon with just these commands as its first job, unless
  // Salt refuses it.
  lemma Starts(plan: Plan, minion: Minion, offer: Option<JobId>, now: Time)
    ensures var o := Submit(NewRequest(plan), minion, offer, now);
            && (o.raised <==> offer.None?)
            && (!o.raised ==>
                  && o.r.plan == plan && o.r.state == Submitted && !o.r.error
                  && o.r.minion == Some(minion) && o.r.jid == offer && o.r.aliveAt == Some(now)
                  && o.r.jobs == [Asked(plan)]
                  && o.r.awaitVersion == None && !o.r.awaitingPgs && o.r.phase == JidWait
                  && (plan.PgCreating? ==>
                        && o.r.progress.Some?
                        && Asked(plan) == plan.preCommands + [SetPgNum(plan.growName, o.r.progress.value.goal)]
                        && o.r.progress.value.stillToCreate == plan.final - plan.initial))
  {
    assert [] + [Asked(plan)] == [Asked(plan)];
  }

  // However a run goes on, the job that it started with is the one that was asked for, and no job is
  // taken back.
  lemma {:induction false} FirstJobIsAsked(r0: Request, es: seq<Event>)
    requires Sound(r0) && |r0.jobs| > 0
    ensures r0.jobs <= Run(r0, es).jobs
  {
    if es != [] {
      var before, e := es[..|es| - 1], es[|es| - 1];
      FirstJobIsAsked(r0, before);
      hide Step, FailsOn, SucceedsOn, SendsOn, Sound;
      var r := Run(r0, before);
      if r.state == Submitted && e.MapArrives? {
        MapAnswered(r, e.t, e.o, e.offer, e.now);
        assert r.jobs <= Step(r, e).jobs;
      } else {
        OtherJobs(r, e);
      }
    }
  }

  lemma OtherJobs(r: Request, e: Event)
    requires Sound(r) && (r.state != Submitted || !e.MapArrives?)
    ensures Step(r, e).jobs == r.jobs
  {
    hide OnMap;
  }
}
