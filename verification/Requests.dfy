// User requests: operations that run one or more remote jobs on a mon and are complete only
// when Calamari's own copy of the cluster maps shows their effect.
module Requests {
  import opened Wrappers
  import opened PgDigest
  import opened SyncTypes
  import opened PoolGrowth

  type RequestId = string

  // Salt never uses a job id twice.
  datatype JobId = JobId(serial: nat)

  datatype Command =
    | SetPgNum(pool: string, val: int)
    | SetPgpNum(pool: string, val: int)
    | OtherCommand(text: string)

  datatype State = New | Submitted | Complete

  // A PG-creating request has a job out, or waits for the OSD map that the job made, or waits
  // for the new PGs to leave state 'creating'.
  datatype Phase = JidWait | OsdMapWait | PgMapWait

  // What kind of request it is, and what it was asked to do.
  datatype Plan =
    | SaltCall(call: Command)
    | RadosCall(commands: seq<Command>)
    | OsdMapModifying(commands: seq<Command>)
    | PoolCreating(commands: seq<Command>, poolName: string)
    | PgCreating(preCommands: seq<Command>, poolId: PoolId, growName: string, pgpNum: int,
                 initial: int, final: int, blockSize: int)

  // The constructor of a growth asserts that there is something to grow.
  predicate Creatable(plan: Plan) {
    plan.PgCreating? ==> plan.initial != plan.final
  }

  function InitialCommands(plan: Plan): seq<Command> {
    match plan
    case SaltCall(call) => [call]
    case RadosCall(commands) => commands
    case OsdMapModifying(commands) => commands
    case PoolCreating(commands, _) => commands
    case PgCreating(pre, _, name, _, initial, final, blockSize) =>
      pre + [SetPgNum(name, NewProgress(initial, final, blockSize).goal)]
  }

  function PostCreateCommands(plan: Plan): seq<Command>
    requires plan.PgCreating?
  {
    [SetPgpNum(plan.growName, plan.pgpNum)]
  }

  // ---------------------------------------------------------------- a request, as a value

  // `jobs` is the record of what Salt was asked to run for the request, oldest first.
  datatype Request = Request(
    plan: Plan,
    state: State,
    minion: Option<Minion>,
    jid: Option<JobId>,
    error: bool,
    aliveAt: Option<Time>,
    awaitVersion: Option<nat>,
    awaitingPgs: bool,
    newPoolId: Option<PoolId>,
    pgCount: int,
    phase: Phase,
    progress: Option<Progress>,
    jobs: seq<seq<Command>>)

  function NewRequest(plan: Plan): Request {
    Request(plan, New, None, None, false, None, None, false, None, 0, JidWait,
            if plan.PgCreating? then Some(NewProgress(plan.initial, plan.final, plan.blockSize)) else None, [])
  }

  // A growth, and only a growth, carries its progress.
  predicate WellFormed(r: Request) {
    && (r.progress.Some? <==> r.plan.PgCreating?)
    && (r.plan.PgCreating? ==>
          && r.progress.value.initial == r.plan.initial
          && r.progress.value.final == r.plan.final
          && r.progress.value.blockSize == r.plan.blockSize)
  }

  // Python's `if self._await_version`: an awaited version of zero is as good as none.
  predicate Awaits(v: Option<nat>) {
    v.Some? && v.value != 0
  }

  // The map types that the request wants to hear of; None stands for any version.
  function AwaitingVersions(r: Request): map<SyncType, Version> {
    match r.plan
    case SaltCall(_) => map[]
    case RadosCall(_) => map[]
    case OsdMapModifying(_) =>
      if Awaits(r.awaitVersion) && r.state != Complete then map[OsdMap := r.awaitVersion] else map[]
    case PoolCreating(_, _) =>
      if r.awaitingPgs then map[PgSummary := None]
      else if Awaits(r.awaitVersion) then map[OsdMap := r.awaitVersion]
      else map[]
    case PgCreating(_, _, _, _, _, _, _) =>
      match r.phase
      case JidWait => map[]
      case OsdMapWait => map[OsdMap := r.awaitVersion]
      case PgMapWait => map[PgSummary := None, OsdMap := None]
  }

  // What a method leaves behind, and whether it did so by raising an exception.
  datatype Outcome = Outcome(r: Request, raised: bool)

  function SetError(r: Request): Request {
    r.(error := true)
  }

  function Finish(r: Request): Outcome {
    if r.state == Complete || r.jid.Some? then Outcome(r, true) else Outcome(r.(state := Complete), false)
  }

  // Give Salt a job to run; without an offer of a job id it has refused.
  function Publish(r: Request, commands: seq<Command>, offer: Option<JobId>, now: Time): Outcome {
    if offer.None? then Outcome(r, true)
    else Outcome(r.(jid := offer, aliveAt := Some(now), jobs := r.jobs + [commands]), false)
  }

  function Submit(r: Request, minion: Minion, offer: Option<JobId>, now: Time): Outcome {
    var o := Publish(r.(minion := Some(minion)), InitialCommands(r.plan), offer, now);
    if o.raised then o else Outcome(o.r.(state := Submitted), false)
  }

  // A job has ended well; `version` is the OSD map epoch its result names.
  function CompleteJid(r: Request, version: nat): (out: Outcome)
    ensures out.r.jobs == r.jobs
  {
    match r.plan
    case SaltCall(_) => Finish(r.(jid := None))
    case RadosCall(_) => Finish(r.(jid := None))
    case OsdMapModifying(_) => Outcome(r.(jid := None, awaitVersion := Some(version)), false)
    case PoolCreating(_, _) => Outcome(r.(jid := None, awaitVersion := Some(version)), false)
    case PgCreating(_, _, _, _, _, _, _) =>
      if r.phase != JidWait then Outcome(r, true)
      else Outcome(r.(jid := None, awaitVersion := Some(version), phase := OsdMapWait), false)
  }

  ghost function OnMap(r: Request, t: SyncType, o: SyncObject, offer: Option<JobId>, now: Time): (out: Outcome)
    requires WellFormed(r)
    ensures |r.jobs| <= |out.r.jobs|
  {
    match r.plan
    case SaltCall(_) => Outcome(r, false)
    case RadosCall(_) => Outcome(r, false)
    case OsdMapModifying(_) => OnMapModifying(r, t, o)
    case PoolCreating(_, _) => OnMapPool(r, t, o)
    case PgCreating(_, _, _, _, _, _, _) =>
      match r.phase
      case JidWait => Outcome(r, true)
      case OsdMapWait => OnOsdMapGrowth(r, t, o)
      case PgMapWait =>
        if t == PgSummary then OnPgSummaryGrowth(r, o, offer, now) else OnOtherMapGrowth(r, t, o)
  }

  function OnMapModifying(r: Request, t: SyncType, o: SyncObject): Outcome {
    if t != OsdMap || r.awaitVersion.None? then Outcome(r, true)
    else if AtMost(r.awaitVersion, o.version) then Finish(r)
    else Outcome(r, false)
  }

  ghost predicate HasPool(pools: PoolTable, name: string) {
    exists id :: id in pools && pools[id].name == name
  }

  ghost function PoolNamed(pools: PoolTable, name: string): PoolId
    requires HasPool(pools, name)
  {
    var id :| id in pools && pools[id].name == name;
    id
  }

  lemma PoolIsNamed(pools: PoolTable, id: PoolId)
    requires id in pools
    ensures HasPool(pools, pools[id].name) && PoolNamed(pools, pools[id].name) == id
  {
    assert HasPool(pools, pools[id].name);
  }

  ghost function OnMapPool(r: Request, t: SyncType, o: SyncObject): Outcome
    requires r.plan.PoolCreating?
  {
    if r.awaitingPgs then
      if t != PgSummary || r.newPoolId.None? || r.newPoolId.value !in PoolTallies(o) then Outcome(r, true)
      else if NotCreating(PoolTallies(o)[r.newPoolId.value]) >= r.pgCount then Finish(r)
      else Outcome(r, false)
    else if !Awaits(r.awaitVersion) || t != OsdMap then Outcome(r, true)
    else if !AtMost(r.awaitVersion, o.version) then Outcome(r, false)
    else
      var r1 :=
        if HasPool(Pools(o), r.plan.poolName) then
          var id := PoolNamed(Pools(o), r.plan.poolName);
          r.(newPoolId := Some(id), pgCount := Pools(o)[id].pgNum)
        else r;
      if r1.newPoolId.Some? then Outcome(r1.(awaitingPgs := true), false)
      else
        var f := Finish(SetError(r1));
        if f.raised then f else Outcome(f.r.(awaitingPgs := true), false)
  }

  // Waiting for the OSD map that the last job made.
  function OnOsdMapGrowth(r: Request, t: SyncType, o: SyncObject): Outcome
    requires r.plan.PgCreating? && r.progress.Some?
  {
    if t != OsdMap || r.plan.poolId !in Pools(o) then Outcome(r, true)
    else if Pools(o)[r.plan.poolId].pgNum != r.progress.value.goal then Finish(SetError(r))
    else if !Awaits(r.awaitVersion) then Outcome(r, true)
    else if !AtMost(r.awaitVersion, o.version) then Outcome(r, false)
    else if r.progress.value.IsComplete() then Finish(r)
    else Outcome(r.(phase := PgMapWait), false)
  }

  // Waiting for the PGs of a tranche, a PG summary arrives.
  ghost function OnPgSummaryGrowth(r: Request, o: SyncObject, offer: Option<JobId>, now: Time): Outcome
    requires r.plan.PgCreating? && r.progress.Some?
  {
    if r.plan.poolId !in PoolTallies(o) then Outcome(r, true)
    else
      var n := NotCreating(PoolTallies(o)[r.plan.poolId]);
      var p := r.progress.value.SetCreated(n);
      if n < p.goal then Outcome(r.(progress := Some(p)), false)
      else if p.IsFinalBlock() then
        var sent := Publish(r.(progress := Some(p)), PostCreateCommands(r.plan), offer, now);
        if sent.raised then sent else Outcome(sent.r.(phase := JidWait), false)
      else
        var q := p.AdvanceGoal();
        var sent := Publish(r.(progress := Some(q)), [SetPgNum(r.plan.growName, q.goal)], offer, now);
        if sent.raised then sent else Outcome(sent.r.(phase := JidWait), false)
  }

  // Waiting for the PGs of a tranche, the OSD map must not show an unexpected PG count.
  function OnOtherMapGrowth(r: Request, t: SyncType, o: SyncObject): Outcome
    requires r.plan.PgCreating? && r.progress.Some?
  {
    if t != OsdMap || r.plan.poolId !in Pools(o) then Outcome(r, true)
    else if Pools(o)[r.plan.poolId].pgNum != r.progress.value.goal then Finish(SetError(r))
    else Outcome(r, false)
  }

  // ---------------------------------------------------------------- what every caller does with an outcome

  // Give a request up: it ends with an error and without a job.
  function Abandon(r: Request): Outcome {
    Finish(SetError(r.(jid := None)))
  }

  // An exception in a request's own code ends the request instead of leaving a zombie.
  function Settle(o: Outcome): Outcome {
    if o.raised then Abandon(o.r) else o
  }

  // Whatever raises in on_map does so before the request completes.
  lemma RaisedIsSubmitted(r: Request, t: SyncType, o: SyncObject, offer: Option<JobId>, now: Time)
    requires WellFormed(r) && r.state == Submitted
    ensures OnMap(r, t, o, offer, now).raised ==>
      OnMap(r, t, o, offer, now).r.state == Submitted && OnMap(r, t, o, offer, now).r.jobs == r.jobs
  {
    hide Pools, PoolTallies, NotCreating;
  }

  // ---------------------------------------------------------------- what every step keeps

  // A submitted request has a job out exactly when it is in a phase that waits for one.
  predicate Sound(r: Request) {
    && WellFormed(r)
    && (r.state == New ==> r == NewRequest(r.plan))
    && (r.state == Complete ==> r.jid.None?)
    && (r.state == Submitted ==>
          && r.minion.Some?
          && (r.jid.Some? ==> r.aliveAt.Some?)
          && !r.error
          && match r.plan
             case SaltCall(_) => r.jid.Some?
             case RadosCall(_) => r.jid.Some?
             case OsdMapModifying(_) => r.jid.Some? <==> r.awaitVersion.None?
             case PoolCreating(_, _) =>
               && (r.jid.Some? <==> r.awaitVersion.None?)
               && (r.awaitingPgs ==> r.newPoolId.Some? && Awaits(r.awaitVersion))
               && (!r.awaitingPgs ==> r.newPoolId.None?)
             case PgCreating(_, _, _, _, _, _, _) =>
               && (r.jid.Some? <==> r.phase == JidWait)
               && (r.phase != JidWait ==> r.awaitVersion.Some?)
               && (r.phase == PgMapWait ==> Awaits(r.awaitVersion)))
  }

  lemma SubmitIsSound(plan: Plan, minion: Minion, offer: Option<JobId>, now: Time)
    requires Creatable(plan) && offer.Some?
    ensures var o := Submit(NewRequest(plan), minion, offer, now);
            && !o.raised && Sound(o.r) && o.r.state == Submitted && o.r.jid == offer && |o.r.jobs| == 1
  {
  }

  lemma AbandonIsSound(r: Request)
    requires WellFormed(r) && r.state == Submitted
    ensures var o := Abandon(r);
            !o.raised && Sound(o.r) && o.r.state == Complete && o.r.error && o.r.jobs == r.jobs && o.r.plan == r.plan
  {
  }

  lemma CompleteJidIsSound(r: Request, version: nat)
    requires Sound(r) && r.state == Submitted && r.jid.Some?
    ensures var o := CompleteJid(r, version);
            && !o.raised && Sound(o.r) && o.r.jid.None? && !o.r.error
            && o.r.jobs == r.jobs && o.r.plan == r.plan && o.r.minion == r.minion && o.r.state in {Submitted, Complete}
  {
  }

  // The outcome of a map: an exception that still can be settled or a sound request, and at most
  // one job more.
  predicate GoodOutcome(r: Request, offer: Option<JobId>, out: Outcome) {
    && WellFormed(out.r)
    && (if out.raised then out.r.state == Submitted && out.r.jid.None? && out.r.jobs == r.jobs
        else Sound(out.r) && out.r.state in {Submitted, Complete})
    && out.r.plan == r.plan && out.r.minion == r.minion && out.r.awaitVersion == r.awaitVersion
    && (if out.r.jobs == r.jobs then out.r.jid.None?
        else offer.Some? && out.r.jid == offer && |out.r.jobs| == |r.jobs| + 1)
  }

  lemma GrowthMapOutcomes(r: Request, t: SyncType, o: SyncObject, offer: Option<JobId>)
    requires Sound(r) && r.state == Submitted && r.plan.PgCreating? && r.jid.None?
    ensures r.phase == OsdMapWait ==> GoodOutcome(r, offer, OnOsdMapGrowth(r, t, o))
    ensures r.phase == PgMapWait ==> GoodOutcome(r, offer, OnOtherMapGrowth(r, t, o))
  {
  }

  lemma GrowthSummaryOutcomes(r: Request, o: SyncObject, offer: Option<JobId>, now: Time)
    requires Sound(r) && r.state == Submitted && r.plan.PgCreating? && r.jid.None? && r.phase == PgMapWait
    ensures GoodOutcome(r, offer, OnPgSummaryGrowth(r, o, offer, now))
  {
  }

  lemma PoolOutcomes(r: Request, t: SyncType, o: SyncObject, offer: Option<JobId>)
    requires Sound(r) && r.state == Submitted && r.plan.PoolCreating? && r.jid.None?
    ensures GoodOutcome(r, offer, OnMapPool(r, t, o))
  {
  }

  // A map reaches a request only while no job of it is out.
  lemma OnMapIsSound(r: Request, t: SyncType, o: SyncObject, offer: Option<JobId>, now: Time)
    requires Sound(r) && r.state == Submitted && t in AwaitingVersions(r)
    ensures r.jid.None?
    ensures GoodOutcome(r, offer, OnMap(r, t, o, offer, now))
  {
    match r.plan
    case SaltCall(_) =>
    case RadosCall(_) =>
    case OsdMapModifying(_) =>
    case PoolCreating(_, _) => PoolOutcomes(r, t, o, offer);
    case PgCreating(_, _, _, _, _, _, _) =>
      GrowthMapOutcomes(r, t, o, offer);
      if r.phase == PgMapWait {
        GrowthSummaryOutcomes(r, o, offer, now);
      }
  }
}
