// Where a growth's promises end: the mons' limit on each tranche, a summary that runs ahead of
// the tranches, and a block size of zero.
module GrowthLimits {
  import opened Wrappers
  import opened PgDigest
  import opened SyncTypes
  import opened PoolGrowth
  import opened Requests
  import opened RequestRuns
  import opened GrowthRuns

  // ---------------------------------------------------------------- the factory and the mons' limit

  // The plan that the pool request factory makes when an update sets pg_num; without pgp_num in
  // the update, that is set to the same value. An update that also renames the pool is not
  // modelled, since the later commands would name a pool that is gone.
  function GrowthPlan(osdMap: SyncObject, poolId: PoolId, preCommands: seq<Command>, pgNum: int,
                      pgpNum: Option<int>, maxSplitCount: nat): Plan
    requires osdMap.data.OsdData? && poolId in osdMap.data.pools
  {
    var pool := osdMap.data.pools[poolId];
    PgCreating(preCommands, poolId, pool.name, if pgpNum.Some? then pgpNum.value else pgNum,
               pool.pgNum, pgNum, BlockSize(maxSplitCount, pool.pgNum, osdMap.data.osdCount))
  }

  // Each pg_num command that a factory-made growth sends is one that the mons accept when the
  // pool has the count of the tranche before, as long as the number of OSDs stays the same.
  lemma JobsRespectLimit(osdMap: SyncObject, r: Request, e: Event, over: bool, maxSplitCount: nat,
                         preCommands: seq<Command>, pgNum: int, pgpNum: Option<int>)
    requires Sound(r) && IsGrowth(r.plan) && OnScript(r, over)
    requires osdMap.data.OsdData? && r.plan.poolId in osdMap.data.pools
    requires 0 <= r.plan.initial
    requires r.plan == GrowthPlan(osdMap, r.plan.poolId, preCommands, pgNum, pgpNum, maxSplitCount)
    requires |Step(r, e).jobs| == |r.jobs| + 1 <= Tranches(r.plan)
    ensures var goal, next := PlanGoal(r.plan, |r.jobs|), PlanGoal(r.plan, |r.jobs| + 1);
            && r.progress.value.goal == goal
            && Step(r, e).jobs == r.jobs + [[SetPgNum(r.plan.growName, next)]]
            && SplitAllowed(maxSplitCount, osdMap.data.osdCount, goal, next)
  {
    var k := |r.jobs|;
    StepOnScript(r, e, over);
    ScriptGrows(r.plan, k);
    TranchesRespectLimit(maxSplitCount, r.plan.initial, r.plan.final, osdMap.data.osdCount, k);
    JobAnswersSummary(r, e, over);
    assert JobAt(r.plan, k) == [SetPgNum(r.plan.growName, PlanGoal(r.plan, k + 1))];
  }

  // The first command, too, is within the limit of the pool as the factory saw it.
  lemma FirstJobRespectsLimit(osdMap: SyncObject, poolId: PoolId, preCommands: seq<Command>, pgNum: int,
                              pgpNum: Option<int>, maxSplitCount: nat)
    requires osdMap.data.OsdData? && poolId in osdMap.data.pools && 0 <= osdMap.data.pools[poolId].pgNum
    requires IsGrowth(GrowthPlan(osdMap, poolId, preCommands, pgNum, pgpNum, maxSplitCount))
    ensures var pool := osdMap.data.pools[poolId];
            exists val ::
              && InitialCommands(GrowthPlan(osdMap, poolId, preCommands, pgNum, pgpNum, maxSplitCount))
                 == preCommands + [SetPgNum(pool.name, val)]
              && pool.pgNum < val <= pgNum
              && SplitAllowed(maxSplitCount, osdMap.data.osdCount, pool.pgNum, val)
  {
    var plan := GrowthPlan(osdMap, poolId, preCommands, pgNum, pgpNum, maxSplitCount);
    TranchesRespectLimit(maxSplitCount, plan.initial, plan.final, osdMap.data.osdCount, 0);
    TranchesRise(plan.initial, plan.final, plan.blockSize, 0);
    TranchesRise(plan.initial, plan.final, plan.blockSize, 1);
    var val := PlanGoal(plan, 1);
    assert InitialCommands(plan) == preCommands + [SetPgNum(plan.growName, val)];
  }

  // A growth made by the factory that completes without error, and was not overshot, has asked for the
  // PG count of the update in its last command but one, and last for the update's pgp_num; without one,
  // for the PG count again.
  lemma FactoryGrowthCompletes(r0: Request, es: seq<Event>, osdMap: SyncObject, poolId: PoolId,
                               preCommands: seq<Command>, pgNum: int, pgpNum: Option<int>, maxSplitCount: nat)
    requires osdMap.data.OsdData? && poolId in osdMap.data.pools
    requires Launched(r0) && r0.plan == GrowthPlan(osdMap, poolId, preCommands, pgNum, pgpNum, maxSplitCount)
    requires Sound(r0) && Run(r0, es).state == Complete && !Run(r0, es).error && !Overshot(r0, es)
    ensures var jobs, name := Run(r0, es).jobs, osdMap.data.pools[poolId].name;
            && |jobs| >= 2
            && jobs[|jobs| - 1] == [SetPgpNum(name, if pgpNum.Some? then pgpNum.value else pgNum)]
            && jobs[|jobs| - 2] != [] && jobs[|jobs| - 2][|jobs[|jobs| - 2]| - 1] == SetPgNum(name, pgNum)
  {
    hide Run, Overshot, Sound, Script, Tranches, Submit;
    GrowthCompletes(r0, es);
    LastTwoJobs(r0.plan);
  }

  lemma LastTwoJobs(plan: Plan)
    requires IsGrowth(plan)
    ensures var n := Tranches(plan);
            && 1 <= n && Script(plan, n + 1)[n] == [SetPgpNum(plan.growName, plan.pgpNum)]
            && Script(plan, n + 1)[n - 1] != []
            && Script(plan, n + 1)[n - 1][|Script(plan, n + 1)[n - 1]| - 1] == SetPgNum(plan.growName, plan.final)
  {
    var n := Tranches(plan);
    TranchesRise(plan.initial, plan.final, plan.blockSize, n);
    assert Script(plan, n + 1)[n] == JobAt(plan, n) && Script(plan, n + 1)[n - 1] == JobAt(plan, n - 1);
    if n == 1 {
      Starting(plan);
    }
  }

  lemma Starting(plan: Plan)
    requires IsGrowth(plan)
    ensures InitialCommands(plan) == plan.preCommands + [SetPgNum(plan.growName, PlanGoal(plan, 1))]
  {
    assert 1 * plan.blockSize == plan.blockSize;
  }

  // ---------------------------------------------------------------- helpers for concrete summaries

  lemma {:induction false} NoPlusOneToken(s: string)
    requires '+' !in s
    ensures Tokens(s) == [s]
  {
    if s != "" {
      NoPlusOneToken(s[1..]);
      assert [s[0]] + s[1..] == s;
    }
  }

  // All PGs of the pool active.
  function ActiveSummary(version: nat, pool: PoolId, count: nat): SyncObject {
    SyncObject(Some(version), PgData(map[pool := map["active" := count]]))
  }

  function PoolMap(version: nat, pool: PoolId, name: string, pgNum: int): SyncObject {
    var pools := map[pool := Pool(name, pgNum)];
    SyncObject(Some(version), OsdData(pools, 1, map[]))
  }

  lemma ActiveCount(version: nat, pool: PoolId, count: nat)
    ensures pool in PoolTallies(ActiveSummary(version, pool, count))
    ensures NotCreating(PoolTallies(ActiveSummary(version, pool, count))[pool]) == count
  {
    NoPlusOneToken("active");
    var t: Tally := map["active" := count];
    assert t == Bump(map["active" := count], "active") - {"active"} + map["active" := count];
    SumByAny(t, "active", NotCreatingWeight());
    assert t - {"active"} == map[];
  }

  // ---------------------------------------------------------------- a summary that runs ahead

  lemma RunAppend(r0: Request, es: seq<Event>, e: Event)
    requires Sound(r0)
    ensures Run(r0, es + [e]) == Step(Run(r0, es), e)
    ensures Overshot(r0, es + [e]) <==> Overshot(r0, es) || Overshoots(Run(r0, es), e)
  {
    assert (es + [e])[..|es|] == es;
  }

  // The first tranche's job is done and its OSD map is here: the growth waits for its PGs.
  lemma TrancheUnderWay(r: Request, version: nat)
    requires Sound(r) && r.plan.PgCreating? && r.state == Submitted && r.phase == JidWait
    requires 0 < version && r.progress.value.stillToCreate != 0
    ensures var map' := PoolMap(version, r.plan.poolId, r.plan.growName, r.progress.value.goal);
            var m := MapArrives(OsdMap, map', None, 0);
            var r' := Step(Step(r, JobDone(version)), m);
            && Sound(r') && r' == r.(jid := None, awaitVersion := Some(version), phase := PgMapWait)
  {
    StepIsSound(r, JobDone(version));
  }

  // A pool of 8 PGs is to have 24, in tranches of 8. A summary that already shows 24 PGs while the
  // first tranche is being created makes the growth complete, without error, once pg_num is 24:
  // pgp_num is never set.
  lemma OvershootSkipsPgpNum() returns (r0: Request, es: seq<Event>)
    ensures Launched(r0) && Sound(r0)
    ensures Overshot(r0, es)
    ensures Run(r0, es).state == Complete && !Run(r0, es).error
    ensures Run(r0, es).jobs == [[SetPgNum("rbd", 16)], [SetPgNum("rbd", 24)]]
  {
    var pool := PoolId(1);
    var plan := PgCreating([], pool, "rbd", 24, 8, 24, 8);
    r0 := Submit(NewRequest(plan), "mon", Some(JobId(0)), 0).r;
    SubmitIsSound(plan, "mon", Some(JobId(0)), 0);
    assert InitialCommands(plan) == [SetPgNum("rbd", 16)];
    assert r0.jobs == [[SetPgNum("rbd", 16)]];
    assert r0.plan == plan && r0.progress == Some(Progress(8, 24, 8, 16, 16));

    var e0, e1 := JobDone(5), MapArrives(OsdMap, PoolMap(5, pool, "rbd", 16), None, 0);
    TrancheUnderWay(r0, 5);
    RunAppend(r0, [], e0);
    RunAppend(r0, [] + [e0], e1);
    var es2 := [] + [e0] + [e1];
    var r2 := Run(r0, es2);

    var e2 := MapArrives(PgSummary, ActiveSummary(1, pool, 24), Some(JobId(1)), 0);
    ActiveCount(1, pool, 24);
    RunAppend(r0, es2, e2);
    var r3 := Step(r2, e2);
    assert r2 == r0.(jid := None, awaitVersion := Some(5), phase := PgMapWait);
    assert r3.jobs == r0.jobs + [[SetPgNum("rbd", 24)]] && r3.progress.value == Progress(8, 24, 8, 0, 24);

    es := es2 + [e2];
    es := OvershotGrowthCompletes(r0, es);
  }

  lemma OvershotGrowthCompletes(r0: Request, es0: seq<Event>) returns (es: seq<Event>)
    requires Sound(r0) && r0.plan.PgCreating? && Overshot(r0, es0)
    requires Run(r0, es0).state == Submitted && Run(r0, es0).phase == JidWait
    requires Run(r0, es0).progress.value.stillToCreate == 0
    ensures Overshot(r0, es) && Run(r0, es).state == Complete && !Run(r0, es).error
    ensures Run(r0, es).jobs == Run(r0, es0).jobs
  {
    var r := Run(r0, es0);
    var e0 := JobDone(6);
    var e1 := MapArrives(OsdMap, PoolMap(6, r.plan.poolId, r.plan.growName, r.progress.value.goal), None, 0);
    RunAppend(r0, es0, e0);
    RunAppend(r0, es0 + [e0], e1);
    es := es0 + [e0] + [e1];
  }

  // ---------------------------------------------------------------- a block size of zero

  // With a block size of zero (no OSDs, or a split count of zero) each tranche asks for the count
  // the pool already has, and the growth can go on for any number of jobs.
  lemma {:induction false} ZeroBlockNeverEnds(plan: Plan, n: nat) returns (r0: Request, es: seq<Event>)
    requires plan.PgCreating? && 0 <= plan.initial < plan.final && plan.blockSize == 0
    ensures r0 == Submit(NewRequest(plan), "mon", Some(JobId(0)), 0).r
    ensures Sound(r0) && Stuck(Run(r0, es)) && |Run(r0, es).jobs| == n + 1
  {
    if n == 0 {
      SubmitIsSound(plan, "mon", Some(JobId(0)), 0);
      r0 := Submit(NewRequest(plan), "mon", Some(JobId(0)), 0).r;
      es := [];
    } else {
      var es0;
      r0, es0 := ZeroBlockNeverEnds(plan, n - 1);
      var r := Run(r0, es0);
      var e0 := JobDone(1);
      var e1 := MapArrives(OsdMap, PoolMap(1, plan.poolId, plan.growName, plan.initial), None, 0);
      var e2 := MapArrives(PgSummary, ActiveSummary(1, plan.poolId, plan.initial), Some(JobId(n)), 0);
      TrancheUnderWay(r, 1);
      ActiveCount(1, plan.poolId, plan.initial);
      RunAppend(r0, es0, e0);
      RunAppend(r0, es0 + [e0], e1);
      RunAppend(r0, es0 + [e0] + [e1], e2);
      es := es0 + [e0] + [e1] + [e2];
    }
  }

  // A job is out for the count that the pool already has.
  predicate Stuck(r: Request) {
    && WellFormed(r) && r.plan.PgCreating?
    && r.state == Submitted && r.phase == JidWait
    && r.progress.value.goal == r.plan.initial && r.progress.value.stillToCreate != 0
  }
}
