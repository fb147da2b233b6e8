// Whole runs of one request that grows a pool, under any sequence of job results, maps and
// interruptions.
module GrowthRuns {
  import opened Wrappers
  import opened PgDigest
  import opened SyncTypes
  import opened PoolGrowth
  import opened Requests
  import opened RequestRuns

  predicate IsGrowth(plan: Plan) {
    plan.PgCreating? && plan.initial < plan.final && 0 < plan.blockSize
  }

  // A growth as it is once submitted.
  ghost predicate Launched(r: Request) {
    && IsGrowth(r.plan)
    && exists minion, jid, now :: r == Submit(NewRequest(r.plan), minion, Some(jid), now).r
  }

  // ---------------------------------------------------------------- the script of a growth

  function Tranches(plan: Plan): nat
    requires IsGrowth(plan)
  {
    TrancheCount(plan.initial, plan.final, plan.blockSize)
  }

  function PlanGoal(plan: Plan, k: nat): int
    requires IsGrowth(plan)
  {
    Goal(plan.initial, plan.final, plan.blockSize, k)
  }

  // The i-th job: the first tranche with the commands that precede it, then one tranche a job, and
  // last the commands that follow the creation.
  function JobAt(plan: Plan, i: nat): seq<Command>
    requires IsGrowth(plan)
  {
    if i == 0 then InitialCommands(plan)
    else if i < Tranches(plan) then [SetPgNum(plan.growName, PlanGoal(plan, i + 1))]
    else PostCreateCommands(plan)
  }

  function Script(plan: Plan, n: nat): (jobs: seq<seq<Command>>)
    requires IsGrowth(plan)
    ensures |jobs| == n
  {
    seq(n, i requires 0 <= i => JobAt(plan, i))
  }

  predicate Finishing(r: Request)
    requires IsGrowth(r.plan)
  {
    |r.jobs| == Tranches(r.plan) + 1
  }

  // ---------------------------------------------------------------- overshooting

  // A PG summary that reports the final count while an earlier tranche is still being created.
  ghost predicate Overshoots(r: Request, e: Event) {
    && WellFormed(r) && r.plan.PgCreating?
    && r.state == Submitted && r.phase == PgMapWait && !r.progress.value.IsFinalBlock()
    && e.MapArrives? && e.t == PgSummary && r.plan.poolId in PoolTallies(e.o)
    && NotCreating(PoolTallies(e.o)[r.plan.poolId]) >= r.plan.final
  }

  ghost predicate Overshot(r0: Request, es: seq<Event>)
    requires Sound(r0)
  {
    es != [] && (Overshot(r0, es[..|es| - 1]) || Overshoots(Run(r0, es[..|es| - 1]), es[|es| - 1]))
  }

  // ---------------------------------------------------------------- what every run keeps

  ghost predicate OnScript(r: Request, over: bool)
    requires WellFormed(r) && IsGrowth(r.plan)
  {
    var n, last := |r.jobs|, Tranches(r.plan);
    var p := r.progress.value;
    && 1 <= n <= last + 1
    && r.jobs == Script(r.plan, n)
    && r.state != New
    && (!r.error ==>
          && p.goal == PlanGoal(r.plan, if n <= last then n else last)
          && (n == last + 1 ==> p.IsComplete() && !over && r.phase != PgMapWait)
          && (n <= last ==> (p.IsComplete() <==> over) && (over ==> r.phase != PgMapWait))
          && (r.state == Complete ==> p.IsComplete()))
  }

  lemma LaunchOnScript(r: Request)
    requires Launched(r)
    ensures Sound(r) && OnScript(r, false)
  {
    var minion, jid, now :| r == Submit(NewRequest(r.plan), minion, Some(jid), now).r;
    SubmitIsSound(r.plan, minion, Some(jid), now);
    TranchesRise(r.plan.initial, r.plan.final, r.plan.blockSize, 1);
    assert r.jobs == [InitialCommands(r.plan)];
  }

  lemma ScriptGrows(plan: Plan, n: nat)
    requires IsGrowth(plan)
    ensures Script(plan, n + 1) == Script(plan, n) + [JobAt(plan, n)]
  {
  }

  lemma SummaryOnScript(r: Request, e: Event, over: bool)
    requires Sound(r) && IsGrowth(r.plan) && OnScript(r, over)
    requires r.state == Submitted && r.phase == PgMapWait && e.MapArrives? && e.t == PgSummary
    ensures Sound(Step(r, e)) && Step(r, e).plan == r.plan
    ensures OnScript(Step(r, e), over || Overshoots(r, e))
  {
    StepIsSound(r, e);
    ScriptGrows(r.plan, |r.jobs|);
    TranchesRise(r.plan.initial, r.plan.final, r.plan.blockSize, |r.jobs|);
    if !r.progress.value.IsFinalBlock() {
      AdvanceIsNextTranche(r.progress.value, |r.jobs|);
    }
    hide NotCreating, PoolTallies, PostCreateCommands;
    var r' := Step(r, e);
    assert r'.jobs == r.jobs || r'.error || r'.jobs == r.jobs + [JobAt(r.plan, |r.jobs|)];
    hide Script;
  }

  lemma OsdMapOnScript(r: Request, e: Event, over: bool)
    requires Sound(r) && IsGrowth(r.plan) && OnScript(r, over)
    requires r.state == Submitted && r.phase != JidWait && e.MapArrives? && e.t != PgSummary
    ensures Sound(Step(r, e)) && Step(r, e).plan == r.plan
    ensures OnScript(Step(r, e), over)
  {
    StepIsSound(r, e);
    hide Pools, Script, PlanGoal;
  }

  lemma StepOnScript(r: Request, e: Event, over: bool)
    requires Sound(r) && IsGrowth(r.plan) && OnScript(r, over)
    ensures Sound(Step(r, e)) && Step(r, e).plan == r.plan
    ensures OnScript(Step(r, e), over || Overshoots(r, e))
  {
    StepIsSound(r, e);
    if r.state == Submitted {
      match e
      case JobDone(version) =>
      case MapArrives(t, o, offer, now) =>
        if r.phase == PgMapWait && t == PgSummary {
          SummaryOnScript(r, e, over);
        } else if r.phase != JidWait && t != PgSummary {
          OsdMapOnScript(r, e, over);
        }
      case Interrupted =>
      case Seen(now) =>
    }
  }

  lemma {:induction false} RunOnScript(r0: Request, es: seq<Event>)
    requires Launched(r0)
    ensures Sound(r0) && OnScript(Run(r0, es), Overshot(r0, es))
  {
    LaunchOnScript(r0);
    if es != [] {
      RunOnScript(r0, es[..|es| - 1]);
      StepOnScript(Run(r0, es[..|es| - 1]), es[|es| - 1], Overshot(r0, es[..|es| - 1]));
    }
  }

  // ---------------------------------------------------------------- what a run amounts to

  // However it goes, a growth submits at most one job a tranche and one more, and they are its
  // script's jobs in its script's order.
  lemma GrowthJobs(r0: Request, es: seq<Event>)
    requires Launched(r0)
    ensures Sound(r0)
    ensures var jobs := Run(r0, es).jobs;
            1 <= |jobs| <= Tranches(r0.plan) + 1 && jobs == Script(r0.plan, |jobs|)
  {
    RunOnScript(r0, es);
  }

  // A growth that completes without error has submitted its whole script, pgp_num last, exactly
  // when no summary reported the final count before the last tranche.
  lemma GrowthCompletes(r0: Request, es: seq<Event>)
    requires Launched(r0)
    ensures Sound(r0)
    ensures var r := Run(r0, es);
            r.state == Complete && !r.error ==>
              && (r.jobs == Script(r0.plan, Tranches(r0.plan) + 1) <==> !Overshot(r0, es))
              && (Overshot(r0, es) ==> |r.jobs| <= Tranches(r0.plan))
              && (!Overshot(r0, es) ==> r.progress.value.goal == r0.plan.final)
  {
    RunOnScript(r0, es);
    TranchesRise(r0.plan.initial, r0.plan.final, r0.plan.blockSize, Tranches(r0.plan));
  }

  // A summary in which as many PGs as the final count have left 'creating'.
  ghost predicate SeesAllCreated(plan: Plan, e: Event)
    requires plan.PgCreating?
  {
    && e.MapArrives? && e.t == PgSummary && plan.poolId in PoolTallies(e.o)
    && NotCreating(PoolTallies(e.o)[plan.poolId]) >= plan.final
  }

  // An OSD map in which the pool has its final count.
  predicate SeesPgNum(plan: Plan, e: Event, pgNum: int)
    requires plan.PgCreating?
  {
    && e.MapArrives? && e.t == OsdMap && plan.poolId in Pools(e.o)
    && Pools(e.o)[plan.poolId].pgNum == pgNum
  }

  // Every job after the first answers a summary that reaches the goal so far.
  lemma JobAnswersSummary(r: Request, e: Event, over: bool)
    requires Sound(r) && IsGrowth(r.plan) && OnScript(r, over) && |Step(r, e).jobs| != |r.jobs|
    ensures r.state == Submitted && r.phase == PgMapWait && |r.jobs| <= Tranches(r.plan)
    ensures |Step(r, e).jobs| == |r.jobs| + 1
    ensures e.MapArrives? && e.t == PgSummary && r.plan.poolId in PoolTallies(e.o)
    ensures NotCreating(PoolTallies(e.o)[r.plan.poolId]) >= r.progress.value.goal
    ensures |r.jobs| == Tranches(r.plan) ==> SeesAllCreated(r.plan, e)
  {
    StepOnScript(r, e, over);
    TranchesRise(r.plan.initial, r.plan.final, r.plan.blockSize, |r.jobs|);
    if e.MapArrives? && e.t in AwaitingVersions(r) && r.state == Submitted {
      OnMapIsSound(r, e.t, e.o, e.offer, e.now);
    }
  }

  // Only an OSD map of the awaited version, with the expected PG count, completes a growth.
  lemma CompletionSeesPgNum(r: Request, e: Event)
    requires Sound(r) && IsGrowth(r.plan) && r.state == Submitted
    requires Step(r, e).state == Complete && !Step(r, e).error
    ensures SeesPgNum(r.plan, e, r.progress.value.goal)
    ensures r.phase == OsdMapWait && AtMost(r.awaitVersion, e.o.version)
    ensures Step(r, e) == r.(state := Complete)
  {
  }

  // While a growth waits for the OSD map that its job made, any OSD map that has the pool ends it
  // with an error exactly if the PG count is not the tranche's, however old the map is; or if the job
  // came back with version 0, which no map is compared with.
  lemma InBetweenMapEnds(r: Request, e: Event)
    requires Sound(r) && r.plan.PgCreating? && r.state == Submitted && r.phase == OsdMapWait
    requires e.MapArrives? && e.t == OsdMap && r.plan.poolId in Pools(e.o)
    ensures Step(r, e).state == Complete && Step(r, e).error <==>
            Pools(e.o)[r.plan.poolId].pgNum != r.progress.value.goal || r.awaitVersion == Some(0)
    ensures !AtMost(r.awaitVersion, e.o.version) && r.awaitVersion != Some(0) ==>
              (Step(r, e) == r <==> Pools(e.o)[r.plan.poolId].pgNum == r.progress.value.goal)
  {
  }

  // The commands that follow the creation were sent in answer to such a summary.
  ghost predicate SentAfterCreation(r0: Request, es: seq<Event>, i: nat)
    requires Launched(r0) && Sound(r0) && i < |es|
  {
    && SeesAllCreated(r0.plan, es[i])
    && |Run(r0, es[..i]).jobs| == Tranches(r0.plan)
    && |Run(r0, es[..i + 1]).jobs| == Tranches(r0.plan) + 1
  }

  ghost predicate CompletedBy(r0: Request, es: seq<Event>, j: nat)
    requires Launched(r0) && Sound(r0) && j < |es|
  {
    && Run(r0, es[..j]).state == Submitted
    && Run(r0, es[..j + 1]).state == Complete
    && SeesPgNum(r0.plan, es[j], Run(r0, es[..j]).progress.value.goal)
    && Run(r0, es[..j + 1]) == Run(r0, es)
  }

  lemma {:induction false} WhenPgpNumWasSent(r0: Request, es: seq<Event>) returns (i: nat)
    requires Launched(r0) && Sound(r0) && Finishing(Run(r0, es))
    ensures i < |es| && SentAfterCreation(r0, es, i)
  {
    TranchesRise(r0.plan.initial, r0.plan.final, r0.plan.blockSize, 1);
    var n := |es| - 1;
    assert es != [];
    var before := es[..n];
    RunOnScript(r0, before);
    if Finishing(Run(r0, before)) {
      i := WhenPgpNumWasSent(r0, before);
      assert before[..i] == es[..i] && before[..i + 1] == es[..i + 1];
    } else {
      i := n;
      JobAnswersSummary(Run(r0, before), es[n], Overshot(r0, before));
      assert es[..n + 1] == es;
    }
  }

  lemma {:induction false} WhenCompleted(r0: Request, es: seq<Event>) returns (j: nat)
    requires Launched(r0) && Sound(r0) && Run(r0, es).state == Complete && !Run(r0, es).error
    ensures j < |es| && CompletedBy(r0, es, j)
  {
    var n := |es| - 1;
    assert es != [];
    var before := es[..n];
    RunOnScript(r0, before);
    if Run(r0, before).state == Complete {
      j := WhenCompleted(r0, before);
      assert before[..j] == es[..j] && before[..j + 1] == es[..j + 1];
    } else {
      j := n;
      CompletionSeesPgNum(Run(r0, before), es[n]);
      assert es[..n + 1] == es;
    }
  }

  lemma {:induction false} JobsOnlyGrow(r0: Request, es: seq<Event>, k: nat)
    requires Launched(r0) && Sound(r0) && k <= |es|
    ensures |Run(r0, es[..k]).jobs| <= |Run(r0, es).jobs|
  {
    if k == |es| {
      assert es[..k] == es;
    } else {
      var before := es[..|es| - 1];
      JobsOnlyGrow(r0, before, k);
      assert before[..k] == es[..k];
      RunOnScript(r0, before);
      StepOnScript(Run(r0, before), es[|es| - 1], Overshot(r0, before));
      if |Run(r0, es).jobs| != |Run(r0, before).jobs| {
        JobAnswersSummary(Run(r0, before), es[|es| - 1], Overshot(r0, before));
      }
    }
  }

  // A growth that completes without error, and was never overshot, really finished: some summary
  // showed the final number of PGs created, only then was pgp_num set, and after that the OSD map
  // that completed it showed the final PG count.
  lemma GrowthReallyFinished(r0: Request, es: seq<Event>) returns (i: nat, j: nat)
    requires Launched(r0) && Sound(r0)
    requires Run(r0, es).state == Complete && !Run(r0, es).error && !Overshot(r0, es)
    ensures i < j < |es|
    ensures SentAfterCreation(r0, es, i)
    ensures CompletedBy(r0, es, j) && SeesPgNum(r0.plan, es[j], r0.plan.final)
  {
    GrowthCompletes(r0, es);
    i := WhenPgpNumWasSent(r0, es);
    j := WhenCompleted(r0, es);
    RunNext(r0, es, j);
    CompletionSeesPgNum(Run(r0, es[..j]), es[j]);
    if j <= i {
      assert es[..i][..j] == es[..j];
      JobsOnlyGrow(r0, es[..i], j);
    }
  }

  // ---------------------------------------------------------------- termination

  function Rank(phase: Phase): nat {
    match phase
    case JidWait => 2
    case OsdMapWait => 1
    case PgMapWait => 0
  }

  // What is left to do: the jobs not yet sent, then the phases of the current one.
  function Measure(r: Request): int
    requires IsGrowth(r.plan)
  {
    if r.state == Complete then 0 else 3 * (Tranches(r.plan) + 1 - |r.jobs|) + Rank(r.phase) + 1
  }

  predicate Moves(r: Request, r': Request) {
    r'.state != r.state || r'.phase != r.phase
  }

  lemma MeasureFalls(r: Request, e: Event, over: bool)
    requires Sound(r) && IsGrowth(r.plan) && OnScript(r, over)
    ensures Step(r, e).plan == r.plan
    ensures 0 <= Measure(Step(r, e)) <= Measure(r)
    ensures Moves(r, Step(r, e)) ==> Measure(Step(r, e)) < Measure(r)
  {
    StepOnScript(r, e, over);
    if |Step(r, e).jobs| != |r.jobs| {
      JobAnswersSummary(r, e, over);
    }
  }

  // How often a run changed phase or ended.
  ghost function MovesIn(r0: Request, es: seq<Event>): nat
    requires Sound(r0)
  {
    if es == [] then 0
    else
      var before := es[..|es| - 1];
      MovesIn(r0, before) + (if Moves(Run(r0, before), Run(r0, es)) then 1 else 0)
  }

  // So no run, however long, changes phase more than three times a job.
  lemma {:induction false} GrowthTerminates(r0: Request, es: seq<Event>)
    requires Launched(r0)
    ensures Sound(r0)
    ensures MovesIn(r0, es) + Measure(Run(r0, es)) <= 3 * (Tranches(r0.plan) + 1)
    ensures 0 <= Measure(Run(r0, es))
  {
    LaunchOnScript(r0);
    if es != [] {
      var before := es[..|es| - 1];
      GrowthTerminates(r0, before);
      RunOnScript(r0, before);
      MeasureFalls(Run(r0, before), es[|es| - 1], Overshot(r0, before));
    }
  }
}
