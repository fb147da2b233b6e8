// Whole runs of one request that creates a pool.
module PoolRuns {
  import opened Wrappers
  import opened PgDigest
  import opened SyncTypes
  import opened Requests
  import opened RequestRuns

  // The creation of a pool as it is once submitted.
  ghost predicate Launched(r: Request) {
    && r.plan.PoolCreating?
    && exists minion, jid, now :: r == Submit(NewRequest(r.plan), minion, Some(jid), now).r
  }

  // An OSD map at least as new as the one that the job made, with a pool of this id that has the
  // new pool's name and this many PGs.
  predicate ShowsPool(r: Request, e: Event, id: PoolId, pgNum: int)
    requires r.plan.PoolCreating?
  {
    && e.MapArrives? && e.t == OsdMap && AtMost(r.awaitVersion, e.o.version)
    && id in Pools(e.o) && Pools(e.o)[id] == Pool(r.plan.poolName, pgNum)
  }

  // A PG summary in which at least so many PGs of the pool are out of 'creating'.
  ghost predicate ShowsPgs(e: Event, id: PoolId, count: int) {
    e.MapArrives? && e.t == PgSummary && id in PoolTallies(e.o) && NotCreating(PoolTallies(e.o)[id]) >= count
  }

  lemma LaunchedIsSound(r: Request)
    requires Launched(r)
    ensures Sound(r) && r.state == Submitted && !r.awaitingPgs
  {
    var minion, jid, now :| r == Submit(NewRequest(r.plan), minion, Some(jid), now).r;
    SubmitIsSound(r.plan, minion, Some(jid), now);
  }

  // A pool is found in a map of the right name and version, and nothing but that starts the wait
  // for its PGs.
  lemma StepFindsPool(r: Request, e: Event)
    requires Sound(r) && r.plan.PoolCreating? && r.state == Submitted
    requires Step(r, e).state == Submitted && Step(r, e).awaitingPgs
    ensures Step(r, e).awaitVersion == r.awaitVersion
    ensures if r.awaitingPgs then Step(r, e).newPoolId == r.newPoolId && Step(r, e).pgCount == r.pgCount
            else Step(r, e).newPoolId.Some? && ShowsPool(r, e, Step(r, e).newPoolId.value, Step(r, e).pgCount)
  {
    StepStays(r, e);
  }

  // Only a summary of enough PGs completes the creation of a pool without error.
  lemma CompletionSeesPgs(r: Request, e: Event)
    requires Sound(r) && r.plan.PoolCreating? && r.state == Submitted
    requires Step(r, e).state == Complete && !Step(r, e).error
    ensures r.awaitingPgs && r.newPoolId.Some? && ShowsPgs(e, r.newPoolId.value, r.pgCount)
    ensures Step(r, e) == r.(state := Complete)
  {
  }

  lemma {:induction false} WhenPoolWasFound(r0: Request, es: seq<Event>) returns (i: nat)
    requires Launched(r0) && Sound(r0) && Run(r0, es).state == Submitted && Run(r0, es).awaitingPgs
    ensures Run(r0, es).newPoolId.Some? && i < |es|
    ensures ShowsPool(Run(r0, es), es[i], Run(r0, es).newPoolId.value, Run(r0, es).pgCount)
  {
    LaunchedIsSound(r0);
    var n := |es| - 1;
    assert es != [];
    var r := Run(r0, es[..n]);
    RunStays(r0, es[..n]);
    StepStays(r, es[n]);
    StepFindsPool(r, es[n]);
    if r.awaitingPgs {
      i := WhenPoolWasFound(r0, es[..n]);
    } else {
      i := n;
    }
  }

  // The creation of a pool that completes without error really finished: an OSD map as new as its
  // job's showed the pool, and after that a PG summary showed all of the pool's PGs out of
  // 'creating'.
  lemma {:induction false} PoolReallyCreated(r0: Request, es: seq<Event>)
    returns (i: nat, j: nat, id: PoolId, pgNum: int)
    requires Launched(r0) && Sound(r0) && Run(r0, es).state == Complete && !Run(r0, es).error
    ensures i < j < |es|
    ensures ShowsPool(Run(r0, es), es[i], id, pgNum) && ShowsPgs(es[j], id, pgNum)
  {
    LaunchedIsSound(r0);
    var n := |es| - 1;
    assert es != [];
    var r := Run(r0, es[..n]);
    RunStays(r0, es[..n]);
    StepStays(r, es[n]);
    if r.state == Complete {
      i, j, id, pgNum := PoolReallyCreated(r0, es[..n]);
    } else {
      CompletionSeesPgs(r, es[n]);
      i := WhenPoolWasFound(r0, es[..n]);
      j, id, pgNum := n, r.newPoolId.value, r.pgCount;
    }
  }
}
