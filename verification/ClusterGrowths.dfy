// What growths and creations of pools amount to in a whole run of the cluster: their results, said of
// the messages that the manager was given and of the OSD map that it stored.
module ClusterGrowths {
  import opened Wrappers
  import opened PgDigest
  import opened SyncTypes
  import opened SyncMirror
  import opened Requests
  import opened RequestIndex
  import RequestRuns
  import opened PoolGrowth
  import opened GrowthRuns
  import GrowthLimits
  import PoolRuns
  import opened Wakeups
  import opened Cluster
  import opened ClusterSteps
  import opened ClusterRuns
  import opened Deliveries

  function At(ws: seq<World>, i: nat, id: RequestId): Request
    requires i < |ws| && id in ws[i].monitor.requests.requests
  {
    ws[i].monitor.requests.requests[id]
  }

  // ---------------------------------------------------------------- summaries that run ahead

  // The step delivers a PG summary that reports the final count of a growth which has tranches to go.
  ghost predicate RunsAhead(w: World, e: Event, id: RequestId)
    requires Total(w.monitor.mirrors)
  {
    && e.Deliver? && e.msg.MapReply? && !e.msg.failed && IsSubmitted(w.monitor.requests, id)
    && IsNews(e.msg.t, w.monitor.mirrors[e.msg.t], e.msg.o.version)
    && Overshoots(w.monitor.requests.requests[id], RequestRuns.MapArrives(e.msg.t, e.msg.o, None, e.msg.now))
  }

  ghost predicate RanAhead(ws: seq<World>, es: seq<Event>, i: nat, id: RequestId)
    requires |ws| == |es| + 1 && i <= |es| && Mirrored(ws, i)
  {
    exists k :: 0 <= k < i && RunsAhead(ws[k], es[k], id)
  }

  lemma OvershotNone(r0: Request)
    requires Sound(r0)
    ensures !Overshot(r0, [])
  {
  }

  lemma OvershotOne(r0: Request, events: seq<RequestRuns.Event>, e: RequestRuns.Event)
    requires Sound(r0)
    ensures Overshot(r0, events + [e]) <==> Overshot(r0, events) || Overshoots(RequestRuns.Run(r0, events), e)
  {
    assert (events + [e])[..|events|] == events;
  }

  // Only a PG summary can overshoot.
  predicate Harmless(e: RequestRuns.Event) {
    !(e.MapArrives? && e.t == PgSummary)
  }

  lemma {:induction false} OvershotHarmless(r0: Request, events: seq<RequestRuns.Event>, fs: seq<RequestRuns.Event>)
    requires Sound(r0) && forall i :: 0 <= i < |fs| ==> Harmless(fs[i])
    ensures Overshot(r0, events + fs) <==> Overshot(r0, events)
  {
    if fs == [] {
      assert events + fs == events;
    } else {
      var init, last := fs[..|fs| - 1], fs[|fs| - 1];
      OvershotHarmless(r0, events, init);
      assert events + fs == events + init + [last];
      OvershotOne(r0, events + init, last);
    }
  }

  ghost predicate IsTold(w: World, msg: Message, id: RequestId)
    requires Total(w.monitor.mirrors)
  {
    && msg.MapReply? && !msg.failed && IsSubmitted(w.monitor.requests, id)
    && IsNews(msg.t, w.monitor.mirrors[msg.t], msg.o.version)
  }

  lemma HeardShapes(w: World, msg: Message, w': World, id: RequestId)
    requires Total(w.monitor.mirrors) && id in w.monitor.requests.requests && id in w'.monitor.requests.requests
    ensures var fs, r' := Heard(w, msg, w', id), w'.monitor.requests.requests[id];
            if IsTold(w, msg, id) then fs == [RequestRuns.MapArrives(msg.t, msg.o, r'.jid, msg.now)]
            else forall i :: 0 <= i < |fs| ==> Harmless(fs[i])
  {
  }

  // The end of a job, and a map that is handed over then, do not overshoot; nor does notice.
  lemma OvershotStep(r0: Request, events: seq<RequestRuns.Event>, w: World, msg: Message, w': World, id: RequestId)
    requires Sound(r0) && Total(w.monitor.mirrors)
    requires id in w.monitor.requests.requests && id in w'.monitor.requests.requests
    requires RequestRuns.Run(r0, events) == w.monitor.requests.requests[id]
    ensures Overshot(r0, events + Heard(w, msg, w', id)) <==>
            Overshot(r0, events) || RunsAhead(w, Deliver(msg), id)
  {
    hide Heard;
    HeardShapes(w, msg, w', id);
    if IsTold(w, msg, id) {
      OvershotOne(r0, events, Heard(w, msg, w', id)[0]);
    } else {
      OvershotHarmless(r0, events, Heard(w, msg, w', id));
    }
  }

  lemma StaysFiled(ws: seq<World>, es: seq<Event>, k: nat, i: nat, id: RequestId)
    requires IsRun(ws, es) && k <= i <= |es| && HasRequest(ws, k, id)
    ensures HasRequest(ws, i, id)
  {
    RunFollows(ws, es, k, i);
  }

  // What a request hears overshoots exactly if some step of the run delivers such a summary.
  lemma {:induction false} OvershotExactly(ws: seq<World>, es: seq<Event>, i: nat, id: RequestId)
    requires IsRun(ws, es) && i <= |es| && HasRequest(ws, i, id)
    ensures Mirrored(ws, i) && Sound(Entered(ws, i, id))
    ensures Overshot(Entered(ws, i, id), HeardBy(ws, es, i, id)) <==> RanAhead(ws, es, i, id)
  {
    hide IsRun, Next, Inv, Overshot, RunsAhead, HeardIn, Sound, RequestRuns.Run;
    RequestIsItsRun(ws, es, i, id);
    if i == 0 || !HasRequest(ws, i - 1, id) {
      OvershotNone(Entered(ws, i, id));
      forall k | 0 <= k < i
        ensures !RunsAhead(ws[k], es[k], id)
      {
        NotAhead(ws, es, k, i, id);
      }
    } else {
      OvershotExactly(ws, es, i - 1, id);
      RequestIsItsRun(ws, es, i - 1, id);
      OvershotHeard(ws, es, i - 1, id);
      RanAheadNext(ws, es, i - 1, id);
    }
  }

  lemma RanAheadNext(ws: seq<World>, es: seq<Event>, k: nat, id: RequestId)
    requires IsRun(ws, es) && k < |es| && Mirrored(ws, k + 1)
    ensures RanAhead(ws, es, k + 1, id) <==> RanAhead(ws, es, k, id) || RunsAhead(ws[k], es[k], id)
  {
  }

  lemma NotAhead(ws: seq<World>, es: seq<Event>, k: nat, i: nat, id: RequestId)
    requires IsRun(ws, es) && k < i <= |es| && Mirrored(ws, i) && !HasRequest(ws, i - 1, id)
    ensures !RunsAhead(ws[k], es[k], id)
  {
    if HasRequest(ws, k, id) {
      StaysFiled(ws, es, k, i - 1, id);
    }
  }

  lemma OvershotHeard(ws: seq<World>, es: seq<Event>, k: nat, id: RequestId)
    requires IsRun(ws, es) && k < |es| && Mirrored(ws, k) && HasRequest(ws, k, id) && HasRequest(ws, k + 1, id)
    requires Sound(Entered(ws, k, id))
    requires ws[k].monitor.requests.requests[id] == RequestRuns.Run(Entered(ws, k, id), HeardBy(ws, es, k, id))
    ensures Overshot(Entered(ws, k, id), HeardBy(ws, es, k, id) + HeardIn(ws, es, k, id)) <==>
            Overshot(Entered(ws, k, id), HeardBy(ws, es, k, id)) || RunsAhead(ws[k], es[k], id)
  {
    var events := HeardBy(ws, es, k, id);
    hide HeardBy, IsRun, Next, Heard;
    if es[k].Publish? {
      assert events + [] == events;
    } else {
      OvershotStep(Entered(ws, k, id), events, ws[k], es[k].msg, ws[k + 1], id);
    }
  }

  // ---------------------------------------------------------------- growths

  // A growth of the run, as its own run.
  lemma GrowthRun(ws: seq<World>, es: seq<Event>, i: nat, id: RequestId)
    requires IsRun(ws, es) && i <= |es| && HasRequest(ws, i, id) && IsGrowth(At(ws, i, id).plan)
    ensures Mirrored(ws, i) && Sound(Entered(ws, i, id)) && Launched(Entered(ws, i, id))
    ensures Entered(ws, i, id).plan == At(ws, i, id).plan
    ensures At(ws, i, id) == RequestRuns.Run(Entered(ws, i, id), HeardBy(ws, es, i, id))
    ensures Overshot(Entered(ws, i, id), HeardBy(ws, es, i, id)) <==> RanAhead(ws, es, i, id)
  {
    hide IsRun, RanAhead, Overshot, HeardBy;
    RequestIsItsRun(ws, es, i, id);
    OvershotExactly(ws, es, i, id);
    var favorite :| Enters(Entered(ws, i, id), favorite);
    EntersLaunched(Entered(ws, i, id), favorite);
  }

  lemma EntersLaunched(r: Request, favorite: Option<Minion>)
    requires Enters(r, favorite)
    ensures IsGrowth(r.plan) ==> Launched(r)
    ensures r.plan.PoolCreating? ==> PoolRuns.Launched(r)
  {
    var plan, minion, jid, now :|
      && Creatable(plan) && (plan.SaltCall? || favorite == Some(minion))
      && r == Requests.Submit(NewRequest(plan), minion, Some(jid), now).r;
  }

  // A growth that completes without error has submitted its whole script, pgp_num last, exactly when
  // no summary that it was told of reported the final count before the last tranche.
  lemma GrowthsComplete(ws: seq<World>, es: seq<Event>, i: nat, id: RequestId)
    requires IsRun(ws, es) && i <= |es| && HasRequest(ws, i, id) && IsGrowth(At(ws, i, id).plan)
    requires At(ws, i, id).state == Complete && !At(ws, i, id).error
    ensures Mirrored(ws, i)
    ensures var r := At(ws, i, id);
            r.jobs == Script(r.plan, Tranches(r.plan) + 1) <==> !RanAhead(ws, es, i, id)
  {
    hide Next, RanAhead, Overshot, HeardBy;
    GrowthRun(ws, es, i, id);
    GrowthCompletes(Entered(ws, i, id), HeardBy(ws, es, i, id));
  }

  // So whatever else goes on in the cluster, a growth submits the jobs of its script in order, and
  // at most one a tranche and one more.
  lemma GrowthsKeepToTheirScript(ws: seq<World>, es: seq<Event>, i: nat, id: RequestId)
    requires IsRun(ws, es) && i <= |es| && id in ws[i].monitor.requests.requests
    requires IsGrowth(ws[i].monitor.requests.requests[id].plan)
    ensures var r := ws[i].monitor.requests.requests[id];
            && 1 <= |r.jobs| <= Tranches(r.plan) + 1
            && r.jobs == Script(r.plan, |r.jobs|)
  {
    hide Next, HeardBy, Entered, RequestRuns.Run;
    GrowthRun(ws, es, i, id);
    GrowthJobs(Entered(ws, i, id), HeardBy(ws, es, i, id));
  }

  // What a growth of the run does next, if it goes on to a further tranche.
  lemma NextTranche(ws: seq<World>, es: seq<Event>, i: nat, id: RequestId, e: RequestRuns.Event,
                    osdMap: SyncObject, pre: seq<Command>, pgNum: int, pgpNum: Option<int>, maxSplitCount: nat)
    requires IsRun(ws, es) && i <= |es| && HasRequest(ws, i, id)
    requires var r := At(ws, i, id);
             && IsGrowth(r.plan) && 0 <= r.plan.initial && r.plan.poolId in Pools(osdMap)
             && r.plan == GrowthLimits.GrowthPlan(osdMap, r.plan.poolId, pre, pgNum, pgpNum, maxSplitCount)
             && Sound(r) && |r.jobs| < |RequestRuns.Step(r, e).jobs| <= Tranches(r.plan)
    ensures var r := At(ws, i, id);
            var goal, next := PlanGoal(r.plan, |r.jobs|), PlanGoal(r.plan, |r.jobs| + 1);
            && r.state == Submitted && r.phase == PgMapWait
            && r.progress.Some? && r.progress.value.goal == goal
            && RequestRuns.Step(r, e).jobs == r.jobs + [[SetPgNum(r.plan.growName, next)]]
            && SplitAllowed(maxSplitCount, osdMap.data.osdCount, goal, next)
  {
    hide Next, HeardBy, Entered, RequestRuns.Run, PlanGoal, SplitAllowed, OnScript, Overshot;
    GrowthRun(ws, es, i, id);
    var r, r0, events := At(ws, i, id), Entered(ws, i, id), HeardBy(ws, es, i, id);
    RunOnScript(r0, events);
    JobAnswersSummary(r, e, Overshot(r0, events));
    GrowthLimits.JobsRespectLimit(osdMap, r, e, Overshot(r0, events), maxSplitCount, pre, pgNum, pgpNum);
  }

  // While the number of OSDs stays what it was, each later pg_num command of a growth takes it from the
  // PG count of one tranche to that of the next, which is within the mons' limit for the former. That
  // is the count which the stored OSD map shows when the command is sent, exactly if no map was stored
  // untold during the tranche.
  lemma TranchesStayWithinLimit(ws: seq<World>, es: seq<Event>, i: nat, id: RequestId, e: RequestRuns.Event,
                                osdMap: SyncObject, pre: seq<Command>, pgNum: int, pgpNum: Option<int>,
                                maxSplitCount: nat)
    requires IsRun(ws, es) && i <= |es| && HasRequest(ws, i, id)
    requires var r := At(ws, i, id);
             && IsGrowth(r.plan) && 0 <= r.plan.initial && r.plan.poolId in Pools(osdMap)
             && r.plan == GrowthLimits.GrowthPlan(osdMap, r.plan.poolId, pre, pgNum, pgpNum, maxSplitCount)
             && Sound(r) && |r.jobs| < |RequestRuns.Step(r, e).jobs| <= Tranches(r.plan)
    ensures Inv(ws[i]) && forall n :: 0 <= n <= i ==> Total(ws[n].monitor.mirrors)
    ensures var r, stored := At(ws, i, id), ws[i].monitor.mirrors[OsdMap].stored;
            var goal, next := PlanGoal(r.plan, |r.jobs|), PlanGoal(r.plan, |r.jobs| + 1);
            && r.progress.Some? && r.progress.value.goal == goal
            && RequestRuns.Step(r, e).jobs == r.jobs + [[SetPgNum(r.plan.growName, next)]]
            && SplitAllowed(maxSplitCount, osdMap.data.osdCount, goal, next)
            && (r.plan.poolId in Pools(stored) && Pools(stored)[r.plan.poolId].pgNum == goal <==>
                !Overlooked(ws, es, i, id, Tranche(|r.jobs|)))
  {
    hide Next, Overlooked, PlanGoal, SplitAllowed;
    NextTranche(ws, es, i, id, e, osdMap, pre, pgNum, pgpNum, maxSplitCount);
    GoalIsShown(ws, es, i, id);
  }

  // The step tells a growth of enough PGs, and the growth answers with the last of its jobs.
  ghost predicate SendsPgpNum(w: World, e: Event, w': World, id: RequestId) {
    && id in w.monitor.requests.requests && id in w'.monitor.requests.requests
    && var r, r' := w.monitor.requests.requests[id], w'.monitor.requests.requests[id];
       && IsGrowth(r.plan)
       && e.Deliver? && e.msg.MapReply? && e.msg.t == PgSummary && r.plan.poolId in PoolTallies(e.msg.o)
       && NotCreating(PoolTallies(e.msg.o)[r.plan.poolId]) >= r.plan.final
       && |r.jobs| == Tranches(r.plan) && |r'.jobs| == Tranches(r.plan) + 1
  }

  // The step completes a growth, and the OSD map that is stored then shows the final PG count.
  ghost predicate CompletesGrowth(w: World, w': World, id: RequestId) {
    && IsSubmitted(w.monitor.requests, id) && id in w'.monitor.requests.requests && OsdMap in w'.monitor.mirrors
    && var r, stored := w'.monitor.requests.requests[id], w'.monitor.mirrors[OsdMap].stored;
       && r.state == Complete && r.plan.PgCreating? && r.plan.poolId in Pools(stored)
       && Pools(stored)[r.plan.poolId].pgNum == r.plan.final
  }

  // ---------------------------------------------------------------- the steps behind the events

  // A map that reaches a request when its job ends is the OSD map that is stored.
  lemma OtherShapes(w: World, msg: Message, w': World, id: RequestId, n: nat)
    requires Total(w.monitor.mirrors) && id in w.monitor.requests.requests && id in w'.monitor.requests.requests
    requires !IsTold(w, msg, id) && n < |Heard(w, msg, w', id)| && Heard(w, msg, w', id)[n].MapArrives?
    ensures var fs := Heard(w, msg, w', id);
            && msg.JobReply? && n == 1 && |fs| == 2 && fs[0].JobDone?
            && fs[1].t == OsdMap && fs[1].o == w.monitor.mirrors[OsdMap].stored
            && IsSubmitted(w.monitor.requests, id)
  {
  }

  // The step found the request as the first `n` of these events had left it, and left it as the
  // first `n + m` do.
  ghost predicate TookOn(ws: seq<World>, es: seq<Event>, id: RequestId, r0: Request, events: seq<RequestRuns.Event>,
                         k: nat, n: nat, m: nat)
    requires |ws| == |es| + 1 && k < |es| && Sound(r0) && n + m <= |events|
  {
    && HasRequest(ws, k, id) && HasRequest(ws, k + 1, id)
    && At(ws, k, id) == RequestRuns.Run(r0, events[..n])
    && At(ws, k + 1, id) == RequestRuns.Run(r0, events[..n + m])
  }

  lemma Locate(ws: seq<World>, es: seq<Event>, i: nat, id: RequestId, p: nat) returns (k: nat)
    requires IsRun(ws, es) && i <= |es| && Mirrored(ws, i) && HasRequest(ws, i, id)
    requires p < |HeardBy(ws, es, i, id)|
    ensures Sound(Entered(ws, i, id)) && DeliveredBy(ws, es, i, id, p, k)
    ensures TookOn(ws, es, id, Entered(ws, i, id), HeardBy(ws, es, i, id), k,
                   |HeardBy(ws, es, k, id)|, |HeardIn(ws, es, k, id)|)
    ensures HeardIn(ws, es, k, id)[p - |HeardBy(ws, es, k, id)|] == HeardBy(ws, es, i, id)[p]
  {
    hide Next, HeardIn, RequestRuns.Run, HeardBy, Entered, Sound;
    k := WhoDelivered(ws, es, i, id, p);
    RequestIsItsRun(ws, es, i, id);
    RequestIsItsRun(ws, es, k, id);
    RequestIsItsRun(ws, es, k + 1, id);
    NextHeard(ws, es, k, id);
    SplitAt(HeardBy(ws, es, i, id), HeardBy(ws, es, k, id), HeardIn(ws, es, k, id), p);
  }

  lemma NextHeard(ws: seq<World>, es: seq<Event>, k: nat, id: RequestId)
    requires |ws| == |es| + 1 && k < |es| && Mirrored(ws, k + 1) && HasRequest(ws, k, id) && HasRequest(ws, k + 1, id)
    ensures Entered(ws, k + 1, id) == Entered(ws, k, id)
    ensures HeardBy(ws, es, k + 1, id) == HeardBy(ws, es, k, id) + HeardIn(ws, es, k, id)
  {
  }

  lemma SplitAt<T>(events: seq<T>, before: seq<T>, heard: seq<T>, p: nat)
    requires |before| <= p < |before| + |heard| <= |events|
    requires events[..|before|] == before && events[|before|..|before| + |heard|] == heard
    ensures events[..|before| + |heard|] == before + heard && heard[p - |before|] == events[p]
  {
  }

  // The events that a request heard of first were delivered first.
  lemma {:induction false} HeardGrows(ws: seq<World>, es: seq<Event>, k: nat, i: nat, id: RequestId)
    requires IsRun(ws, es) && k <= i <= |es| && Mirrored(ws, i) && HasRequest(ws, k, id)
    ensures HasRequest(ws, i, id) && |HeardBy(ws, es, k, id)| <= |HeardBy(ws, es, i, id)|
  {
    hide Next, HeardIn;
    StaysFiled(ws, es, k, i, id);
    if k < i {
      HeardGrows(ws, es, k, i - 1, id);
    }
  }

  lemma InOrder(ws: seq<World>, es: seq<Event>, i: nat, id: RequestId, p: nat, q: nat, k1: nat, k2: nat)
    requires IsRun(ws, es) && i <= |es| && Mirrored(ws, i) && HasRequest(ws, i, id)
    requires p < q < |HeardBy(ws, es, i, id)| && DeliveredBy(ws, es, i, id, p, k1) && DeliveredBy(ws, es, i, id, q, k2)
    ensures k1 < i && k2 < i
    ensures k1 <= k2 && (|HeardIn(ws, es, k1, id)| == 1 || |HeardIn(ws, es, k2, id)| == 1 ==> k1 < k2)
  {
    hide Next, HeardIn;
    if k2 < k1 {
      HeardGrows(ws, es, k2 + 1, k1, id);
    }
  }

  // A message that brings a PG summary, one of the events that a request hears of.
  ghost predicate BroughtSummary(ws: seq<World>, es: seq<Event>, id: RequestId, r0: Request,
                                 events: seq<RequestRuns.Event>, p: nat, k: nat)
    requires |ws| == |es| + 1 && k < |es| && Sound(r0) && p < |events| && events[p].MapArrives?
  {
    && es[k].Deliver? && es[k].msg.MapReply? && es[k].msg.t == PgSummary && es[k].msg.o == events[p].o
    && TookOn(ws, es, id, r0, events, k, p, 1)
  }

  lemma WhoBroughtSummary(ws: seq<World>, es: seq<Event>, i: nat, id: RequestId, p: nat) returns (k: nat)
    requires IsRun(ws, es) && i <= |es| && Mirrored(ws, i) && HasRequest(ws, i, id) && p < |HeardBy(ws, es, i, id)|
    requires HeardBy(ws, es, i, id)[p].MapArrives? && HeardBy(ws, es, i, id)[p].t == PgSummary
    ensures Sound(Entered(ws, i, id)) && DeliveredBy(ws, es, i, id, p, k) && |HeardIn(ws, es, k, id)| == 1
    ensures BroughtSummary(ws, es, id, Entered(ws, i, id), HeardBy(ws, es, i, id), p, k)
  {
    hide Next, HeardBy, Heard, RequestRuns.Run, Entered;
    k := Locate(ws, es, i, id, p);
    HeardShapes(ws[k], es[k].msg, ws[k + 1], id);
  }

  // An OSD map that a request hears of is the one that is stored after the step.
  ghost predicate BroughtOsdMap(ws: seq<World>, es: seq<Event>, id: RequestId, r0: Request,
                                events: seq<RequestRuns.Event>, p: nat, k: nat)
    requires |ws| == |es| + 1 && k < |es| && Sound(r0) && p < |events| && events[p].MapArrives?
  {
    && OsdMap in ws[k + 1].monitor.mirrors && ws[k + 1].monitor.mirrors[OsdMap].stored == events[p].o
    && (TookOn(ws, es, id, r0, events, k, p, 1) || (p > 0 && TookOn(ws, es, id, r0, events, k, p - 1, 2)))
    && IsSubmitted(ws[k].monitor.requests, id)
  }

  lemma WhoBroughtOsdMap(ws: seq<World>, es: seq<Event>, i: nat, id: RequestId, p: nat) returns (k: nat)
    requires IsRun(ws, es) && i <= |es| && Mirrored(ws, i) && HasRequest(ws, i, id) && p < |HeardBy(ws, es, i, id)|
    requires HeardBy(ws, es, i, id)[p].MapArrives? && HeardBy(ws, es, i, id)[p].t == OsdMap
    ensures Sound(Entered(ws, i, id)) && DeliveredBy(ws, es, i, id, p, k)
    ensures BroughtOsdMap(ws, es, id, Entered(ws, i, id), HeardBy(ws, es, i, id), p, k)
  {
    hide HeardBy, Heard, RequestRuns.Run, Entered, Inv, Handle, Possible, AllTold, AllCarry, Sound, Kept;
    k := Locate(ws, es, i, id, p);
    RunKeeps(ws, es, k);
    HandleKeeps(ws[k], es[k].msg);
    HeardShapes(ws[k], es[k].msg, ws[k + 1], id);
    if !IsTold(ws[k], es[k].msg, id) {
      OtherShapes(ws[k], es[k].msg, ws[k + 1], id, p - |HeardBy(ws, es, k, id)|);
    }
  }

  // A growth that completes without error, and was told of no summary that ran ahead, really finished:
  // some step told it of the final number of PGs, and only then was pgp_num set; and after that it was
  // completed, the OSD map that is stored then showing the final PG count.
  lemma GrowthsFinish(ws: seq<World>, es: seq<Event>, i: nat, id: RequestId) returns (k1: nat, k2: nat)
    requires IsRun(ws, es) && i <= |es| && HasRequest(ws, i, id) && IsGrowth(At(ws, i, id).plan)
    requires At(ws, i, id).state == Complete && !At(ws, i, id).error
    requires Mirrored(ws, i) && !RanAhead(ws, es, i, id)
    ensures k1 < k2 < i
    ensures SendsPgpNum(ws[k1], es[k1], ws[k1 + 1], id)
    ensures CompletesGrowth(ws[k2], ws[k2 + 1], id)
  {
    hide Next, RanAhead, Overshot, HeardBy, RequestRuns.Run, Entered, DeliveredBy, HeardIn, Sound;
    GrowthRun(ws, es, i, id);
    var r0, events := Entered(ws, i, id), HeardBy(ws, es, i, id);
    var a, b := GrowthReallyFinished(r0, events);
    k1 := WhoBroughtSummary(ws, es, i, id, a);
    k2 := WhoBroughtOsdMap(ws, es, i, id, b);
    InOrder(ws, es, i, id, a, b, k1, k2);
  }

  // ---------------------------------------------------------------- creations of pools

  // The OSD map that is stored after the step has the new pool, and is at least as new as the one that
  // the request's job made.
  ghost predicate StoresPool(w': World, r: Request, pool: PoolId, pgNum: int) {
    && OsdMap in w'.monitor.mirrors && r.plan.PoolCreating?
    && var stored := w'.monitor.mirrors[OsdMap].stored;
       && AtMost(r.awaitVersion, stored.version)
       && pool in Pools(stored) && Pools(stored)[pool] == Pool(r.plan.poolName, pgNum)
  }

  // The step brings a PG summary in which so many PGs of the pool are out of 'creating'.
  ghost predicate BringsPgs(e: Event, pool: PoolId, count: int) {
    && e.Deliver? && e.msg.MapReply? && e.msg.t == PgSummary && pool in PoolTallies(e.msg.o)
    && NotCreating(PoolTallies(e.msg.o)[pool]) >= count
  }

  // The creation of a pool that completes without error really finished: an OSD map as new as its
  // job's was stored and had the pool, and after that a PG summary showed all of the pool's PGs out of
  // 'creating'.
  lemma PoolsAreCreated(ws: seq<World>, es: seq<Event>, i: nat, id: RequestId)
    returns (k1: nat, k2: nat, pool: PoolId, pgNum: int)
    requires IsRun(ws, es) && i <= |es| && HasRequest(ws, i, id) && At(ws, i, id).plan.PoolCreating?
    requires At(ws, i, id).state == Complete && !At(ws, i, id).error
    ensures k1 < k2 < i
    ensures StoresPool(ws[k1 + 1], At(ws, i, id), pool, pgNum) && BringsPgs(es[k2], pool, pgNum)
  {
    hide Next, HeardBy, RequestRuns.Run, Entered, DeliveredBy, HeardIn, Sound, Enters;
    RequestIsItsRun(ws, es, i, id);
    var r0, events := Entered(ws, i, id), HeardBy(ws, es, i, id);
    var favorite :| Enters(r0, favorite);
    EntersLaunched(r0, favorite);
    var a, b;
    a, b, pool, pgNum := PoolRuns.PoolReallyCreated(r0, events);
    k1 := WhoBroughtOsdMap(ws, es, i, id, a);
    k2 := WhoBroughtSummary(ws, es, i, id, b);
    InOrder(ws, es, i, id, a, b, k1, k2);
  }
}
