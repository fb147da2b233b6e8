// Whole runs of the manager and its cluster: what holds in every world that a run reaches,
// whatever replies are lost, duplicated or late.
module ClusterRuns {
  import opened Wrappers
  import opened SyncTypes
  import opened SyncMirror
  import opened Requests
  import opened RequestIndex
  import RequestRuns
  import opened CollectionRuns
  import opened Wakeups
  import opened Cluster
  import opened ClusterSteps

  // ---------------------------------------------------------------- reachable worlds

  lemma {:induction false} RunKeeps(ws: seq<World>, es: seq<Event>, i: nat)
    requires IsRun(ws, es) && i <= |es|
    ensures Inv(ws[i])
  {
    if i == 0 {
      InitialInv(ws[0]);
    } else {
      RunKeeps(ws, es, i - 1);
      NextKeeps(ws[i - 1], es[i - 1], ws[i]);
    }
  }

  // What a later world has of an earlier one.
  ghost predicate Follows(w: World, w': World)
    requires Inv(w) && Inv(w')
  {
    && StoredRises(w.monitor.mirrors, w'.monitor.mirrors)
    && forall id :: id in w.monitor.requests.requests ==>
         && id in w'.monitor.requests.requests
         && Evolves(w.monitor.requests.requests[id], w'.monitor.requests.requests[id])
  }

  lemma EvolvesOn(r: Request, r1: Request, r2: Request)
    requires Evolves(r, r1) && Evolves(r1, r2)
    ensures Evolves(r, r2)
  {
    var es :| r1 == RequestRuns.Run(r, es);
    var fs :| r2 == RequestRuns.Run(r1, fs);
    RequestRuns.RunConcat(r, es, fs);
  }

  lemma {:induction false} RunFollows(ws: seq<World>, es: seq<Event>, i: nat, j: nat)
    requires IsRun(ws, es) && i <= j <= |es|
    ensures Inv(ws[i]) && Inv(ws[j]) && Follows(ws[i], ws[j])
  {
    hide Inv, Next, Follows;
    if i == j {
      RunKeeps(ws, es, i);
      FollowsItself(ws[i]);
    } else {
      RunFollows(ws, es, i, j - 1);
      RunFollowsOn(ws, es, i, j - 1);
    }
  }

  lemma FollowsItself(w: World)
    requires Inv(w)
    ensures Follows(w, w)
  {
    NothingHappens(w.monitor.requests, w.monitor.mirrors[OsdMap].stored, None);
  }

  lemma RunFollowsOn(ws: seq<World>, es: seq<Event>, i: nat, j: nat)
    requires IsRun(ws, es) && i <= j < |es|
    requires Inv(ws[i]) && Inv(ws[j]) && Follows(ws[i], ws[j])
    ensures Inv(ws[j + 1]) && Follows(ws[i], ws[j + 1])
  {
    FollowsNext(ws[i], ws[j], es[j], ws[j + 1]);
  }

  lemma FollowsNext(w: World, w1: World, e: Event, w2: World)
    requires Inv(w) && Inv(w1) && Follows(w, w1) && Next(w1, e, w2)
    ensures Inv(w2) && Follows(w, w2)
  {
    hide Next, MirrorsSafe, MirrorsUnderRepair, AllGrounded, FavoriteOnly, Agreed, Evolves;
    NextKeeps(w1, e, w2);
    var c, c1, c2 := w.monitor.requests, w1.monitor.requests, w2.monitor.requests;
    forall id | id in c.requests
      ensures id in c2.requests && Evolves(c.requests[id], c2.requests[id])
    {
      EvolvesOn(c.requests[id], c1.requests[id], c2.requests[id]);
    }
  }

  // ---------------------------------------------------------------- the mirrors

  // However the replies to fetches are lost, repeated or reordered, a stored epoch never falls,
  // is never beyond what is known or what the cluster has reached, and comes with its own data.
  lemma MirrorsAreSafe(ws: seq<World>, es: seq<Event>, i: nat, j: nat, t: SyncType)
    requires IsRun(ws, es) && i <= j <= |es| && Ordered(t)
    ensures Inv(ws[i]) && Inv(ws[j])
    ensures AtMost(ws[i].monitor.mirrors[t].stored.version, ws[j].monitor.mirrors[t].stored.version)
    ensures var m, history := ws[j].monitor.mirrors[t], ws[j].history[t];
            && AtMost(m.stored.version, m.known)
            && (m.known.Some? ==> m.known.value <= |history|)
            && (m.stored.version.Some? ==>
                  1 <= m.stored.version.value <= |history| && m.stored.data == history[m.stored.version.value - 1])
  {
    RunFollows(ws, es, i, j);
    assert Safe(t, ws[j].monitor.mirrors[t], ws[j].history[t]);
  }

  // A mirror that knows of something better than it holds has a fetch marked.
  lemma StaleMirrorsAreRepaired(ws: seq<World>, es: seq<Event>, i: nat, t: SyncType)
    requires IsRun(ws, es) && i <= |es|
    ensures Inv(ws[i])
    ensures var m := ws[i].monitor.mirrors[t];
            Cmp(t, m.known, m.stored.version) > 0 ==> m.fetchingAt.Some?
  {
    RunKeeps(ws, es, i);
    assert UnderRepair(t, ws[i].monitor.mirrors[t]);
  }

  // ---------------------------------------------------------------- lost wakeups

  // The step stores a new OSD map, and the registry fails on it, so that no request is told.
  ghost predicate StoresUntold(w: World, e: Event)
    requires Total(w.monitor.mirrors)
  {
    e.Deliver? && StoresOsdMap(w.monitor, e.msg) && e.msg.failed
  }

  // The OSD map that is stored after `i` steps was stored untold by the k-th.
  ghost predicate UntoldSince(ws: seq<World>, es: seq<Event>, k: nat, i: nat)
    requires |ws| == |es| + 1 && k < i <= |es| && forall n :: 0 <= n <= i ==> Total(ws[n].monitor.mirrors)
  {
    && StoresUntold(ws[k], es[k])
    && forall n :: k < n < i ==> !(es[n].Deliver? && StoresOsdMap(ws[n].monitor, es[n].msg))
  }

  // The map leaves the request behind as it is.
  ghost predicate LeavesBehind(w: World, e: Event, id: RequestId, lag: Lag) {
    && e.Deliver? && e.msg.MapReply? && id in w.monitor.requests.requests
    && Behind(w.monitor.requests.requests[id], e.msg.o, lag)
  }

  ghost predicate Overlooked(ws: seq<World>, es: seq<Event>, i: nat, id: RequestId, lag: Lag)
    requires |ws| == |es| + 1 && i <= |es| && forall n :: 0 <= n <= i ==> Total(ws[n].monitor.mirrors)
  {
    exists k :: 0 <= k < i && UntoldSince(ws, es, k, i) && LeavesBehind(ws[k], es[k], id, lag)
  }

  lemma AllTotal(ws: seq<World>, es: seq<Event>, i: nat)
    requires IsRun(ws, es) && i <= |es|
    ensures forall n :: 0 <= n <= i ==> Total(ws[n].monitor.mirrors)
  {
    forall n | 0 <= n <= i
      ensures Total(ws[n].monitor.mirrors)
    {
      RunKeeps(ws, es, n);
    }
  }

  // One step more.
  lemma OverlookedNext(ws: seq<World>, es: seq<Event>, i: nat, id: RequestId, lag: Lag)
    requires IsRun(ws, es) && i < |es|
    ensures forall n :: 0 <= n <= i + 1 ==> Total(ws[n].monitor.mirrors)
    ensures Overlooked(ws, es, i + 1, id, lag) <==>
            if es[i].Deliver? && StoresOsdMap(ws[i].monitor, es[i].msg)
            then es[i].msg.failed && LeavesBehind(ws[i], es[i], id, lag)
            else Overlooked(ws, es, i, id, lag)
  {
    AllTotal(ws, es, i + 1);
    if es[i].Deliver? && StoresOsdMap(ws[i].monitor, es[i].msg) {
      assert es[i].msg.failed ==> UntoldSince(ws, es, i, i + 1);
    } else {
      assert forall k :: 0 <= k < i ==> (UntoldSince(ws, es, k, i + 1) <==> UntoldSince(ws, es, k, i));
    }
  }

  // A request is left behind in a step exactly if the step stores the map untold, or it was behind.
  lemma BehindNext(w: World, e: Event, w': World, id: RequestId, lag: Lag)
    requires Inv(w) && Next(w, e, w') && IsSubmitted(w'.monitor.requests, id)
    requires lag.Tranche? ==> |w'.monitor.requests.requests[id].jobs| <= lag.jobs
    ensures Inv(w')
    ensures id in w.monitor.requests.requests ==>
              && IsSubmitted(w.monitor.requests, id)
              && |w.monitor.requests.requests[id].jobs| <= |w'.monitor.requests.requests[id].jobs|
    ensures var c, before := w.monitor.requests, w.monitor.mirrors[OsdMap].stored;
            Behind(w'.monitor.requests.requests[id], w'.monitor.mirrors[OsdMap].stored, lag) <==>
            if e.Deliver? && StoresOsdMap(w.monitor, e.msg) then e.msg.failed && LeavesBehind(w, e, id, lag)
            else id in c.requests && Behind(c.requests[id], before, lag)
  {
    hide Inv, Handle, Possible, Kept, AllWellFormed, MissedWakeup, GoalHidden, Grounded;
    StayedSubmitted(w, e, w', id);
    if e.Deliver? {
      HandleKeeps(w, e.msg);
    }
  }

  lemma StayedSubmitted(w: World, e: Event, w': World, id: RequestId)
    requires Inv(w) && Next(w, e, w') && IsSubmitted(w'.monitor.requests, id)
    ensures Inv(w')
    ensures id in w.monitor.requests.requests ==>
              && IsSubmitted(w.monitor.requests, id)
              && |w.monitor.requests.requests[id].jobs| <= |w'.monitor.requests.requests[id].jobs|
  {
    hide Next, MirrorsSafe, MirrorsUnderRepair, AllGrounded, FavoriteOnly, StoredRises, Evolves, Sound;
    NextKeeps(w, e, w');
    if id in w.monitor.requests.requests {
      EvolvedStays(w.monitor.requests.requests[id], w'.monitor.requests.requests[id]);
    }
  }

  lemma {:induction false} NewIsNotOverlooked(ws: seq<World>, es: seq<Event>, i: nat, id: RequestId, lag: Lag)
    requires IsRun(ws, es) && i <= |es| && id !in ws[i].monitor.requests.requests
    ensures forall n :: 0 <= n <= i ==> Total(ws[n].monitor.mirrors)
    ensures !Overlooked(ws, es, i, id, lag)
  {
    AllTotal(ws, es, i);
    if i > 0 {
      RunKeeps(ws, es, i - 1);
      NextKeeps(ws[i - 1], es[i - 1], ws[i]);
      NewIsNotOverlooked(ws, es, i - 1, id, lag);
      OverlookedNext(ws, es, i - 1, id, lag);
    }
  }

  lemma NothingBehind(ws: seq<World>, es: seq<Event>, id: RequestId, lag: Lag)
    requires IsRun(ws, es)
    ensures !IsSubmitted(ws[0].monitor.requests, id)
  {
  }

  lemma {:induction false} BehindExactly(ws: seq<World>, es: seq<Event>, i: nat, id: RequestId, lag: Lag)
    requires IsRun(ws, es) && i <= |es| && IsSubmitted(ws[i].monitor.requests, id)
    requires lag.Tranche? ==> |ws[i].monitor.requests.requests[id].jobs| <= lag.jobs
    ensures Inv(ws[i]) && forall n :: 0 <= n <= i ==> Total(ws[n].monitor.mirrors)
    ensures Behind(ws[i].monitor.requests.requests[id], ws[i].monitor.mirrors[OsdMap].stored, lag) <==>
            Overlooked(ws, es, i, id, lag)
  {
    hide Inv, Next, Behind, LeavesBehind, UntoldSince, StoresOsdMap;
    RunKeeps(ws, es, i);
    AllTotal(ws, es, i);
    if i == 0 {
      NothingBehind(ws, es, id, lag);
    } else {
      RunKeeps(ws, es, i - 1);
      BehindNext(ws[i - 1], es[i - 1], ws[i], id, lag);
      OverlookedNext(ws, es, i - 1, id, lag);
      if id in ws[i - 1].monitor.requests.requests {
        BehindExactly(ws, es, i - 1, id, lag);
      } else {
        NewIsNotOverlooked(ws, es, i - 1, id, lag);
      }
    }
  }

  // Between steps, a request waits for an OSD map that is stored already exactly if it waited for
  // it when that map was stored, and the registry of servers failed on the map.
  lemma NoLostWakeup(ws: seq<World>, es: seq<Event>, i: nat, id: RequestId)
    requires IsRun(ws, es) && i <= |es| && IsSubmitted(ws[i].monitor.requests, id)
    ensures Inv(ws[i]) && forall n :: 0 <= n <= i ==> Total(ws[n].monitor.mirrors)
    ensures MissedWakeup(ws[i].monitor.requests.requests[id], ws[i].monitor.mirrors[OsdMap].stored) <==>
            Overlooked(ws, es, i, id, Wakeup)
  {
    BehindExactly(ws, es, i, id, Wakeup);
  }

  // While the PGs of a tranche are created, the stored OSD map shows the tranche's PG count, except
  // exactly if it was stored while the growth waited for them, and the registry failed on it.
  lemma GoalIsShown(ws: seq<World>, es: seq<Event>, i: nat, id: RequestId)
    requires IsRun(ws, es) && i <= |es| && IsSubmitted(ws[i].monitor.requests, id)
    requires var r := ws[i].monitor.requests.requests[id]; r.plan.PgCreating? && r.phase == PgMapWait
    ensures Inv(ws[i]) && forall n :: 0 <= n <= i ==> Total(ws[n].monitor.mirrors)
    ensures var r := ws[i].monitor.requests.requests[id];
            ShowsGoal(r, ws[i].monitor.mirrors[OsdMap].stored) <==>
            !Overlooked(ws, es, i, id, Tranche(|r.jobs|))
  {
    BehindExactly(ws, es, i, id, Tranche(|ws[i].monitor.requests.requests[id].jobs|));
  }

  // ---------------------------------------------------------------- read your writes

  ghost predicate EndsJobOf(w: World, e: Event, id: RequestId) {
    e.Deliver? && e.msg.JobReply? && Finishes(w.monitor.requests, e.msg.jid, id, e.msg.reply)
  }

  // The OSD map version that the last job of a request returned in the first `i` steps of a run.
  ghost function LastResult(ws: seq<World>, es: seq<Event>, i: nat, id: RequestId): Option<nat>
    requires |ws| == |es| + 1 && i <= |es|
  {
    if i == 0 then None
    else if EndsJobOf(ws[i - 1], es[i - 1], id) then
      Some(Result(ws[i - 1].monitor.requests.requests[id], es[i - 1].msg.reply))
    else LastResult(ws, es, i - 1, id)
  }

  lemma SameDrifts(c: Collection, id: RequestId)
    requires Agreed(c) && id in c.requests
    ensures RequestRuns.Drifts(c.requests[id], c.requests[id])
  {
    RequestRuns.StandsStill(c.requests[id]);
  }

  // Messages other than maps and the ends of jobs bring no news to a request.
  lemma OtherUndisturbed(w: World, msg: Message, id: RequestId)
    requires Inv(w) && Possible(w, msg) && !msg.MapReply? && !msg.JobReply? && id in w.monitor.requests.requests
    ensures id in Handle(w.monitor, msg).requests.requests
    ensures Undisturbed(w.monitor.requests.requests[id], Handle(w.monitor, msg).requests.requests[id])
  {
    hide Undisturbed, MirrorsSafe, MirrorsUnderRepair, AllGrounded, FavoriteOnly;
    hide FailAll, Tick, RequestIndex.OnTickResponse, RequestIndex.Cancel, RequestIndex.Submit, HearAll;
    var m, c := w.monitor, w.monitor.requests;
    Unchanged(c.requests[id]);
    match msg
    case Heartbeat(minion, versions, timeout, order, now) => FailAllUndisturbed(c, order);
    case StillRunning(jobs, now) => TickResponseUndisturbed(c, jobs, now);
    case ClockTick(order, done, now) => TickUndisturbed(c, order, done, now);
    case CancelRequest(cancelled) => CancelUndisturbed(c, cancelled);
    case ClusterRequest(newId, plan, accepts, now) =>
      if m.favorite.Some? {
        SubmitEffect(c, newId, plan, m.favorite.value, accepts, now);
      }
    case DebugJob(newId, call, minion, accepts, now) =>
      SubmitEffect(c, newId, SaltCall(call), minion, accepts, now);
  }

  lemma MapReplyDrifts(m: Monitor, minion: Minion, t: SyncType, o: SyncObject, order: seq<RequestId>,
                       refused: set<RequestId>, failed: bool, now: Time, id: RequestId)
    requires Total(m.mirrors) && Agreed(m.requests) && Enumerates(order, SubmittedIds(m.requests))
    requires id in m.requests.requests
    ensures var m' := OnSyncObject(m, minion, t, o, order, refused, failed, now);
            id in m'.requests.requests && RequestRuns.Drifts(m.requests.requests[id], m'.requests.requests[id])
  {
    var c := m.requests;
    SameDrifts(c, id);
    if IsNews(t, m.mirrors[t], o.version) {
      OnMapAllAgrees(c, order, SubmittedIds(c), t, o, refused, now);
      if IsSubmitted(c, id) {
        assert id in SubmittedIds(c);
        HandledDrifts(c.requests[id], OnMapAll(c, order, t, o, refused, now).requests[id], t, o, now);
      } else {
        assert id !in SubmittedIds(c);
      }
    }
  }

  // Any message but the end of a request's own job lets the request drift.
  lemma HandleDrifts(w: World, msg: Message, id: RequestId)
    requires Inv(w) && Possible(w, msg)
    requires id in w.monitor.requests.requests && !EndsJobOf(w, Deliver(msg), id)
    ensures var m' := Handle(w.monitor, msg);
            && id in m'.requests.requests
            && RequestRuns.Drifts(w.monitor.requests.requests[id], m'.requests.requests[id])
  {
    var m, c := w.monitor, w.monitor.requests;
    match msg
    case MapReply(minion, t, o, order, refused, failed, now) =>
      MapReplyDrifts(m, minion, t, o, order, refused, failed, now, id);
    case JobReply(jid, minion, reply, accepts, now) =>
      OnCompletionEffect(c, m.mirrors[OsdMap], jid, minion, reply, accepts, now);
      var out := OnCompletion(c, m.mirrors[OsdMap], jid, minion, reply, accepts, now);
      UndisturbedDrifts(c.requests[id], out.c.requests[id]);
    case _ =>
      OtherUndisturbed(w, msg, id);
      UndisturbedDrifts(c.requests[id], Handle(m, msg).requests.requests[id]);
  }

  // The end of its job makes a request await what the job returned.
  lemma FinishedAwaits(w: World, msg: Message, id: RequestId)
    requires Inv(w) && EndsJobOf(w, Deliver(msg), id) && AwaitsItsMap(w.monitor.requests.requests[id].plan)
    ensures var r, m' := w.monitor.requests.requests[id], Handle(w.monitor, msg);
            && id in m'.requests.requests && m'.requests.requests[id].plan == r.plan
            && m'.requests.requests[id].awaitVersion == Some(Result(r, msg.reply))
  {
    hide MirrorsUnderRepair, AllGrounded, FavoriteOnly, RequestRuns.Drifts;
    var c, m := w.monitor.requests, w.monitor.mirrors[OsdMap];
    var r := c.requests[id];
    OnCompletionFinishes(c, m, msg.jid, id, msg.minion, msg.reply, msg.accepts, msg.now);
    var r1 := RequestRuns.Step(r, RequestRuns.JobDone(Result(r, msg.reply)));
    CompleteJidIsSound(r, Result(r, msg.reply));
    RequestRuns.DriftStays(r1, Handle(w.monitor, msg).requests.requests[id]);
  }

  // A request awaits what its last job returned.
  ghost predicate AwaitsLastResult(ws: seq<World>, es: seq<Event>, i: nat, id: RequestId)
    requires |ws| == |es| + 1 && i <= |es|
  {
    var c := ws[i].monitor.requests;
    if id in c.requests
    then AwaitsItsMap(c.requests[id].plan) ==> c.requests[id].awaitVersion == LastResult(ws, es, i, id)
    else LastResult(ws, es, i, id) == None
  }

  lemma {:induction false} RunAwaitsLastResult(ws: seq<World>, es: seq<Event>, i: nat, id: RequestId)
    requires IsRun(ws, es) && i <= |es|
    ensures AwaitsLastResult(ws, es, i, id)
  {
    if i > 0 {
      RunAwaitsLastResult(ws, es, i - 1, id);
      StepAwaitsLastResult(ws, es, i - 1, id);
    }
  }

  lemma StepAwaitsLastResult(ws: seq<World>, es: seq<Event>, i: nat, id: RequestId)
    requires IsRun(ws, es) && i < |es| && AwaitsLastResult(ws, es, i, id)
    ensures AwaitsLastResult(ws, es, i + 1, id)
  {
    RunKeeps(ws, es, i);
    var w, e := ws[i], es[i];
    NextKeeps(w, e, ws[i + 1]);
    if id in w.monitor.requests.requests {
      if EndsJobOf(w, e, id) {
        if AwaitsItsMap(w.monitor.requests.requests[id].plan) {
          FinishedAwaits(w, e.msg, id);
        } else {
          EvolvedStays(w.monitor.requests.requests[id], ws[i + 1].monitor.requests.requests[id]);
        }
      } else if e.Deliver? {
        HandleDrifts(w, e.msg, id);
        RequestRuns.DriftStays(w.monitor.requests.requests[id], ws[i + 1].monitor.requests.requests[id]);
      }
    } else if id in ws[i + 1].monitor.requests.requests {
      assert Enters(ws[i + 1].monitor.requests.requests[id], w.monitor.favorite);
    }
  }

  // Once a request whose success shows in the OSD map is complete without error, the OSD map
  // stored is at least of the version that its last job returned, then and ever after.
  lemma ReadYourWrites(ws: seq<World>, es: seq<Event>, i: nat, j: nat, id: RequestId)
    requires IsRun(ws, es) && i <= j <= |es| && id in ws[i].monitor.requests.requests
    requires var r := ws[i].monitor.requests.requests[id];
             r.state == Complete && !r.error && AwaitsItsMap(r.plan)
    ensures LastResult(ws, es, i, id).Some?
    ensures Inv(ws[j]) && AtMost(LastResult(ws, es, i, id), ws[j].monitor.mirrors[OsdMap].stored.version)
    ensures id in ws[j].monitor.requests.requests
    ensures ws[j].monitor.requests.requests[id] == ws[i].monitor.requests.requests[id]
  {
    var r := ws[i].monitor.requests.requests[id];
    RunFollows(ws, es, i, j);
    RunAwaitsLastResult(ws, es, i, id);
    assert Grounded(r, ws[i].monitor.mirrors[OsdMap].stored);
    EvolvedStays(r, ws[j].monitor.requests.requests[id]);
  }

  // ---------------------------------------------------------------- the favourite

  // Every request under way in the cluster is with the mon that is the favourite now.
  lemma FavoriteIsExclusive(ws: seq<World>, es: seq<Event>, i: nat, id: RequestId)
    requires IsRun(ws, es) && i <= |es| && IsSubmitted(ws[i].monitor.requests, id)
    requires !ws[i].monitor.requests.requests[id].plan.SaltCall?
    ensures ws[i].monitor.favorite.Some? && ws[i].monitor.requests.requests[id].minion == ws[i].monitor.favorite
  {
    RunKeeps(ws, es, i);
  }

  // ---------------------------------------------------------------- the job index

  // Each request with a job out is found under that job, and each entry is of the request that
  // has that job out, unless the request has ended with an error.
  lemma IndexAgrees(ws: seq<World>, es: seq<Event>, i: nat)
    requires IsRun(ws, es) && i <= |es|
    ensures var c := ws[i].monitor.requests;
            && (forall id :: IsSubmitted(c, id) && c.requests[id].jid.Some? ==>
                  c.requests[id].jid.value in c.byJid && c.byJid[c.requests[id].jid.value] == id)
            && (forall j :: j in c.byJid ==>
                  && c.byJid[j] in c.requests
                  && var r := c.requests[c.byJid[j]];
                     r.jid == Some(j) || (r.state == Complete && r.error))
  {
    RunKeeps(ws, es, i);
    var c := ws[i].monitor.requests;
    forall j | j in c.byJid
      ensures c.byJid[j] in c.requests && Entry(c.requests[c.byJid[j]], j)
    {
    }
  }

  // A reply that leaves an entry behind: an error that the mon commands reported, or the end of a
  // growth's job when the stored OSD map has the awaited version, but not the pool.
  ghost predicate LeavesStale(w: World, e: Event) {
    && e.Deliver? && e.msg.JobReply? && Total(w.monitor.mirrors)
    && LeavesStaleEntry(w.monitor.requests, w.monitor.mirrors[OsdMap], e.msg.jid, e.msg.reply)
  }

  lemma HandleKeepsExact(w: World, msg: Message)
    requires Inv(w) && Possible(w, msg) && Exact(w.monitor.requests)
    ensures Exact(Handle(w.monitor, msg).requests) <==> !LeavesStale(w, Deliver(msg))
  {
    var m, c := w.monitor, w.monitor.requests;
    match msg
    case Heartbeat(minion, versions, timeout, order, now) =>
      PromoteKeeps(m, minion, timeout, order, now, m.mirrors[OsdMap].stored);
    case MapReply(minion, t, o, order, refused, failed, now) =>
      OnMapAllAgrees(c, order, SubmittedIds(c), t, o, refused, now);
    case JobReply(jid, minion, reply, accepts, now) =>
      OnCompletionAgrees(c, m.mirrors[OsdMap], jid, minion, reply, accepts, now);
    case StillRunning(jobs, now) => TickResponseUndisturbed(c, jobs, now);
    case ClockTick(order, done, now) => TickUndisturbed(c, order, done, now);
    case CancelRequest(id) => CancelUndisturbed(c, id);
    case ClusterRequest(id, plan, accepts, now) =>
      if m.favorite.Some? {
        SubmitAgrees(c, id, plan, m.favorite.value, accepts, now);
      }
    case DebugJob(id, call, minion, accepts, now) => SubmitAgrees(c, id, SaltCall(call), minion, accepts, now);
  }

  lemma NextKeepsExact(w: World, e: Event, w': World)
    requires Inv(w) && Next(w, e, w') && Exact(w.monitor.requests)
    ensures Exact(w'.monitor.requests) <==> !LeavesStale(w, e)
  {
    if e.Deliver? {
      HandleKeepsExact(w, e.msg);
    }
  }

  // Without such replies the index is exact: its entries are the jobs that are out, and no
  // others. The first such reply ends that.
  lemma {:induction false} IndexIsExact(ws: seq<World>, es: seq<Event>, i: nat)
    requires IsRun(ws, es) && i <= |es|
    requires forall k :: 0 <= k < i ==> !LeavesStale(ws[k], es[k])
    ensures Exact(ws[i].monitor.requests)
    ensures i < |es| && LeavesStale(ws[i], es[i]) ==> !Exact(ws[i + 1].monitor.requests)
  {
    if i > 0 {
      IndexIsExact(ws, es, i - 1);
      RunKeeps(ws, es, i - 1);
      NextKeepsExact(ws[i - 1], es[i - 1], ws[i]);
    }
    if i < |es| {
      RunKeeps(ws, es, i);
      NextKeepsExact(ws[i], es[i], ws[i + 1]);
    }
  }
}
