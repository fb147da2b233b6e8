// What each entry point of the request collection does to each request in it, as steps of that
// request's own run.
module CollectionRuns {
  import opened Wrappers
  import opened SyncTypes
  import opened SyncMirror
  import opened Requests
  import opened RequestIndex
  import opened RequestRuns

  // ---------------------------------------------------------------- entry points that bring no news

  // A request is as before, or was just seen running, or was given up.
  ghost predicate Undisturbed(r: Request, r': Request) {
    r' == r || JustSeen(r, r') || (r.state == Submitted && r' == Abandon(r).r)
  }

  ghost predicate AllUndisturbed(c: Collection, c': Collection) {
    forall id :: id in c.requests ==> id in c'.requests && Undisturbed(c.requests[id], c'.requests[id])
  }

  lemma UndisturbedDrifts(r: Request, r': Request)
    requires Sound(r) && r.state != New && Undisturbed(r, r')
    ensures Drifts(r, r')
  {
    if r' == r {
      StandsStill(r);
    } else if JustSeen(r, r') {
      StepDrifts(r, Seen(r'.aliveAt.value));
    } else {
      StepDrifts(r, Interrupted);
    }
  }

  lemma CancelUndisturbed(c: Collection, id: RequestId)
    requires Agreed(c)
    ensures Agreed(Cancel(c, id)) && AllUndisturbed(c, Cancel(c, id)) && Cancel(c, id).requests.Keys == c.requests.Keys
    ensures Exact(c) ==> Exact(Cancel(c, id))
  {
    if IsSubmitted(c, id) {
      FailAgrees(c, id);
    }
  }

  lemma FailAllUndisturbed(c: Collection, order: seq<RequestId>)
    requires Agreed(c) && Enumerates(order, SubmittedIds(c))
    ensures var c' := FailAll(c, order);
            && Agreed(c') && (Exact(c) ==> Exact(c'))
            && AllUndisturbed(c, c') && c'.requests.Keys == c.requests.Keys
            && forall id :: id in c'.requests ==> c'.requests[id].state == Complete
  {
    FailAllAgrees(c, order, SubmittedIds(c));
    forall id | id in c.requests
      ensures FailAll(c, order).requests[id].state == Complete
    {
      if IsSubmitted(c, id) {
        assert id in SubmittedIds(c);
        AbandonIsSound(c.requests[id]);
      }
    }
  }

  lemma TickUndisturbed(c: Collection, order: seq<RequestId>, done: set<RequestId>, now: Time)
    requires Agreed(c) && Enumerates(order, done) && done <= OverdueIds(c, now)
    ensures var e := Tick(c, order);
            && Agreed(e.c) && (Exact(c) ==> Exact(e.c))
            && AllUndisturbed(c, e.c) && e.c.requests.Keys == c.requests.Keys
  {
    OverdueAreEndable(c, now);
    TickAgrees(c, order, done);
    forall id | id in c.requests
      ensures Undisturbed(c.requests[id], Tick(c, order).c.requests[id])
    {
    }
  }

  lemma TickResponseUndisturbed(c: Collection, jobs: seq<JobId>, now: Time)
    requires Agreed(c)
    ensures var c' := OnTickResponse(c, jobs, now);
            && Agreed(c') && (Exact(c) ==> Exact(c'))
            && AllUndisturbed(c, c') && c'.requests.Keys == c.requests.Keys
  {
    OnTickResponseAgrees(c, jobs, now);
  }

  // ---------------------------------------------------------------- a map, a job's end

  lemma HandledDrifts(r: Request, r': Request, t: SyncType, o: SyncObject, now: Time)
    requires Sound(r) && r.state == Submitted && Handled(r, r', t, o, now)
    ensures Drifts(r, r')
  {
    if t in AwaitingVersions(r) {
      var offer :| r' == Settle(OnMap(r, t, o, offer, now)).r;
      StepDrifts(r, MapArrives(t, o, offer, now));
    } else {
      StandsStill(r);
    }
  }

  // A successful completion is the end of the job, and perhaps a map that was already there.
  lemma SuccessDrifts(r: Request, m: Mirror, minion: Minion, version: nat, offer: Option<JobId>, now: Time)
    requires Sound(r) && r.state == Submitted && r.jid.Some?
    ensures Drifts(Step(r, JobDone(version)), CompleteSuccess(r, m, minion, version, offer, now).r)
    ensures CompleteSuccess(r, m, minion, version, offer, now).osdMap.stored == m.stored
  {
    CompleteJidIsSound(r, version);
    var done := CompleteJid(r, version).r;
    assert Step(r, JobDone(version)) == done;
    var m1 := NotifyAwaited(done, m, minion, now);
    if HasAwaited(done, m1) {
      StepDrifts(done, MapArrives(OsdMap, m1.stored, offer, now));
    } else {
      StandsStill(done);
    }
  }

  // The request whose job an index entry is for, while it can still be brought on by its end.
  ghost predicate Finishes(c: Collection, jid: JobId, id: RequestId, reply: Reply) {
    && jid in c.byJid && id == c.byJid[jid] && IsSubmitted(c, id)
    && !reply.SaltFailure? && (reply.RadosError? ==> c.requests[id].plan.SaltCall?)
  }

  // The result that the request makes of the reply: the version of the OSD map that its job made.
  function Result(r: Request, reply: Reply): nat {
    if reply.Success? && !r.plan.SaltCall? then reply.version else 0
  }

  lemma Unchanged(r: Request)
    ensures Undisturbed(r, r)
  {
  }

  // A reply concerns one request.
  lemma OneReplied(c: Collection, m: Mirror, id: RequestId, minion: Minion, reply: Reply, accepts: bool, now: Time)
    requires AllWellFormed(c) && id in c.requests
    ensures var out := OnReply(c, m, id, minion, reply, accepts, now);
            id in out.c.requests && out.c.requests == c.requests[id := out.c.requests[id]]
  {
    hide CompleteSuccess, CompleteJid, Abandon;
  }

  lemma ReplyUndisturbed(c: Collection, m: Mirror, jid: JobId, id: RequestId, minion: Minion, reply: Reply,
                         accepts: bool, now: Time)
    requires AllWellFormed(c) && id in c.requests && Sound(c.requests[id])
    requires jid in c.byJid && c.byJid[jid] == id && !Finishes(c, jid, id, reply) && Entry(c.requests[id], jid)
    ensures Undisturbed(c.requests[id], OnReply(c, m, id, minion, reply, accepts, now).c.requests[id])
  {
    hide CompleteSuccess;
  }

  lemma OnCompletionEffect(c: Collection, m: Mirror, jid: JobId, minion: Minion, reply: Reply, accepts: bool, now: Time)
    requires Agreed(c)
    ensures var out := OnCompletion(c, m, jid, minion, reply, accepts, now);
            && out.c.requests.Keys == c.requests.Keys
            && (forall id :: id in c.requests && !Finishes(c, jid, id, reply) ==>
                  Undisturbed(c.requests[id], out.c.requests[id]))
  {
    if jid in c.byJid {
      var id := c.byJid[jid];
      assert Entry(c.requests[id], jid) && Sound(c.requests[id]);
      OneReplied(c, m, id, minion, reply, accepts, now);
      if !Finishes(c, jid, id, reply) {
        ReplyUndisturbed(c, m, jid, id, minion, reply, accepts, now);
      }
      hide OnReply, Undisturbed, Finishes;
      forall other | other in c.requests
        ensures Undisturbed(c.requests[other], c.requests[other])
      {
        Unchanged(c.requests[other]);
      }
    }
  }

  lemma OnCompletionFinishes(c: Collection, m: Mirror, jid: JobId, id: RequestId, minion: Minion, reply: Reply,
                             accepts: bool, now: Time)
    requires Agreed(c) && Finishes(c, jid, id, reply)
    ensures var out := OnCompletion(c, m, jid, minion, reply, accepts, now);
            && id in out.c.requests && c.requests[id].jid == Some(jid)
            && if c.requests[id].plan.SaltCall? then
                 out.c.requests[id] == CompleteJid(c.requests[id], 0).r && out.osdMap == m
               else var p := CompleteSuccess(c.requests[id], m, minion, reply.version, Offer(c, accepts), now);
                    out.c.requests[id] == p.r && out.osdMap == p.osdMap
    ensures Drifts(Step(c.requests[id], JobDone(Result(c.requests[id], reply))),
                   OnCompletion(c, m, jid, minion, reply, accepts, now).c.requests[id])
  {
    var r := c.requests[id];
    assert Entry(r, jid) && Sound(r);
    if r.plan.SaltCall? {
      CompleteJidIsSound(r, 0);
      StepIsSound(r, JobDone(0));
      StandsStill(Step(r, JobDone(0)));
    } else {
      SuccessDrifts(r, m, minion, reply.version, Offer(c, accepts), now);
    }
  }
}
