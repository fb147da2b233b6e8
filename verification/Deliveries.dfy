// What a run of the manager delivers to one request, and that the request is as these events leave
// it: what holds of the runs of single requests holds of every request in every cluster.
module Deliveries {
  import opened Wrappers
  import opened SyncTypes
  import opened SyncMirror
  import opened Requests
  import opened RequestIndex
  import RequestRuns
  import opened CollectionRuns
  import opened Cluster
  import opened ClusterSteps
  import opened ClusterRuns

  // ---------------------------------------------------------------- one step

  // An interruption, or news that the job is alive.
  ghost function Noticed(r: Request, r': Request): seq<RequestRuns.Event> {
    if r' == r then []
    else if r.state == Submitted && r'.state == Complete then [RequestRuns.Interrupted]
    else if r'.aliveAt.Some? then [RequestRuns.Seen(r'.aliveAt.value)]
    else []
  }

  // A map that is handed over at once when the job ends. Of the jobs that Salt offers, only the
  // one that the request has afterwards matters.
  ghost function AtOnce(r: Request, m: Mirror, minion: Minion, version: nat, now: Time, after: Option<JobId>)
    : seq<RequestRuns.Event>
  {
    var done := CompleteJid(r, version).r;
    var m1 := NotifyAwaited(done, m, minion, now);
    if HasAwaited(done, m1) then [RequestRuns.MapArrives(OsdMap, m1.stored, after, now)] else []
  }

  // What a message brings to the request of this id.
  ghost function Heard(w: World, msg: Message, w': World, id: RequestId): seq<RequestRuns.Event>
    requires Total(w.monitor.mirrors) && id in w.monitor.requests.requests && id in w'.monitor.requests.requests
  {
    var c, r, r' := w.monitor.requests, w.monitor.requests.requests[id], w'.monitor.requests.requests[id];
    match msg
    case MapReply(minion, t, o, order, refused, failed, now) =>
      if IsNews(t, w.monitor.mirrors[t], o.version) && !failed && IsSubmitted(c, id)
      then [RequestRuns.MapArrives(t, o, r'.jid, now)] else []
    case JobReply(jid, minion, reply, accepts, now) =>
      if Finishes(c, jid, id, reply) then
        [RequestRuns.JobDone(Result(r, reply))] +
        (if r.plan.SaltCall? || !reply.Success? then []
         else AtOnce(r, w.monitor.mirrors[OsdMap], minion, reply.version, now, r'.jid))
      else Noticed(r, r')
    case _ => Noticed(r, r')
  }

  // Only an offer that is taken matters.
  lemma OfferTaken(r: Request, t: SyncType, o: SyncObject, offer: Option<JobId>, now: Time)
    requires Sound(r) && r.state == Submitted && t in AwaitingVersions(r)
    ensures var r' := Settle(OnMap(r, t, o, offer, now)).r; r' == Settle(OnMap(r, t, o, r'.jid, now)).r
  {
    OnMapIsSound(r, t, o, offer, now);
  }

  lemma MapHeard(r: Request, r': Request, t: SyncType, o: SyncObject, now: Time)
    requires Sound(r) && r.state == Submitted && Handled(r, r', t, o, now)
    ensures r' == RequestRuns.Step(r, RequestRuns.MapArrives(t, o, r'.jid, now))
  {
    if t in AwaitingVersions(r) {
      var offer :| r' == Settle(OnMap(r, t, o, offer, now)).r;
      OfferTaken(r, t, o, offer, now);
    }
  }

  lemma NoticedIsRun(r: Request, r': Request)
    requires Sound(r) && r.state != New && Undisturbed(r, r')
    ensures r' == RequestRuns.Run(r, Noticed(r, r'))
  {
    if r' != r {
      if r.state == Submitted && r'.state == Complete {
        RunOne(r, RequestRuns.Interrupted);
      } else if JustSeen(r, r') {
        RunOne(r, RequestRuns.Seen(r'.aliveAt.value));
      } else {
        AbandonIsSound(r);
      }
    }
  }

  lemma RunOne(r: Request, e: RequestRuns.Event)
    requires Sound(r)
    ensures RequestRuns.Run(r, [e]) == RequestRuns.Step(r, e)
  {
    assert [e][..0] == [];
    assert RequestRuns.Run(r, []) == r;
  }

  lemma RunTwo(r: Request, e: RequestRuns.Event, f: RequestRuns.Event)
    requires Sound(r)
    ensures Sound(RequestRuns.Step(r, e))
    ensures RequestRuns.Run(r, [e] + [f]) == RequestRuns.Step(RequestRuns.Step(r, e), f)
  {
    RunOne(r, e);
    assert ([e] + [f])[..1] == [e];
  }

  lemma JobHeard(r: Request, m: Mirror, minion: Minion, version: nat, offer: Option<JobId>, now: Time)
    requires Sound(r) && r.state == Submitted && r.jid.Some?
    ensures var r' := CompleteSuccess(r, m, minion, version, offer, now).r;
            r' == RequestRuns.Run(r, [RequestRuns.JobDone(version)] + AtOnce(r, m, minion, version, now, r'.jid))
  {
    CompleteJidIsSound(r, version);
    var r' := CompleteSuccess(r, m, minion, version, offer, now).r;
    var e := RequestRuns.JobDone(version);
    var done := CompleteJid(r, version).r;
    assert RequestRuns.Step(r, e) == done;
    var m1 := NotifyAwaited(done, m, minion, now);
    if HasAwaited(done, m1) {
      OfferTaken(done, OsdMap, m1.stored, offer, now);
      RunTwo(r, e, RequestRuns.MapArrives(OsdMap, m1.stored, r'.jid, now));
    } else {
      RunOne(r, e);
      assert [e] + [] == [e];
    }
  }

  lemma CompletionHeard(c: Collection, m: Mirror, jid: JobId, id: RequestId, minion: Minion, reply: Reply,
                        accepts: bool, now: Time)
    requires Agreed(c) && Finishes(c, jid, id, reply)
    ensures var out := OnCompletion(c, m, jid, minion, reply, accepts, now);
            && id in out.c.requests
            && var r, r' := c.requests[id], out.c.requests[id];
               r' == RequestRuns.Run(r, [RequestRuns.JobDone(Result(r, reply))] +
                                        (if r.plan.SaltCall? || !reply.Success? then []
                                         else AtOnce(r, m, minion, reply.version, now, r'.jid)))
  {
    var r := c.requests[id];
    OnCompletionFinishes(c, m, jid, id, minion, reply, accepts, now);
    if r.plan.SaltCall? {
      RunOne(r, RequestRuns.JobDone(0));
      assert [RequestRuns.JobDone(0)] + [] == [RequestRuns.JobDone(0)];
    } else {
      JobHeard(r, m, minion, reply.version, Offer(c, accepts), now);
    }
  }

  // A request is as what it hears leaves it.
  lemma HeardIsRun(w: World, msg: Message, id: RequestId)
    requires Inv(w) && Possible(w, msg) && id in w.monitor.requests.requests
    ensures var w' := w.(monitor := Handle(w.monitor, msg));
            && id in w'.monitor.requests.requests
            && w'.monitor.requests.requests[id]
               == RequestRuns.Run(w.monitor.requests.requests[id], Heard(w, msg, w', id))
  {
    match msg
    case MapReply(minion, t, o, order, refused, failed, now) => MapReplyHeard(w, msg, id);
    case JobReply(jid, minion, reply, accepts, now) => JobReplyHeard(w, msg, id);
    case _ =>
      hide Inv, Possible, Handle, RequestRuns.Run, Noticed;
      OtherHeard(w, msg, id);
  }

  // The other messages bring no more than notice.
  lemma OtherHeard(w: World, msg: Message, id: RequestId)
    requires Inv(w) && Possible(w, msg) && !msg.MapReply? && !msg.JobReply? && id in w.monitor.requests.requests
    ensures id in Handle(w.monitor, msg).requests.requests
    ensures var r, r' := w.monitor.requests.requests[id], Handle(w.monitor, msg).requests.requests[id];
            r' == RequestRuns.Run(r, Noticed(r, r'))
  {
    hide RequestRuns.Run, Noticed, Handle;
    OtherUndisturbed(w, msg, id);
    NoticedIsRun(w.monitor.requests.requests[id], Handle(w.monitor, msg).requests.requests[id]);
  }

  lemma MapReplyHeard(w: World, msg: Message, id: RequestId)
    requires Inv(w) && Possible(w, msg) && msg.MapReply? && id in w.monitor.requests.requests
    ensures var w' := w.(monitor := Handle(w.monitor, msg));
            && id in w'.monitor.requests.requests
            && w'.monitor.requests.requests[id]
               == RequestRuns.Run(w.monitor.requests.requests[id], Heard(w, msg, w', id))
  {
    var c, w' := w.monitor.requests, w.(monitor := Handle(w.monitor, msg));
    if IsNews(msg.t, w.monitor.mirrors[msg.t], msg.o.version) && !msg.failed {
      OnMapAllAgrees(c, msg.order, SubmittedIds(c), msg.t, msg.o, msg.refused, msg.now);
      var r, r' := c.requests[id], w'.monitor.requests.requests[id];
      if IsSubmitted(c, id) {
        assert id in SubmittedIds(c);
        MapHeard(r, r', msg.t, msg.o, msg.now);
        RunOne(r, RequestRuns.MapArrives(msg.t, msg.o, r'.jid, msg.now));
      } else {
        assert id !in SubmittedIds(c);
      }
    }
  }

  lemma JobReplyHeard(w: World, msg: Message, id: RequestId)
    requires Inv(w) && Possible(w, msg) && msg.JobReply? && id in w.monitor.requests.requests
    ensures var w' := w.(monitor := Handle(w.monitor, msg));
            && id in w'.monitor.requests.requests
            && w'.monitor.requests.requests[id]
               == RequestRuns.Run(w.monitor.requests.requests[id], Heard(w, msg, w', id))
  {
    var c, m := w.monitor.requests, w.monitor.mirrors[OsdMap];
    OnCompletionEffect(c, m, msg.jid, msg.minion, msg.reply, msg.accepts, msg.now);
    if Finishes(c, msg.jid, id, msg.reply) {
      CompletionHeard(c, m, msg.jid, id, msg.minion, msg.reply, msg.accepts, msg.now);
    } else {
      var out := OnCompletion(c, m, msg.jid, msg.minion, msg.reply, msg.accepts, msg.now);
      NoticedIsRun(c.requests[id], out.c.requests[id]);
    }
  }

  // ---------------------------------------------------------------- a whole run

  // The worlds of a run, as far as deliveries are concerned.
  ghost predicate Mirrored(ws: seq<World>, i: nat) {
    i < |ws| && forall n :: 0 <= n <= i ==> Total(ws[n].monitor.mirrors)
  }

  ghost predicate HasRequest(ws: seq<World>, i: nat, id: RequestId)
    requires i < |ws|
  {
    id in ws[i].monitor.requests.requests
  }

  // The request as it entered the collection.
  ghost function Entered(ws: seq<World>, i: nat, id: RequestId): Request
    requires i < |ws| && HasRequest(ws, i, id)
  {
    if i == 0 || !HasRequest(ws, i - 1, id) then ws[i].monitor.requests.requests[id] else Entered(ws, i - 1, id)
  }

  ghost function HeardIn(ws: seq<World>, es: seq<Event>, i: nat, id: RequestId): seq<RequestRuns.Event>
    requires |ws| == |es| + 1 && i < |es| && Mirrored(ws, i) && HasRequest(ws, i, id) && HasRequest(ws, i + 1, id)
  {
    if es[i].Publish? then [] else Heard(ws[i], es[i].msg, ws[i + 1], id)
  }

  // All that the first `i` steps of a run deliver to the request.
  ghost function HeardBy(ws: seq<World>, es: seq<Event>, i: nat, id: RequestId): seq<RequestRuns.Event>
    requires |ws| == |es| + 1 && i <= |es| && Mirrored(ws, i) && HasRequest(ws, i, id)
  {
    if i == 0 || !HasRequest(ws, i - 1, id) then []
    else HeardBy(ws, es, i - 1, id) + HeardIn(ws, es, i - 1, id)
  }

  lemma AllMirrored(ws: seq<World>, es: seq<Event>, i: nat)
    requires IsRun(ws, es) && i <= |es|
    ensures Mirrored(ws, i)
  {
    AllTotal(ws, es, i);
  }

  // In every world of every run, a request is as the events that were delivered to it leave it.
  lemma {:induction false} RequestIsItsRun(ws: seq<World>, es: seq<Event>, i: nat, id: RequestId)
    requires IsRun(ws, es) && i <= |es| && HasRequest(ws, i, id)
    ensures Mirrored(ws, i) && Sound(Entered(ws, i, id))
    ensures ws[i].monitor.requests.requests[id] == RequestRuns.Run(Entered(ws, i, id), HeardBy(ws, es, i, id))
    ensures exists favorite :: Enters(Entered(ws, i, id), favorite)
  {
    hide Inv, Next, Heard, RequestRuns.Run, Enters;
    AllMirrored(ws, es, i);
    if i == 0 {
      NothingAtFirst(ws, es, id);
    } else {
      RunKeeps(ws, es, i - 1);
      if HasRequest(ws, i - 1, id) {
        RequestIsItsRun(ws, es, i - 1, id);
        HeardNext(ws[i - 1], es[i - 1], ws[i], id);
        RequestRuns.RunConcat(Entered(ws, i, id), HeardBy(ws, es, i - 1, id), HeardIn(ws, es, i - 1, id));
      } else {
        EntersNext(ws[i - 1], es[i - 1], ws[i], id);
      }
    }
  }

  lemma NothingAtFirst(ws: seq<World>, es: seq<Event>, id: RequestId)
    requires IsRun(ws, es)
    ensures !HasRequest(ws, 0, id)
  {
  }

  lemma HeardNext(w: World, e: Event, w': World, id: RequestId)
    requires Inv(w) && Next(w, e, w') && id in w.monitor.requests.requests
    ensures id in w'.monitor.requests.requests && Sound(w.monitor.requests.requests[id])
    ensures w'.monitor.requests.requests[id]
         == RequestRuns.Run(w.monitor.requests.requests[id], if e.Publish? then [] else Heard(w, e.msg, w', id))
  {
    hide Handle, Heard, RequestRuns.Run;
    if e.Deliver? {
      HeardIsRun(w, e.msg, id);
    } else {
      RunNone(w.monitor.requests.requests[id]);
    }
  }

  lemma RunNone(r: Request)
    requires Sound(r)
    ensures RequestRuns.Run(r, []) == r
  {
  }

  lemma EntersNext(w: World, e: Event, w': World, id: RequestId)
    requires Inv(w) && Next(w, e, w') && id !in w.monitor.requests.requests && id in w'.monitor.requests.requests
    ensures var r := w'.monitor.requests.requests[id];
            Sound(r) && RequestRuns.Run(r, []) == r && exists favorite :: Enters(r, favorite)
  {
    hide Inv, Next;
    NextKeeps(w, e, w');
    EnterSound(w'.monitor.requests.requests[id], w.monitor.favorite);
  }

  lemma EnterSound(r: Request, favorite: Option<Minion>)
    requires Enters(r, favorite)
    ensures Sound(r) && RequestRuns.Run(r, []) == r
  {
    var plan, minion, jid, now :|
      && Creatable(plan) && (plan.SaltCall? || favorite == Some(minion))
      && r == Requests.Submit(NewRequest(plan), minion, Some(jid), now).r;
    SubmitIsSound(plan, minion, Some(jid), now);
  }

  // ---------------------------------------------------------------- which step delivered an event

  // The p-th event that a request heard of was delivered by the k-th step of the run, which found the
  // request as the events before it had left it.
  ghost predicate DeliveredBy(ws: seq<World>, es: seq<Event>, i: nat, id: RequestId, p: nat, k: nat)
    requires |ws| == |es| + 1 && i <= |es| && Mirrored(ws, i)
    requires HasRequest(ws, i, id) && p < |HeardBy(ws, es, i, id)|
  {
    && k < i && HasRequest(ws, k, id) && HasRequest(ws, k + 1, id) && Mirrored(ws, k) && es[k].Deliver?
    && var n, events, heard := |HeardBy(ws, es, k, id)|, HeardBy(ws, es, i, id), HeardIn(ws, es, k, id);
       && n <= p < n + |heard| <= |events|
       && events[..n] == HeardBy(ws, es, k, id)
       && events[n..n + |heard|] == heard
       && Entered(ws, k, id) == Entered(ws, i, id)
  }

  lemma QuietPublish(ws: seq<World>, es: seq<Event>, k: nat, id: RequestId)
    requires |ws| == |es| + 1 && k < |es| && Mirrored(ws, k) && HasRequest(ws, k, id) && HasRequest(ws, k + 1, id)
    ensures HeardIn(ws, es, k, id) != [] ==> es[k].Deliver?
  {
  }

  lemma {:induction false} WhoDelivered(ws: seq<World>, es: seq<Event>, i: nat, id: RequestId, p: nat) returns (k: nat)
    requires |ws| == |es| + 1 && i <= |es| && Mirrored(ws, i)
    requires HasRequest(ws, i, id) && p < |HeardBy(ws, es, i, id)|
    ensures DeliveredBy(ws, es, i, id, p, k)
  {
    hide HeardIn;
    var before, heard := HeardBy(ws, es, i - 1, id), HeardIn(ws, es, i - 1, id);
    var events := before + heard;
    if p < |before| {
      k := WhoDelivered(ws, es, i - 1, id, p);
      var n, m := |HeardBy(ws, es, k, id)|, |HeardIn(ws, es, k, id)|;
      assert events[..n] == before[..n] && events[n..n + m] == before[n..n + m];
    } else {
      k := i - 1;
      QuietPublish(ws, es, k, id);
      assert events[..|before|] == before && events[|before|..] == heard;
    }
  }
}
