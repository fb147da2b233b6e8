// Everything that can happen to one request once it is submitted, and what no sequence of it can
// change.
module RequestRuns {
  import opened Wrappers
  import opened SyncTypes
  import opened Requests

  // A request's job ends well, a map arrives, or it is cancelled, loses its server or has its job
  // fail; or its job is reported to be still running.
  datatype Event =
    | JobDone(version: nat)
    | MapArrives(t: SyncType, o: SyncObject, offer: Option<JobId>, now: Time)
    | Interrupted
    | Seen(now: Time)

  ghost function Step(r: Request, e: Event): Request
    requires WellFormed(r)
  {
    if e.Seen? then
      if r.state == Submitted || (r.state == Complete && r.error) then r.(aliveAt := Some(e.now)) else r
    else if r.state != Submitted then r
    else
      match e
      case JobDone(version) => if r.jid.None? then r else Settle(CompleteJid(r, version)).r
      case MapArrives(t, o, offer, now) =>
        if t !in AwaitingVersions(r) then r else Settle(OnMap(r, t, o, offer, now)).r
      case Interrupted => Abandon(r).r
  }

  lemma StepIsSound(r: Request, e: Event)
    requires Sound(r)
    ensures Sound(Step(r, e)) && Step(r, e).plan == r.plan
  {
    if r.state == Submitted {
      match e
      case JobDone(version) =>
        if r.jid.Some? {
          CompleteJidIsSound(r, version);
        }
      case MapArrives(t, o, offer, now) =>
        if t in AwaitingVersions(r) {
          OnMapIsSound(r, t, o, offer, now);
          var out := OnMap(r, t, o, offer, now);
          if out.raised {
            AbandonIsSound(out.r);
          }
        }
      case Interrupted =>
        AbandonIsSound(r);
      case Seen(now) =>
    }
  }

  ghost function Run(r0: Request, es: seq<Event>): (r: Request)
    requires Sound(r0)
    ensures Sound(r) && r.plan == r0.plan
  {
    if es == [] then r0
    else
      var r := Run(r0, es[..|es| - 1]);
      StepIsSound(r, es[|es| - 1]);
      Step(r, es[|es| - 1])
  }

  lemma RunNext(r0: Request, es: seq<Event>, j: nat)
    requires Sound(r0) && j < |es|
    ensures Run(r0, es[..j + 1]) == Step(Run(r0, es[..j]), es[j])
  {
    assert es[..j + 1][..j] == es[..j];
  }

  lemma {:induction false} RunConcat(r0: Request, es: seq<Event>, fs: seq<Event>)
    requires Sound(r0)
    ensures Run(r0, es + fs) == Run(Run(r0, es), fs)
  {
    if fs == [] {
      assert es + fs == es;
    } else {
      RunConcat(r0, es, fs[..|fs| - 1]);
      assert (es + fs)[..|es + fs| - 1] == es + fs[..|fs| - 1];
    }
  }

  // ---------------------------------------------------------------- drifting

  // Events other than the end of the request's job.
  predicate Quiet(es: seq<Event>) {
    forall i :: 0 <= i < |es| ==> !es[i].JobDone?
  }

  // What is left of a request when some events have happened, its job not being done.
  ghost predicate Drifts(r: Request, r': Request) {
    Sound(r) && exists es :: Quiet(es) && r' == Run(r, es)
  }

  // A request keeps its plan, its minion and, until a job is done, the version it awaits; once
  // complete, it stays so, and unchanged if it succeeded.
  ghost predicate Stays(r: Request, r': Request) {
    && r'.plan == r.plan && r'.minion == r.minion
    && (r.state != New ==> r'.state != New)
    && (r.state == Complete ==> r'.state == Complete && r'.error == r.error)
    && (r.state == Complete && !r.error ==> r' == r)
    && |r.jobs| <= |r'.jobs|
  }

  lemma StepStays(r: Request, e: Event)
    requires Sound(r)
    ensures Stays(r, Step(r, e))
    ensures !e.JobDone? ==> Step(r, e).awaitVersion == r.awaitVersion
  {
    if r.state == Submitted {
      match e
      case JobDone(version) =>
      case MapArrives(t, o, offer, now) =>
        if t in AwaitingVersions(r) {
          OnMapIsSound(r, t, o, offer, now);
        }
      case Interrupted =>
      case Seen(now) =>
    }
  }

  lemma {:induction false} RunStays(r0: Request, es: seq<Event>)
    requires Sound(r0)
    ensures Stays(r0, Run(r0, es))
    ensures Quiet(es) ==> Run(r0, es).awaitVersion == r0.awaitVersion
  {
    if es != [] {
      RunStays(r0, es[..|es| - 1]);
      StepStays(Run(r0, es[..|es| - 1]), es[|es| - 1]);
    }
  }

  lemma DriftStays(r: Request, r': Request)
    requires Drifts(r, r')
    ensures Sound(r') && Stays(r, r') && r'.awaitVersion == r.awaitVersion
  {
    var es :| Quiet(es) && r' == Run(r, es);
    RunStays(r, es);
  }

  lemma StandsStill(r: Request)
    requires Sound(r)
    ensures Drifts(r, r)
  {
    assert Run(r, []) == r && Quiet([]);
  }

  lemma StepDrifts(r: Request, e: Event)
    requires Sound(r) && !e.JobDone?
    ensures Drifts(r, Step(r, e))
  {
    assert [e][..0] == [];
    assert Run(r, [e]) == Step(r, e) && Quiet([e]);
  }
}
