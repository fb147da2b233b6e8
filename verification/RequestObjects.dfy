// User requests as the objects that the manager updates in place, and the Salt client that
// runs their jobs. Each method leaves its object as the function of the same name says.
module RequestObjects {
  import opened Wrappers
  import opened PgDigest
  import opened SyncTypes
  import opened PoolGrowth
  import opened Requests

  // The Salt master, which numbers the jobs it accepts.
  class SaltClient {
    var nextSerial: nat

    ghost function Offer(accepts: bool): Option<JobId>
      reads this
    {
      if accepts then Some(JobId(nextSerial)) else None
    }

    constructor (nextSerial: nat)
      ensures this.nextSerial == nextSerial
    {
      this.nextSerial := nextSerial;
    }

    method RunJob(accepts: bool) returns (jid: Option<JobId>)
      modifies this
      ensures jid == old(Offer(accepts))
      ensures nextSerial == old(nextSerial) + (if accepts then 1 else 0)
    {
      if accepts {
        jid := Some(JobId(nextSerial));
        nextSerial := nextSerial + 1;
      } else {
        jid := None;
      }
    }
  }

  class UserRequest {
    const id: RequestId
    const plan: Plan
    const progress: PgProgress?
    var state: State
    var minionId: Option<Minion>
    var jid: Option<JobId>
    var error: bool
    var aliveAt: Option<Time>
    var awaitVersion: Option<nat>
    var awaitingPgs: bool
    var newPoolId: Option<PoolId>
    var pgCount: int
    var phase: Phase
    ghost var jobs: seq<seq<Command>>

    ghost predicate Valid() {
      && (progress != null <==> plan.PgCreating?)
      && (progress != null ==>
            && progress.owner == id
            && progress.initial == plan.initial
            && progress.final == plan.final
            && progress.blockSize == plan.blockSize)
    }

    ghost function Footprint(): set<object> {
      {this} + (if progress == null then {} else {progress})
    }

    ghost function View(): Request
      requires Valid()
      reads this, progress
    {
      Request(plan, state, minionId, jid, error, aliveAt, awaitVersion, awaitingPgs, newPoolId, pgCount, phase,
              if progress == null then None else Some(progress.View()), jobs)
    }

    constructor (id: RequestId, plan: Plan)
      requires Creatable(plan)
      ensures Valid() && this.id == id && this.plan == plan
      ensures View() == NewRequest(plan)
      ensures fresh(Footprint())
    {
      this.id, this.plan := id, plan;
      if plan.PgCreating? {
        var p := new PgProgress(plan.initial, plan.final, plan.blockSize, id);
        progress := p;
      } else {
        progress := null;
      }
      state, minionId, jid, error, aliveAt := New, None, None, false, None;
      awaitVersion, awaitingPgs, newPoolId, pgCount, phase := None, false, None, 0, JidWait;
      jobs := [];
    }

    method SetError()
      requires Valid()
      modifies this`error
      ensures View() == Requests.SetError(old(View()))
    {
      error := true;
    }

    method AwaitingVersions() returns (versions: map<SyncType, Version>)
      requires Valid()
      ensures versions == Requests.AwaitingVersions(View())
    {
      versions := map[];
      match plan
      case SaltCall(_) =>
      case RadosCall(_) =>
      case OsdMapModifying(_) =>
        if Awaits(awaitVersion) && state != State.Complete {
          versions := map[OsdMap := awaitVersion];
        }
      case PoolCreating(_, _) =>
        if awaitingPgs {
          versions := map[PgSummary := None];
        } else if Awaits(awaitVersion) {
          versions := map[OsdMap := awaitVersion];
        }
      case PgCreating(_, _, _, _, _, _, _) =>
        match phase
        case JidWait =>
        case OsdMapWait =>
          versions := map[OsdMap := awaitVersion];
        case PgMapWait =>
          versions := map[PgSummary := None, OsdMap := None];
    }

    // An assertion that does not hold is an exception like any other.
    method Complete() returns (raised: bool)
      requires Valid()
      modifies this`state
      ensures Outcome(View(), raised) == Finish(old(View()))
    {
      if state == State.Complete || jid.Some? {
        return true;
      }
      state := State.Complete;
      return false;
    }

    // Set the error, drop the job, complete: how every request that is given up is ended.
    method GiveUp() returns (raised: bool)
      requires Valid()
      modifies this`error, this`jid, this`state
      ensures Outcome(View(), raised) == Abandon(old(View()))
    {
      SetError();
      jid := None;
      raised := Complete();
    }

    method RunCommands(commands: seq<Command>, salt: SaltClient, accepts: bool, now: Time) returns (raised: bool)
      requires Valid()
      modifies this`jid, this`aliveAt, this`jobs, salt
      ensures Outcome(View(), raised) == Publish(old(View()), commands, old(salt.Offer(accepts)), now)
      ensures salt.nextSerial == old(salt.nextSerial) + |jobs| - |old(jobs)|
    {
      var published := salt.RunJob(accepts);
      if published.None? {
        return true;
      }
      aliveAt := Some(now);
      jid := published;
      jobs := jobs + [commands];
      return false;
    }

    method Submit(minion: Minion, salt: SaltClient, accepts: bool, now: Time) returns (raised: bool)
      requires Valid() && state == New
      modifies this, salt
      ensures Outcome(View(), raised) == Requests.Submit(old(View()), minion, old(salt.Offer(accepts)), now)
      ensures salt.nextSerial == old(salt.nextSerial) + |jobs| - |old(jobs)|
    {
      minionId := Some(minion);
      raised := RunCommands(InitialCommands(plan), salt, accepts, now);
      if !raised {
        state := Submitted;
      }
    }

    method CompleteJid(version: nat) returns (raised: bool)
      requires Valid()
      modifies this
      ensures Outcome(View(), raised) == Requests.CompleteJid(old(View()), version)
      ensures jobs == old(jobs)
    {
      match plan
      case SaltCall(_) =>
        jid := None;
        raised := Complete();
      case RadosCall(_) =>
        jid := None;
        raised := Complete();
      case OsdMapModifying(_) =>
        jid := None;
        awaitVersion := Some(version);
        return false;
      case PoolCreating(_, _) =>
        jid := None;
        awaitVersion := Some(version);
        return false;
      case PgCreating(_, _, _, _, _, _, _) =>
        if phase != JidWait {
          return true;
        }
        jid := None;
        awaitVersion := Some(version);
        phase := OsdMapWait;
        return false;
    }

    method OnMap(t: SyncType, o: SyncObject, salt: SaltClient, accepts: bool, now: Time) returns (raised: bool)
      requires Valid()
      modifies this, progress, salt
      ensures Outcome(View(), raised) == Requests.OnMap(old(View()), t, o, old(salt.Offer(accepts)), now)
      ensures salt.nextSerial == old(salt.nextSerial) + |jobs| - |old(jobs)|
    {
      match plan
      case SaltCall(_) =>
        raised := false;
      case RadosCall(_) =>
        raised := false;
      case OsdMapModifying(_) =>
        raised := OnMapModifying(t, o);
      case PoolCreating(_, _) =>
        raised := OnMapPool(t, o);
      case PgCreating(_, _, _, _, _, _, _) =>
        match phase
        case PgMapWait =>
          if t == PgSummary {
            raised := OnPgSummaryGrowth(o, salt, accepts, now);
          } else {
            raised := OnOtherMapGrowth(t, o);
          }
        case OsdMapWait =>
          raised := OnOsdMapGrowth(t, o);
        case JidWait =>
          raised := true;
    }

    // Hand a map to the request, and end it if its own code raises.
    method TakeMap(t: SyncType, o: SyncObject, salt: SaltClient, accepts: bool, now: Time) returns (raised: bool)
      requires Valid() && state == Submitted
      modifies this, progress, salt
      ensures var out := Requests.OnMap(old(View()), t, o, old(salt.Offer(accepts)), now);
              raised == out.raised && View() == Settle(out).r
      ensures salt.nextSerial == old(salt.nextSerial) + |jobs| - |old(jobs)|
    {
      RaisedIsSubmitted(View(), t, o, salt.Offer(accepts), now);
      raised := OnMap(t, o, salt, accepts, now);
      if raised {
        var again := GiveUp();
        assert !again;
      }
    }

    method OnMapModifying(t: SyncType, o: SyncObject) returns (raised: bool)
      requires Valid()
      modifies this`state
      ensures Outcome(View(), raised) == Requests.OnMapModifying(old(View()), t, o)
    {
      if t != OsdMap || awaitVersion.None? {
        return true;
      }
      raised := false;
      if PyCmp(o.version, awaitVersion) >= 0 {
        raised := Complete();
      }
    }

    // Look for the new pool by name among the pools of a map.
    method FindPool(pools: PoolTable)
      requires Valid() && plan.PoolCreating?
      modifies this`newPoolId, this`pgCount
      ensures View() == if HasPool(pools, plan.poolName)
                        then old(View()).(newPoolId := Some(PoolNamed(pools, plan.poolName)),
                                          pgCount := pools[PoolNamed(pools, plan.poolName)].pgNum)
                        else old(View())
    {
      var rest := pools.Keys;
      while rest != {}
        invariant rest <= pools.Keys
        invariant View() == old(View())
        invariant forall id :: id in pools.Keys - rest ==> pools[id].name != plan.poolName
      {
        ghost var some := Pick(rest);
        var id :| id in rest;
        if pools[id].name == plan.poolName {
          newPoolId := Some(id);
          pgCount := pools[id].pgNum;
          PoolIsNamed(pools, id);
          return;
        }
        rest := rest - {id};
      }
    }

    method OnMapPool(t: SyncType, o: SyncObject) returns (raised: bool)
      requires Valid() && plan.PoolCreating?
      modifies this
      ensures Outcome(View(), raised) == Requests.OnMapPool(old(View()), t, o)
      ensures jobs == old(jobs)
    {
      raised := false;
      if awaitingPgs {
        if t != PgSummary || newPoolId.None? || newPoolId.value !in PoolTallies(o) {
          return true;
        }
        var pgsNotCreating := CountNotCreating(PoolTallies(o)[newPoolId.value]);
        if pgsNotCreating >= pgCount {
          raised := Complete();
        }
      } else if Awaits(awaitVersion) {
        if t != OsdMap {
          return true;
        }
        if PyCmp(o.version, awaitVersion) >= 0 {
          FindPool(Pools(o));
          if newPoolId.None? {
            SetError();
            raised := Complete();
            if raised {
              return;
            }
          }
          awaitingPgs := true;
        }
      } else {
        return true;
      }
    }

    method OnPgSummaryGrowth(o: SyncObject, salt: SaltClient, accepts: bool, now: Time) returns (raised: bool)
      requires Valid() && plan.PgCreating?
      modifies this, progress, salt
      ensures Outcome(View(), raised) == Requests.OnPgSummaryGrowth(old(View()), o, old(salt.Offer(accepts)), now)
      ensures salt.nextSerial == old(salt.nextSerial) + |jobs| - |old(jobs)|
    {
      raised := false;
      if plan.poolId !in PoolTallies(o) {
        return true;
      }
      var pgsNotCreating := CountNotCreating(PoolTallies(o)[plan.poolId]);
      progress.SetCreatedPgCount(pgsNotCreating);
      if pgsNotCreating >= progress.intermediateGoal {
        if progress.View().IsFinalBlock() {
          raised := RunCommands(PostCreateCommands(plan), salt, accepts, now);
        } else {
          progress.AdvanceGoal();
          raised := RunCommands([SetPgNum(plan.growName, progress.intermediateGoal)], salt, accepts, now);
        }
        if !raised {
          phase := JidWait;
        }
      }
    }

    method OnOtherMapGrowth(t: SyncType, o: SyncObject) returns (raised: bool)
      requires Valid() && plan.PgCreating?
      modifies this`state, this`error
      ensures Outcome(View(), raised) == Requests.OnOtherMapGrowth(old(View()), t, o)
    {
      if t != OsdMap || plan.poolId !in Pools(o) {
        return true;
      }
      raised := false;
      if Pools(o)[plan.poolId].pgNum != progress.intermediateGoal {
        SetError();
        raised := Complete();
      }
    }

    method OnOsdMapGrowth(t: SyncType, o: SyncObject) returns (raised: bool)
      requires Valid() && plan.PgCreating?
      modifies this`state, this`error, this`phase
      ensures Outcome(View(), raised) == Requests.OnOsdMapGrowth(old(View()), t, o)
    {
      if t != OsdMap || plan.poolId !in Pools(o) {
        return true;
      }
      if Pools(o)[plan.poolId].pgNum != progress.intermediateGoal {
        SetError();
        raised := Complete();
        return;
      }
      if !Awaits(awaitVersion) {
        return true;
      }
      raised := false;
      if PyCmp(o.version, awaitVersion) >= 0 {
        if progress.View().IsComplete() {
          raised := Complete();
        } else {
          phase := PgMapWait;
        }
      }
    }
  }
}
