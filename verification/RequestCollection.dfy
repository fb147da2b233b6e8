// The collection of user requests as the object that the manager shares between its threads.
// Its lock makes each entry point atomic, so each is one method here.
module RequestCollections {
  import opened Wrappers
  import opened SyncTypes
  import opened SyncMirror
  import opened Requests
  import opened RequestObjects
  import opened RequestIndex

  class RequestCollection {
    var byRequestId: map<RequestId, UserRequest>
    var byJid: map<JobId, UserRequest>
    const salt: SaltClient

    // What the two dictionaries hold, as values.
    ghost var requests: map<RequestId, Request>
    ghost var index: map<JobId, RequestId>

    ghost function Contents(): Collection
      reads this`requests, this`index, salt
    {
      Collection(requests, index, salt.nextSerial)
    }

    ghost predicate Holds(r: UserRequest)
      reads this`byRequestId
    {
      r.id in byRequestId && byRequestId[r.id] == r
    }

    // Requests are filed under their own ids, and are as `requests` says.
    ghost predicate Filed()
      reads this`byRequestId, this`requests, Objects()
    {
      && byRequestId.Keys == requests.Keys
      && (forall id :: id in byRequestId ==> byRequestId[id].id == id && byRequestId[id].Valid())
      && (forall id :: id in byRequestId ==> byRequestId[id].View() == requests[id])
    }

    // Only filed requests are indexed by job.
    ghost predicate Indexed()
      reads this`byRequestId, this`byJid, this`index
    {
      && byJid.Keys == index.Keys
      && (forall j :: j in byJid ==> byJid[j].id == index[j] && Holds(byJid[j]))
    }

    ghost function Objects(): set<object>
      reads this`byRequestId
    {
      (set id | id in byRequestId :: byRequestId[id] as object)
      + (set id | id in byRequestId && byRequestId[id].progress != null :: byRequestId[id].progress as object)
    }

    ghost predicate Valid()
      reads this, salt, Objects()
    {
      Filed() && Indexed() && Agreed(Contents())
    }

    constructor ()
      ensures Valid() && Contents() == EMPTY_COLLECTION
      ensures fresh(salt) && byRequestId == map[] && Objects() == {}
    {
      byRequestId := map[];
      byJid := map[];
      salt := new SaltClient(0);
      requests, index := map[], map[];
    }

    lemma KeysAreIds()
      requires Valid()
      ensures Contents().requests.Keys == byRequestId.Keys
    {
    }

    // Filed, but for what `requests` says of one request.
    ghost predicate FiledExcept(r: UserRequest)
      reads this`byRequestId, this`requests, Objects()
    {
      && byRequestId.Keys == requests.Keys
      && (forall id :: id in byRequestId ==> byRequestId[id].id == id && byRequestId[id].Valid())
      && (forall id :: id in byRequestId && id != r.id ==> byRequestId[id].View() == requests[id])
    }

    // All filed requests but one are as they were.
    twostate lemma OthersUnchanged(r: UserRequest)
      requires old(Filed()) && unchanged(this) && Holds(r)
      requires forall x :: x in Objects() && x != r && x != r.progress ==> unchanged(x)
      ensures FiledExcept(r)
    {
      forall id | id in byRequestId && id != r.id
        ensures byRequestId[id].View() == old(byRequestId[id].View())
      {
        var other := byRequestId[id];
        assert other in Objects();
        if other.progress != null {
          assert other.progress in Objects();
        }
      }
    }

    // Note in `requests` how a request has changed.
    ghost method Refile(request: UserRequest)
      requires FiledExcept(request) && Holds(request)
      modifies this`requests
      ensures Filed() && unchanged(this`byRequestId, this`byJid, this`index)
      ensures requests == old(requests)[request.id := request.View()]
    {
      var r := request.View();
      requests := requests[request.id := r];
      assert request.View() == r;
    }

    method DropEntry(jid: JobId)
      requires Indexed() && jid in byJid
      modifies this`byJid, this`index
      ensures Indexed() && index == old(index) - {jid}
    {
      byJid := byJid - {jid};
      index := index - {jid};
    }

    method AddEntry(jid: JobId, request: UserRequest)
      requires Indexed() && Holds(request)
      modifies this`byJid, this`index
      ensures Indexed() && index == old(index)[jid := request.id]
      ensures byJid == old(byJid)[jid := request]
    {
      byJid := byJid[jid := request];
      index := index[jid := request.id];
    }

    // The end of the block that the original wraps around every change of a request.
    method UpdateIndex(request: UserRequest, oldJid: Option<JobId>)
      requires Filed() && Indexed() && Holds(request)
      requires request.jid != oldJid && oldJid.Some? ==> oldJid.value in byJid
      modifies this`byJid, this`index
      ensures Filed() && Indexed() && unchanged(this`byRequestId, this`requests)
      ensures index == Reindex(old(index), request.id, oldJid, request.jid)
    {
      if request.jid != oldJid {
        if oldJid.Some? {
          DropEntry(oldJid.value);
        }
        if request.jid.Some? {
          AddEntry(request.jid.value, request);
        }
      }
    }

    // Give a request up, error and all, and take its job out of the index; one that is complete
    // already raises instead.
    method EndIndexed(request: UserRequest) returns (raised: bool)
      requires Filed() && Indexed() && Holds(request) && JobIndexed(Contents(), request.id)
      modifies this`byJid, this`requests, this`index, request`error, request`jid, request`state
      ensures Filed() && Indexed() && unchanged(this`byRequestId)
      ensures Effect(Contents(), raised) == EndOne(old(Contents()), request.id)
    {
      ghost var c := Contents();
      var oldJid := request.jid;
      assert request.View() == c.requests[request.id];
      raised := request.GiveUp();
      OthersUnchanged(request);
      Refile(request);
      if !raised {
        UpdateIndex(request, oldJid);
      }
      ChangeIs(c, request.id, Abandon(c.requests[request.id]).r, raised, Contents());
    }

    // A submitted request can always be given up.
    method EndWithError(request: UserRequest)
      requires Filed() && Indexed() && Holds(request)
      requires IsSubmitted(Contents(), request.id) && JobIndexed(Contents(), request.id)
      modifies this`byJid, this`requests, this`index, request`error, request`jid, request`state
      ensures Filed() && Indexed() && unchanged(this`byRequestId)
      ensures Contents() == Fail(old(Contents()), request.id)
    {
      var raised := EndIndexed(request);
      assert !raised;
    }

    method File(request: UserRequest, jid: JobId)
      requires Filed() && Indexed() && request.Valid() && request.id !in byRequestId
      modifies this`byRequestId, this`byJid, this`requests, this`index
      ensures Filed() && Indexed()
      ensures byRequestId == old(byRequestId)[request.id := request]
      ensures requests == old(requests)[request.id := request.View()]
      ensures index == old(index)[jid := request.id]
      ensures Objects() <= old(Objects()) + request.Footprint()
    {
      hide UserRequest.View, UserRequest.Valid;
      ghost var r := request.View();
      byRequestId := byRequestId[request.id := request];
      requests := requests[request.id := r];
      assert request.View() == r;
      AddEntry(jid, request);
    }

    method Submit(request: UserRequest, minion: Minion, accepts: bool, now: Time) returns (raised: bool)
      requires Valid() && request.Valid() && request.id !in byRequestId
      requires request.View() == NewRequest(request.plan) && Creatable(request.plan)
      modifies this, salt, request
      ensures Valid()
      ensures Effect(Contents(), raised)
           == RequestIndex.Submit(old(Contents()), request.id, request.plan, minion, accepts, now)
      ensures byRequestId == if raised then old(byRequestId) else old(byRequestId)[request.id := request]
      ensures Objects() <= old(Objects()) + request.Footprint()
    {
      hide UserRequest.Footprint;
      ghost var c := Contents();
      raised := request.Submit(minion, salt, accepts, now);
      assert Filed() && Indexed();
      if !raised {
        File(request, request.jid.value);
      }
      SubmitIs(c, request.id, request.plan, minion, accepts, now, request.View(), Contents());
      SubmitAgrees(c, request.id, request.plan, minion, accepts, now);
    }

    method Cancel(id: RequestId)
      requires Valid()
      modifies this`byJid, this`requests, this`index, Objects()
      ensures Valid()
      ensures Contents() == RequestIndex.Cancel(old(Contents()), id)
    {
      if id !in byRequestId || byRequestId[id].state == Complete {
        return;
      }
      FailAgrees(Contents(), id);
      EndWithError(byRequestId[id]);
    }

    method GetSubmitted() returns (all: set<RequestId>)
      requires Filed()
      ensures all == SubmittedIds(Contents())
    {
      all := set id | id in byRequestId && byRequestId[id].state == Submitted;
    }

    method FailAll() returns (ghost order: seq<RequestId>)
      requires Valid()
      modifies this`byJid, this`requests, this`index, Objects()
      ensures Valid()
      ensures Enumerates(order, SubmittedIds(old(Contents())))
      ensures Contents() == RequestIndex.FailAll(old(Contents()), order)
    {
      ghost var c := Contents();
      var all := GetSubmitted();
      var rest := all;
      ghost var done: set<RequestId> := {};
      order := [];
      while rest != {}
        invariant unchanged(this`byRequestId)
        invariant rest <= all && done == all - rest
        invariant Filed() && Indexed()
        invariant Enumerates(order, done)
        invariant Contents() == RequestIndex.FailAll(c, order)
        decreases |rest|
      {
        var id :| id in rest;
        ghost var left, more := TakeOut(all, rest, done, id);
        FailAllOneMore(c, order, done, id, more);
        EndWithError(byRequestId[id]);
        order, rest, done := order + [id], rest - {id}, more;
      }
      FailAllAgrees(c, order, all);
    }

    // Hand a map to a request that awaits it; one whose code raises is ended without the index.
    method OnAwaitedMap(request: UserRequest, t: SyncType, o: SyncObject, accepts: bool, now: Time)
      returns (raised: bool)
      requires Filed() && Indexed() && Holds(request)
      requires request.state == Submitted && (request.jid.Some? ==> request.jid.value in byJid)
      modifies this`byJid, this`requests, this`index, salt, request, request.progress
      ensures Filed() && Indexed() && unchanged(this`byRequestId)
      ensures var out := Requests.OnMap(old(request.View()), t, o, old(salt.Offer(accepts)), now);
              && raised == out.raised
              && requests == old(requests)[request.id := Settle(out).r]
              && index == (if raised then old(index)
                           else Reindex(old(index), request.id, old(request.jid), Settle(out).r.jid))
              && salt.nextSerial == old(salt.nextSerial) + |Settle(out).r.jobs| - |old(request.jobs)|
    {
      var oldJid := request.jid;
      raised := request.TakeMap(t, o, salt, accepts, now);
      OthersUnchanged(request);
      Refile(request);
      if !raised {
        UpdateIndex(request, oldJid);
      }
    }

    // Offer a map to one request, which may or may not await one of its type.
    method OnMapOne(request: UserRequest, t: SyncType, o: SyncObject, accepts: bool, now: Time)
      requires Filed() && Indexed() && Holds(request) && AllWellFormed(Contents())
      requires IsSubmitted(Contents(), request.id) && JobIndexed(Contents(), request.id)
      modifies this`byJid, this`requests, this`index, salt, request, request.progress
      ensures Filed() && Indexed() && unchanged(this`byRequestId)
      ensures Contents() == RequestIndex.OnMapOne(old(Contents()), request.id, t, o, accepts, now)
    {
      ghost var c := Contents();
      assert request.View() == c.requests[request.id];
      var versions := request.AwaitingVersions();
      if t in versions {
        ghost var out := Requests.OnMap(c.requests[request.id], t, o, Offer(c, accepts), now);
        var raised := OnAwaitedMap(request, t, o, accepts, now);
        OnMapOneIs(c, request.id, t, o, accepts, now, out, Contents());
      }
    }

    method OnMapEach(all: set<RequestId>, t: SyncType, o: SyncObject, refused: set<RequestId>, now: Time)
      returns (ghost order: seq<RequestId>)
      requires Valid() && all == SubmittedIds(Contents())
      modifies this`byJid, this`requests, this`index, salt, Objects()
      ensures Filed() && Indexed() && Enumerates(order, all)
      ensures Contents() == OnMapAll(old(Contents()), order, t, o, refused, now)
    {
      ghost var c := Contents();
      var rest := all;
      ghost var done: set<RequestId> := {};
      order := [];
      while rest != {}
        invariant unchanged(this`byRequestId)
        invariant rest <= all && done == all - rest
        invariant Filed() && Indexed()
        invariant Enumerates(order, done)
        invariant Contents() == OnMapAll(c, order, t, o, refused, now)
        decreases |rest|
      {
        var id :| id in rest;
        ghost var left, more := TakeOut(all, rest, done, id);
        OnMapAllOneMore(c, order, done, id, more, t, o, refused, now);
        OnMapOne(byRequestId[id], t, o, Accepts(refused, id), now);
        order, rest, done := order + [id], rest - {id}, more;
      }
    }

    method OnMap(t: SyncType, o: SyncObject, refused: set<RequestId>, now: Time) returns (ghost order: seq<RequestId>)
      requires Valid()
      modifies this`byJid, this`requests, this`index, salt, Objects()
      ensures Valid()
      ensures Enumerates(order, SubmittedIds(old(Contents())))
      ensures Contents() == OnMapAll(old(Contents()), order, t, o, refused, now)
    {
      ghost var c := Contents();
      var all := GetSubmitted();
      order := OnMapEach(all, t, o, refused, now);
      OnMapAllAgrees(c, order, all, t, o, refused, now);
    }

    // ---------------------------------------------------------------- the end of a job

    // The request's last job has ended well. The version that it now awaits is made known to the
    // mirrors, and an OSD map that is new enough already is handed over at once. A request whose
    // code raises is ended.
    method Progress(request: UserRequest, sync: SyncObjects, minion: Minion, version: nat, accepts: bool, now: Time)
      returns (raised: bool)
      requires request.Valid() && Sound(request.View()) && request.state == Submitted && request.jid.Some?
      requires sync.Valid()
      modifies request, request.progress, sync`fetchingAt, sync`knownVersions, salt
      ensures sync.Valid()
      ensures var p := CompleteSuccess(old(request.View()), old(sync.At(OsdMap)), minion, version,
                                       old(salt.Offer(accepts)), now);
              && raised == p.raised && request.View() == p.r
              && sync.OnlyAt(OsdMap, p.osdMap)
      ensures salt.nextSerial == old(salt.nextSerial) + |request.jobs| - |old(request.jobs)|
    {
      var oldJid := request.jid;
      CompleteJidIsSound(request.View(), version);
      raised := request.CompleteJid(version);
      assert request.jid != oldJid;
      var versions := request.AwaitingVersions();
      if OsdMap in versions {
        if versions[OsdMap].Some? {
          sync.OnVersion(Some(minion), OsdMap, versions[OsdMap], now);
        }
        if Awaits(versions[OsdMap]) && Cmp(OsdMap, sync.objects[OsdMap].version, versions[OsdMap]) >= 0 {
          raised := request.TakeMap(OsdMap, sync.objects[OsdMap], salt, accepts, now);
        }
      }
    }

    // The same of a filed request.
    method ProgressFiled(request: UserRequest, sync: SyncObjects, minion: Minion, version: nat, accepts: bool,
                         now: Time)
      returns (raised: bool)
      requires Filed() && Indexed() && Holds(request) && Sound(request.View())
      requires request.state == Submitted && request.jid.Some? && sync.Valid()
      modifies this`requests, salt, request, request.progress, sync`fetchingAt, sync`knownVersions
      ensures Filed() && Indexed() && sync.Valid()
      ensures var p := CompleteSuccess(old(request.View()), old(sync.At(OsdMap)), minion, version,
                                       old(salt.Offer(accepts)), now);
              && raised == p.raised && sync.OnlyAt(OsdMap, p.osdMap)
              && requests == old(requests)[request.id := p.r] && request.jid == p.r.jid
              && salt.nextSerial == old(salt.nextSerial) + |p.r.jobs| - |old(request.jobs)|
    {
      hide CompleteSuccess, SyncObjects.OnlyAt, SyncObjects.Valid;
      raised := Progress(request, sync, minion, version, accepts, now);
      OthersUnchanged(request);
      Refile(request);
    }

    method OnSuccess(request: UserRequest, sync: SyncObjects, minion: Minion, version: nat, accepts: bool, now: Time)
      returns (raised: bool)
      requires Filed() && Indexed() && Holds(request) && Sound(request.View())
      requires request.state == Submitted && request.jid.Some? && request.jid.value in byJid
      requires sync.Valid()
      modifies this`byJid, this`requests, this`index, salt, request, request.progress
      modifies sync`fetchingAt, sync`knownVersions
      ensures Filed() && Indexed() && unchanged(this`byRequestId) && sync.Valid()
      ensures var p := CompleteSuccess(old(request.View()), old(sync.At(OsdMap)), minion, version,
                                       old(salt.Offer(accepts)), now);
              && raised == p.raised && sync.OnlyAt(OsdMap, p.osdMap)
              && requests == old(requests)[request.id := p.r]
              && index == (if raised then old(index) else Reindex(old(index), request.id, old(request.jid), p.r.jid))
              && salt.nextSerial == old(salt.nextSerial) + |p.r.jobs| - |old(request.jobs)|
    {
      hide *;
      var oldJid := request.jid;
      raised := ProgressFiled(request, sync, minion, version, accepts, now);
      if !raised {
        UpdateIndex(request, oldJid);
      }
    }

    // Give a request up without the index hearing of it; one that is complete already raises.
    method GiveUpUnindexed(request: UserRequest) returns (raised: bool)
      requires Filed() && Indexed() && Holds(request)
      modifies this`requests, request`error, request`jid, request`state
      ensures Filed() && Indexed() && unchanged(this`byRequestId, this`byJid, this`index)
      ensures requests == old(requests)[request.id := Abandon(old(requests)[request.id]).r]
      ensures raised == Abandon(old(requests)[request.id]).raised
    {
      raised := request.GiveUp();
      OthersUnchanged(request);
      Refile(request);
    }

    // The commands of a job ran, and may have reported an error. Neither an error nor an exception
    // reaches the end of the block that updates the index.
    method OnRadosCompletion(request: UserRequest, sync: SyncObjects, minion: Minion, reply: Reply, accepts: bool,
                             now: Time)
      requires Filed() && Indexed() && Holds(request) && AllWellFormed(Contents())
      requires !reply.SaltFailure? && sync.Valid()
      requires request.state == Submitted ==>
                 Sound(request.View()) && request.jid.Some? && request.jid.value in byJid
      modifies this`byJid, this`requests, this`index, salt, request, request.progress
      modifies sync`fetchingAt, sync`knownVersions
      ensures Filed() && Indexed() && unchanged(this`byRequestId) && sync.Valid()
      ensures var o := OnRados(old(Contents()), old(sync.At(OsdMap)), request.id, minion, reply, accepts, now);
              Contents() == o.c && sync.OnlyAt(OsdMap, o.osdMap)
    {
      ghost var c := Contents();
      assert request.View() == c.requests[request.id];
      if request.state != Submitted {
        return;
      }
      match reply
      case RadosError =>
        var raised := GiveUpUnindexed(request);
      case Success(version) =>
        OnRadosSuccess(request, sync, minion, version, accepts, now);
    }

    method OnRadosSuccess(request: UserRequest, sync: SyncObjects, minion: Minion, version: nat, accepts: bool,
                          now: Time)
      requires Filed() && Indexed() && Holds(request) && AllWellFormed(Contents()) && sync.Valid()
      requires request.state == Submitted && Sound(request.View()) && request.jid.Some? && request.jid.value in byJid
      modifies this`byJid, this`requests, this`index, salt, request, request.progress
      modifies sync`fetchingAt, sync`knownVersions
      ensures Filed() && Indexed() && unchanged(this`byRequestId) && sync.Valid()
      ensures var o := OnRados(old(Contents()), old(sync.At(OsdMap)), request.id, minion, Success(version),
                            accepts, now);
              && requests == o.c.requests && index == o.c.byJid && salt.nextSerial == o.c.nextSerial
              && sync.OnlyAt(OsdMap, o.osdMap)
    {
      ghost var c, m := Contents(), sync.At(OsdMap);
      assert request.View() == c.requests[request.id];
      var raised := OnSuccess(request, sync, minion, version, accepts, now);
      ghost var p := CompleteSuccess(c.requests[request.id], m, minion, version, Offer(c, accepts), now);
      assert requests == c.requests[request.id := p.r];
      OnRadosSuccessIs(c, m, request.id, minion, version, accepts, now, p, Contents());
    }

    // A job other than one of mon commands has ended well.
    method OnSaltCallDone(request: UserRequest) returns (raised: bool)
      requires Filed() && Indexed() && Holds(request) && JobIndexed(Contents(), request.id)
      modifies this`byJid, this`requests, this`index, request
      ensures Filed() && Indexed() && unchanged(this`byRequestId)
      ensures var c, id := old(Contents()), request.id;
              var out := CompleteJid(c.requests[id], 0);
              raised == out.raised && Contents() == if raised then Put(c, id, out.r) else Update(c, id, out.r)
    {
      ghost var c := Contents();
      var oldJid := request.jid;
      assert request.View() == c.requests[request.id];
      raised := request.CompleteJid(0);
      OthersUnchanged(request);
      Refile(request);
      if !raised {
        UpdateIndex(request, oldJid);
      }
      ChangeIs(c, request.id, CompleteJid(c.requests[request.id], 0).r, raised, Contents());
    }

    method OnReply(request: UserRequest, minion: Minion, reply: Reply, sync: SyncObjects, accepts: bool, now: Time)
      returns (raised: bool)
      requires Filed() && Indexed() && Holds(request) && AllWellFormed(Contents()) && JobIndexed(Contents(), request.id)
      requires request.state == Submitted ==> Sound(request.View()) && request.jid.Some?
      requires sync.Valid()
      modifies this`byJid, this`requests, this`index, salt, request, request.progress
      modifies sync`fetchingAt, sync`knownVersions
      ensures Filed() && Indexed() && unchanged(this`byRequestId) && sync.Valid()
      ensures var done := RequestIndex.OnReply(old(Contents()), old(sync.At(OsdMap)), request.id, minion, reply,
                                               accepts, now);
              Contents() == done.c && raised == done.raised && sync.OnlyAt(OsdMap, done.osdMap)
    {
      assert request.View() == Contents().requests[request.id];
      raised := false;
      if reply.SaltFailure? {
        raised := EndIndexed(request);
      } else if request.plan.SaltCall? {
        raised := OnSaltCallDone(request);
      } else {
        OnRadosCompletion(request, sync, minion, reply, accepts, now);
      }
    }

    method OnCompletion(jid: JobId, minion: Minion, reply: Reply, sync: SyncObjects, accepts: bool, now: Time)
      returns (raised: bool)
      requires Valid() && sync.Valid()
      modifies this`byJid, this`requests, this`index, salt, Objects(), sync`fetchingAt, sync`knownVersions
      ensures Valid() && sync.Valid() && unchanged(this`byRequestId)
      ensures var done := RequestIndex.OnCompletion(old(Contents()), old(sync.At(OsdMap)), jid, minion, reply,
                                                    accepts, now);
              Contents() == done.c && raised == done.raised && sync.OnlyAt(OsdMap, done.osdMap)
    {
      OnCompletionAgrees(Contents(), sync.At(OsdMap), jid, minion, reply, accepts, now);
      if jid !in byJid {
        return false;
      }
      EntryIsIndexed(Contents(), jid);
      raised := OnReply(byJid[jid], minion, reply, sync, accepts, now);
    }

    // ---------------------------------------------------------------- the clock

    method FindOverdue(now: Time) returns (all: set<RequestId>)
      requires Filed() && Indexed()
      ensures all == OverdueIds(Contents(), now)
    {
      all := set j | j in byJid && byJid[j].aliveAt.Some?
                     && now - byJid[j].aliveAt.value > 3 * TICK_PERIOD :: byJid[j].id;
    }

    // End requests one by one. The walk stops where it raises, with the requests of `done` visited
    // in that `order`.
    method EndAll(all: set<RequestId>) returns (raised: bool, ghost order: seq<RequestId>, ghost done: set<RequestId>)
      requires Valid() && Endable(Contents(), all)
      modifies this`byJid, this`requests, this`index, Objects()
      ensures Filed() && Indexed() && unchanged(this`byRequestId)
      ensures done <= all && Enumerates(order, done) && (!raised ==> done == all)
      ensures Effect(Contents(), raised) == RequestIndex.Tick(old(Contents()), order)
    {
      ghost var c := Contents();
      var rest := all;
      raised, order, done := false, [], {};
      while rest != {} && !raised
        invariant unchanged(this`byRequestId)
        invariant rest <= all && done == all - rest
        invariant Filed() && Indexed()
        invariant Enumerates(order, done)
        invariant Effect(Contents(), raised) == RequestIndex.Tick(c, order)
        decreases |rest|
      {
        var id :| id in rest;
        ghost var left, more := TakeOut(all, rest, done, id);
        TickOneMore(c, order, done, id, more);
        raised := EndIndexed(byRequestId[id]);
        order, rest, done := order + [id], rest - {id}, more;
      }
    }

    // Requests that have not been heard of for too long are ended.
    method Tick(now: Time) returns (raised: bool, ghost order: seq<RequestId>, ghost done: set<RequestId>)
      requires Valid()
      modifies this`byJid, this`requests, this`index, Objects()
      ensures Valid() && unchanged(this`byRequestId)
      ensures done <= OverdueIds(old(Contents()), now) && Enumerates(order, done)
      ensures !raised ==> done == OverdueIds(old(Contents()), now)
      ensures Effect(Contents(), raised) == RequestIndex.Tick(old(Contents()), order)
    {
      ghost var c := Contents();
      var all := FindOverdue(now);
      OverdueAreEndable(c, now);
      raised, order, done := EndAll(all);
      TickAgrees(c, order, done);
    }

    method Touch(jid: JobId, now: Time)
      requires Filed() && Indexed()
      modifies this`requests, Objects()
      ensures Filed() && Indexed() && unchanged(this`byRequestId, this`byJid, this`index)
      ensures Contents() == Alive(old(Contents()), jid, now)
    {
      if jid in byJid {
        var request := byJid[jid];
        request.aliveAt := Some(now);
        OthersUnchanged(request);
        Refile(request);
      }
    }

    method OnTickResponse(jobs: seq<JobId>, now: Time)
      requires Valid()
      modifies this`requests, Objects()
      ensures Valid() && unchanged(this`byRequestId, this`byJid)
      ensures Contents() == RequestIndex.OnTickResponse(old(Contents()), jobs, now)
    {
      ghost var c := Contents();
      for i := 0 to |jobs|
        invariant unchanged(this`byRequestId, this`byJid, this`index)
        invariant Filed() && Indexed()
        invariant Contents() == RequestIndex.OnTickResponse(c, jobs[..i], now)
      {
        OnTickResponseOneMore(c, jobs, i, now);
        Touch(jobs[i], now);
      }
      assert jobs[..|jobs|] == jobs;
      OnTickResponseAgrees(c, jobs, now);
    }
  }
}
