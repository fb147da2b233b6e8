// Who is registered under which name, and where the services are: what decides whether services
// can be registered with a server.
module Rolls {
  import opened Wrappers
  import opened Placements

  // The servers registered by name, and by the name of their host; the placements; and of each
  // server that can be reached its own name, and whether it was only inferred from a map.
  datatype Roll = Roll(servers: map<string, ServerState>, byHost: map<string, ServerState>, rel: Relation,
                       fqdn: map<ServerState, string>, inferred: set<ServerState>)
  {
    ghost predicate Valid() {
      && inferred <= fqdn.Keys
      && (forall id :: id in rel ==> rel[id].server in fqdn)
      && (forall f :: f in servers ==> servers[f] in fqdn && fqdn[servers[f]] == f)
      && (forall h :: h in byHost ==> byHost[h] in fqdn && byHost[h].hostname == h)
    }

    predicate Registered(s: ServerState)
      requires s in fqdn
    {
      fqdn[s] in servers && servers[fqdn[s]] == s
    }

    // Nobody else is registered under the server's name.
    predicate Undisputed(s: ServerState)
      requires s in fqdn
    {
      fqdn[s] in servers ==> servers[fqdn[s]] == s
    }

    // No inferred server that holds a service shares its name with another one that is registered.
    ghost predicate Orderly()
      requires Valid()
    {
      forall id :: id in rel && rel[id].server in inferred ==> Undisputed(rel[id].server)
    }

    // An inferred server that is not registered any more, and holds services, but none beyond these.
    ghost predicate Stranded(u: ServerState, ids: set<ServiceId>)
      requires Valid()
    {
      && u in inferred && fqdn[u] !in servers && !Deserted(rel, u)
      && forall id :: id in rel && rel[id].server == u ==> id in ids
    }

    ghost predicate AnyStranded(but: ServerState, ids: set<ServiceId>)
      requires Valid()
    {
      exists u :: u in inferred && u != but && Stranded(u, ids)
    }

    // To register these services with the server fails: one of them is new, and the server itself
    // is not registered; or they are all that a server holds that would have to be struck off, and
    // is not registered.
    ghost predicate Fails(server: ServerState, ids: set<ServiceId>)
      requires Valid() && server in fqdn
    {
      || (fqdn[server] !in servers && exists id :: id in ids && id !in rel)
      || AnyStranded(server, ids)
    }

    // Where a service is before it is registered with a server: on the server it has been on, or,
    // if it is new, on the one that goes by the name of the new server.
    function Home(server: ServerState, id: ServiceId): Option<ServerState>
      requires server in fqdn
    {
      if id in rel then Some(rel[id].server)
      else if fqdn[server] in servers then Some(servers[fqdn[server]])
      else None
    }
  }

  // ---------------------------------------------------------------- one service

  predicate SameServers(m: Roll, m': Roll) {
    m'.fqdn == m.fqdn && m'.inferred == m.inferred && m'.byHost == m.byHost
  }

  // What it comes to when a service is registered with a server: the server that loses it is
  // struck off if it was only inferred and has no other, which fails if it is not registered.
  ghost predicate RegistersOne(m: Roll, server: ServerState, id: ServiceId, r: Report, m': Roll, raised: bool)
    requires m.Valid() && server in m.fqdn
  {
    && SameServers(m, m')
    && match m.Home(server, id)
       case None => raised && m' == m
       case Some(h) =>
         var deserted := h != server && h in m.inferred && Deserted(m'.rel, h);
         && m'.rel == m.rel[id := Placement(server, r.running, r.status)]
         && m'.servers == (if deserted then m.servers - {m.fqdn[h]} else m.servers)
         && raised == (deserted && m.fqdn[h] !in m.servers)
  }

  // The other services of a server stay where they are.
  lemma HeldOthers(m: Roll, server: ServerState, id: ServiceId, r: Report, m': Roll, raised: bool, u: ServerState)
    requires m.Valid() && server in m.fqdn && RegistersOne(m, server, id, r, m', raised) && u != server
    requires m.Home(server, id).Some?
    ensures forall i :: i in m'.rel && m'.rel[i].server == u <==> i in m.rel && m.rel[i].server == u && i != id
    ensures Deserted(m'.rel, u) <==> forall i :: i in m.rel && m.rel[i].server == u ==> i == id
  {
    assert forall i :: i in m.rel && m.rel[i].server == u && i != id ==> i in m'.rel && m'.rel[i].server == u;
  }

  lemma RegistersOneValid(m: Roll, server: ServerState, id: ServiceId, r: Report, m': Roll)
    requires m.Valid() && server in m.fqdn && RegistersOne(m, server, id, r, m', false)
    ensures m'.Valid()
    ensures m.Orderly() && m.Undisputed(server) ==> m'.Orderly() && m'.Undisputed(server)
  {
  }

  lemma StrandedLater(m: Roll, server: ServerState, ids: set<ServiceId>, id: ServiceId, r: Report, m': Roll,
                      u: ServerState)
    requires m.Valid() && m'.Valid() && server in m.fqdn && RegistersOne(m, server, id, r, m', false)
    requires m.Orderly() && m.Undisputed(server) && id in ids && u != server
    ensures m'.Stranded(u, ids - {id}) <==> m.Stranded(u, ids)
  {
    HeldOthers(m, server, id, r, m', false, u);
    if !Deserted(m.rel, u) {
      var i :| i in m.rel && m.rel[i].server == u;
    }
  }

  // With one service registered, the others fail exactly if all of them would have failed.
  lemma FailsLater(m: Roll, server: ServerState, ids: set<ServiceId>, id: ServiceId, r: Report, m': Roll, raised: bool)
    requires m.Valid() && server in m.fqdn && RegistersOne(m, server, id, r, m', raised)
    requires m.Orderly() && m.Undisputed(server) && id in ids
    ensures raised ==> m.Fails(server, ids)
    ensures !raised ==> m'.Valid() && (m'.Fails(server, ids - {id}) <==> m.Fails(server, ids))
  {
    if raised {
      FailsNow(m, server, ids, id, r, m');
    } else {
      RegistersOneValid(m, server, id, r, m');
      forall u | u in m.inferred && u != server
        ensures m'.Stranded(u, ids - {id}) <==> m.Stranded(u, ids)
      {
        StrandedLater(m, server, ids, id, r, m', u);
      }
      assert m.fqdn[server] in m'.servers <==> m.fqdn[server] in m.servers;
      if i :| i in ids && i !in m.rel {
        assert i != id ==> i in ids - {id} && i !in m'.rel;
      }
    }
  }

  lemma FailsNow(m: Roll, server: ServerState, ids: set<ServiceId>, id: ServiceId, r: Report, m': Roll)
    requires m.Valid() && server in m.fqdn && RegistersOne(m, server, id, r, m', true)
    requires m.Undisputed(server) && id in ids
    ensures m.Fails(server, ids)
  {
    if m.Home(server, id).Some? {
      var h := m.Home(server, id).value;
      HeldOthers(m, server, id, r, m', true, h);
      assert m.Stranded(h, ids);
    }
  }

  // ---------------------------------------------------------------- many services

  // Servers are struck off by name, and every inferred one that has lost its last service is.
  ghost predicate Trimmed(m: Roll, m': Roll, server: ServerState)
    requires m.Valid() && m'.Valid()
  {
    && SameServers(m, m')
    && (forall f :: f in m'.servers ==> f in m.servers && m'.servers[f] == m.servers[f])
    && (forall u :: u in m.inferred && u != server && !Deserted(m.rel, u) && Deserted(m'.rel, u) ==>
          m.fqdn[u] !in m'.servers)
  }

  // Only inferred servers that have lost their last service are struck off.
  ghost predicate OnlyDeserted(m: Roll, m': Roll, server: ServerState) {
    forall f :: f in m.servers && f !in m'.servers ==>
      var u := m.servers[f];
      u != server && u in m.inferred && !Deserted(m.rel, u) && Deserted(m'.rel, u)
  }

  lemma TrimmedNext(m: Roll, server: ServerState, m1: Roll, id: ServiceId, r: Report, m2: Roll)
    requires m.Valid() && m1.Valid() && m2.Valid() && server in m.fqdn && Trimmed(m, m1, server)
    requires RegistersOne(m1, server, id, r, m2, false)
    ensures Trimmed(m, m2, server)
  {
    forall u | u in m.inferred && u != server && !Deserted(m.rel, u) && Deserted(m2.rel, u)
      ensures m.fqdn[u] !in m2.servers
    {
      HeldOthers(m1, server, id, r, m2, false, u);
      if !Deserted(m1.rel, u) {
        var i :| i in m1.rel && m1.rel[i].server == u;
      }
    }
  }

  lemma OnlyDesertedNext(m: Roll, server: ServerState, m1: Roll, id: ServiceId, r: Report, m2: Roll)
    requires m.Valid() && m1.Valid() && m2.Valid() && server in m.fqdn && Trimmed(m, m1, server)
    requires m1.Orderly() && m1.Undisputed(server)
    requires forall i :: i in m1.rel && m1.rel[i].server != server ==> i in m.rel && m.rel[i].server == m1.rel[i].server
    requires OnlyDeserted(m, m1, server) && RegistersOne(m1, server, id, r, m2, false)
    ensures OnlyDeserted(m, m2, server)
  {
    forall f | f in m.servers && f !in m2.servers
      ensures var u := m.servers[f];
              u != server && u in m.inferred && !Deserted(m.rel, u) && Deserted(m2.rel, u)
    {
      var u := m.servers[f];
      if f in m1.servers {
        assert m.rel[id].server == m1.rel[id].server == u;
      } else {
        HeldOthers(m1, server, id, r, m2, false, u);
      }
    }
  }

  // The reports that have been dealt with, and those that are left.
  ghost predicate Divided(reports: map<ServiceId, Report>, done: map<ServiceId, Report>, rest: set<ServiceId>) {
    && (forall id :: id in done ==> id in reports && id !in rest && done[id] == reports[id])
    && (forall id :: id in reports ==> id in rest || id in done)
    && rest <= reports.Keys
  }

  // The servers so far, if names were in order: still in order, and about to fail if bound to.
  ghost predicate InOrder(m: Roll, m1: Roll, server: ServerState, ids: set<ServiceId>, rest: set<ServiceId>)
    requires m.Valid() && m1.Valid() && server in m.fqdn && server in m1.fqdn
  {
    && m1.Orderly() && m1.Undisputed(server) && OnlyDeserted(m, m1, server)
    && (m1.Fails(server, rest) <==> m.Fails(server, ids))
  }

  // The services of a report are registered one by one; some still have to be.
  ghost predicate Halfway(m: Roll, m1: Roll, server: ServerState, reports: map<ServiceId, Report>,
                          done: map<ServiceId, Report>, rest: set<ServiceId>)
    requires m.Valid() && server in m.fqdn
  {
    && m1.Valid() && server in m1.fqdn
    && Divided(reports, done, rest) && m1.rel == Reported(m.rel, server, done)
    && Trimmed(m, m1, server)
    && (m.fqdn[server] !in m.servers ==> done.Keys <= m.rel.Keys)
    && (m.Orderly() && m.Undisputed(server) ==> InOrder(m, m1, server, reports.Keys, rest))
  }

  lemma NothingRegistered(m: Roll, server: ServerState, reports: map<ServiceId, Report>)
    requires m.Valid() && server in m.fqdn
    ensures Halfway(m, m, server, reports, map[], reports.Keys)
  {
    assert m.rel == Reported(m.rel, server, map[]);
  }

  lemma DividedNext(reports: map<ServiceId, Report>, done: map<ServiceId, Report>, rest: set<ServiceId>, id: ServiceId)
    requires Divided(reports, done, rest) && id in rest
    ensures Divided(reports, done[id := reports[id]], rest - {id})
  {
  }

  lemma ReportedNext(m: Roll, m1: Roll, server: ServerState, done: map<ServiceId, Report>, id: ServiceId, r: Report,
                     m2: Roll)
    requires m1.Valid() && server in m1.fqdn && m1.rel == Reported(m.rel, server, done) && id !in done
    requires RegistersOne(m1, server, id, r, m2, false)
    ensures m2.Valid() && server in m2.fqdn
    ensures m2.rel == Reported(m.rel, server, done[id := r])
    ensures m1.fqdn[server] !in m1.servers ==> id in m1.rel
  {
    RegistersOneValid(m1, server, id, r, m2);
    ReportedOneMore(m.rel, server, done, id, r);
  }

  lemma HalfwayNext(m: Roll, m1: Roll, server: ServerState, reports: map<ServiceId, Report>,
                    done: map<ServiceId, Report>, rest: set<ServiceId>, id: ServiceId, m2: Roll)
    requires m.Valid() && server in m.fqdn && Halfway(m, m1, server, reports, done, rest) && id in rest
    requires RegistersOne(m1, server, id, reports[id], m2, false)
    ensures Halfway(m, m2, server, reports, done[id := reports[id]], rest - {id})
  {
    DividedNext(reports, done, rest, id);
    ReportedNext(m, m1, server, done, id, reports[id], m2);
    TrimmedNext(m, server, m1, id, reports[id], m2);
    if m.Orderly() && m.Undisputed(server) {
      InOrderNext(m, m1, server, reports.Keys, done, rest, id, reports[id], m2);
    }
  }

  lemma InOrderNext(m: Roll, m1: Roll, server: ServerState, ids: set<ServiceId>, done: map<ServiceId, Report>,
                    rest: set<ServiceId>, id: ServiceId, r: Report, m2: Roll)
    requires m.Valid() && m1.Valid() && m2.Valid() && server in m.fqdn && Trimmed(m, m1, server)
    requires m1.rel == Reported(m.rel, server, done)
    requires InOrder(m, m1, server, ids, rest)
    requires id in rest && RegistersOne(m1, server, id, r, m2, false)
    ensures InOrder(m, m2, server, ids, rest - {id})
  {
    RegistersOneValid(m1, server, id, r, m2);
    OnlyDesertedNext(m, server, m1, id, r, m2);
    FailsLater(m1, server, rest, id, r, m2, false);
  }

  // Some part of the report has been registered, and nothing else has changed place.
  ghost predicate PartReported(rel: Relation, server: ServerState, reports: map<ServiceId, Report>, rel': Relation) {
    exists done: map<ServiceId, Report> :: done.Items <= reports.Items && rel' == Reported(rel, server, done)
  }

  // What a server's report leaves. If names are in order, it fails exactly if it is bound to.
  ghost predicate RegistersAll(m: Roll, server: ServerState, reports: map<ServiceId, Report>, m': Roll, raised: bool)
    requires m.Valid() && server in m.fqdn
  {
    && m'.Valid()
    && SameServers(m, m')
    && (forall f :: f in m'.servers ==> f in m.servers && m'.servers[f] == m.servers[f])
    && (forall id :: id in m'.rel ==> id in m.rel || (id in reports && m.fqdn[server] in m.servers))
    && PartReported(m.rel, server, reports, m'.rel)
    && (!raised ==>
          && m'.rel == Reported(m.rel, server, reports)
          && Trimmed(m, m', server)
          && (m.fqdn[server] !in m.servers ==> reports.Keys <= m.rel.Keys))
    && (m.Orderly() && m.Undisputed(server) ==>
          && (raised <==> m.Fails(server, reports.Keys))
          && (!raised ==> m'.Orderly() && OnlyDeserted(m, m', server)))
  }

  lemma PartIsReported(rel: Relation, server: ServerState, reports: map<ServiceId, Report>,
                       done: map<ServiceId, Report>, rest: set<ServiceId>)
    requires Divided(reports, done, rest)
    ensures PartReported(rel, server, reports, Reported(rel, server, done))
  {
    hide Reported;
    assert forall p :: p in done.Items ==> p in reports.Items;
  }

  lemma HalfwayPart(m: Roll, m1: Roll, server: ServerState, reports: map<ServiceId, Report>,
                    done: map<ServiceId, Report>, rest: set<ServiceId>, id: ServiceId, m2: Roll)
    requires m1.Valid() && server in m1.fqdn && id in rest
    requires Divided(reports, done, rest) && m1.rel == Reported(m.rel, server, done)
    requires RegistersOne(m1, server, id, reports[id], m2, true)
    ensures PartReported(m.rel, server, reports, m2.rel)
  {
    hide PartReported, Reported, Deserted;
    ReportedOneMore(m.rel, server, done, id, reports[id]);
    DividedNext(reports, done, rest, id);
    PartIsReported(m.rel, server, reports, done[id := reports[id]], rest - {id});
    PartIsReported(m.rel, server, reports, done, rest);
  }

  lemma HalfwayFails(m: Roll, m1: Roll, server: ServerState, reports: map<ServiceId, Report>,
                     done: map<ServiceId, Report>, rest: set<ServiceId>, id: ServiceId, m2: Roll)
    requires m.Valid() && server in m.fqdn && Halfway(m, m1, server, reports, done, rest) && id in rest
    requires RegistersOne(m1, server, id, reports[id], m2, true) && m2.Valid()
    ensures RegistersAll(m, server, reports, m2, true)
  {
    hide PartReported, Deserted;
    HalfwayPart(m, m1, server, reports, done, rest, id, m2);
    if m.Orderly() && m.Undisputed(server) {
      FailsLater(m1, server, rest, id, reports[id], m2, true);
    }
  }

  lemma HalfwayDone(m: Roll, m1: Roll, server: ServerState, reports: map<ServiceId, Report>,
                    done: map<ServiceId, Report>)
    requires m.Valid() && server in m.fqdn && Halfway(m, m1, server, reports, done, {})
    ensures RegistersAll(m, server, reports, m1, false)
  {
    assert done == reports;
    PartIsReported(m.rel, server, reports, done, {});
    assert !m1.AnyStranded(server, {});
  }

  // ---------------------------------------------------------------- whose heartbeat it is

  // An inferred server that goes by this hostname.
  predicate IsInferred(m: Roll, grains: Option<string>) {
    grains.Some? && grains.value in m.byHost && m.byHost[grains.value] in m.inferred
  }

  // The known server that a heartbeat is from, if any: registered, or inferred from a map before.
  function Sender(m: Roll, fqdn: string, grains: Option<string>): Option<ServerState> {
    if fqdn in m.servers then Some(m.servers[fqdn])
    else if IsInferred(m, grains) then Some(m.byHost[grains.value])
    else None
  }

  // The sender cannot be found: Salt does not know it, or its old name is gone.
  ghost predicate Unfindable(m: Roll, fqdn: string, grains: Option<string>)
    requires m.Valid()
  {
    fqdn !in m.servers &&
      (grains.None? || (IsInferred(m, grains) && m.fqdn[m.byHost[grains.value]] !in m.servers))
  }

  // The sender is managed from now on, and registered under the name that it gives.
  ghost predicate Finds(m: Roll, fqdn: string, grains: Option<string>, server: ServerState, m': Roll)
    requires m.Valid() && !Unfindable(m, fqdn, grains)
  {
    && m'.rel == m.rel
    && match Sender(m, fqdn, grains)
       case Some(s) =>
         && server == s && m'.inferred == m.inferred - {s} && m'.byHost == m.byHost
         && (if fqdn in m.servers then m'.servers == m.servers && m'.fqdn == m.fqdn
             else m'.servers == (m.servers - {m.fqdn[s]})[fqdn := s] && m'.fqdn == m.fqdn[s := fqdn])
       case None =>
         && server !in m.fqdn && server.hostname == grains.value
         && m' == Roll(m.servers[fqdn := server], m.byHost[grains.value := server], m.rel, m.fqdn[server := fqdn],
                       m.inferred)
  }

  // Names are in order, and stay so when the sender takes its own: no inferred server with services
  // has that, nor does one of them have the name that the sender has had so far.
  ghost predicate InOrderFor(m: Roll, fqdn: string, grains: Option<string>)
    requires m.Valid()
  {
    && m.Orderly()
    && (fqdn !in m.servers ==>
          forall id :: id in m.rel && m.rel[id].server in m.inferred ==>
            m.fqdn[m.rel[id].server] != fqdn || Sender(m, fqdn, grains) == Some(m.rel[id].server))
    && (fqdn !in m.servers && IsInferred(m, grains) ==> m.Undisputed(m.byHost[grains.value]))
  }

  ghost predicate StrandsOther(m: Roll, sender: Option<ServerState>, ids: set<ServiceId>)
    requires m.Valid()
  {
    exists u :: u in m.inferred && Some(u) != sender && m.Stranded(u, ids)
  }

  // A heartbeat fails if its sender cannot be found, or if it takes the last services from a server
  // that would have to be struck off, and is not registered.
  lemma HeartbeatFails(m: Roll, fqdn: string, grains: Option<string>, server: ServerState, m': Roll,
                       ids: set<ServiceId>)
    requires m.Valid() && InOrderFor(m, fqdn, grains)
    requires !Unfindable(m, fqdn, grains) && Finds(m, fqdn, grains, server, m')
    ensures m'.Valid() && server in m'.fqdn && m'.Orderly() && m'.Registered(server)
    ensures m'.Fails(server, ids) <==> StrandsOther(m, Sender(m, fqdn, grains), ids)
  {
    FoundInOrder(m, fqdn, grains, server, m');
    forall u | u in m.inferred && u != server && !Deserted(m.rel, u)
      ensures u in m'.inferred && (m'.Stranded(u, ids) <==> m.Stranded(u, ids))
    {
      var id :| id in m.rel && m.rel[id].server == u;
      assert m.Undisputed(u);
    }
  }

  lemma HeartbeatEnds(m: Roll, fqdn: string, grains: Option<string>, server: ServerState, m1: Roll,
                      reports: map<ServiceId, Report>, m': Roll, raised: bool)
    requires m.Valid() && m1.Valid() && server in m1.fqdn
    requires !Unfindable(m, fqdn, grains) && Finds(m, fqdn, grains, server, m1)
    requires RegistersAll(m1, server, reports, m', raised)
    ensures InOrderFor(m, fqdn, grains) ==> (raised <==> StrandsOther(m, Sender(m, fqdn, grains), reports.Keys))
    ensures !raised ==>
              && m'.rel == Reported(m.rel, server, reports)
              && forall id :: id in reports ==> id in m'.rel && m'.rel[id].server == server
  {
    if InOrderFor(m, fqdn, grains) {
      HeartbeatFails(m, fqdn, grains, server, m1, reports.Keys);
    }
  }

  // A server whose old name is gone is not registered anew, but counts as managed from then on.
  function Claimed(m: Roll, grains: Option<string>): Roll {
    if IsInferred(m, grains) then m.(inferred := m.inferred - {m.byHost[grains.value]}) else m
  }

  // What a heartbeat leaves. Its sender is found first, which gives `found`; then its services are
  // registered; and what it does not name has stopped.
  ghost predicate HeartbeatAnswered(m: Roll, fqdn: string, grains: Option<string>, seen: map<ServiceId, Status>,
                                    server: ServerState?, found: Roll, m': Roll, raised: bool)
    requires m.Valid()
  {
    if Unfindable(m, fqdn, grains) then raised && m' == Claimed(m, grains)
    else
      && server != null && Finds(m, fqdn, grains, server, found)
      && found.Valid() && server in found.fqdn
      && (InOrderFor(m, fqdn, grains) ==> (raised <==> StrandsOther(m, Sender(m, fqdn, grains), seen.Keys)))
      && var reports := FromHeartbeat(seen);
         if raised then RegistersAll(found, server, reports, m', true)
         else
           && RegistersAll(found, server, reports, m'.(rel := Reported(m.rel, server, reports)), false)
           && m'.rel == Stopped(Reported(m.rel, server, reports), server, seen.Keys)
  }

  lemma HeartbeatLost(m: Roll, fqdn: string, grains: Option<string>, seen: map<ServiceId, Status>,
                      server: ServerState?, found: Roll)
    requires m.Valid() && Unfindable(m, fqdn, grains)
    ensures HeartbeatAnswered(m, fqdn, grains, seen, server, found, Claimed(m, grains), true)
  {
  }

  lemma HeartbeatEnded(m: Roll, fqdn: string, grains: Option<string>, seen: map<ServiceId, Status>,
                       server: ServerState, found: Roll, registered: Roll, m': Roll, raised: bool)
    requires m.Valid() && found.Valid() && server in found.fqdn
    requires !Unfindable(m, fqdn, grains) && Finds(m, fqdn, grains, server, found)
    requires RegistersAll(found, server, FromHeartbeat(seen), registered, raised)
    requires m' == if raised then registered
                   else registered.(rel := Stopped(registered.rel, server, seen.Keys))
    ensures HeartbeatAnswered(m, fqdn, grains, seen, server, found, m', raised)
  {
    SeenReports(seen);
    HeartbeatEnds(m, fqdn, grains, server, found, FromHeartbeat(seen), registered, raised);
    hide RegistersAll, Finds, Unfindable, InOrderFor, StrandsOther;
    if !raised {
      assert m'.(rel := Reported(m.rel, server, FromHeartbeat(seen))) == registered;
    }
  }

  // Whose heartbeat it was: the server registered by this name; or one that was made up for its hostname,
  // and now takes the name; or a new one, if the hostname is not known, or is a managed server's. It is
  // managed from now on, and has the name; other servers are called what they were.
  lemma HeartbeatFound(m: Roll, fqdn: string, grains: Option<string>, seen: map<ServiceId, Status>,
                       server: ServerState?, found: Roll, m': Roll, raised: bool)
    requires m.Valid() && HeartbeatAnswered(m, fqdn, grains, seen, server, found, m', raised)
    ensures var madeUp := grains.Some? && grains.value in m.byHost && m.byHost[grains.value] in m.inferred;
            if fqdn !in m.servers && (grains.None? || (madeUp && m.fqdn[m.byHost[grains.value]] !in m.servers)) then
              && raised && m'.rel == m.rel && m'.servers == m.servers && m'.byHost == m.byHost && m'.fqdn == m.fqdn
              && m'.inferred == if madeUp then m.inferred - {m.byHost[grains.value]} else m.inferred
            else
              && server != null
              && m'.fqdn == m.fqdn[server := fqdn] && m'.inferred == m.inferred - {server}
              && (forall f :: f in m'.servers ==>
                    if f == fqdn then m'.servers[f] == server else f in m.servers && m'.servers[f] == m.servers[f])
              && if fqdn in m.servers then server == m.servers[fqdn] && m'.byHost == m.byHost
                 else if madeUp then
                   && server == m.byHost[grains.value] && m'.byHost == m.byHost
                   && (m.fqdn[server] != fqdn ==> m.fqdn[server] !in m'.servers)
                 else
                   && server !in m.fqdn && server.hostname == grains.value
                   && m'.byHost == m.byHost[grains.value := server]
  {
    hide Deserted, Halted, Roll.Stranded, Roll.AnyStranded, Roll.Fails, Trimmed, OnlyDeserted, PartReported, InOrderFor;
    hide StrandsOther, Reported, Stopped;
    if !Unfindable(m, fqdn, grains) {
      if fqdn in m.servers {
        assert m.fqdn[m.servers[fqdn]] == fqdn;
        assert m.fqdn[server := fqdn] == m.fqdn;
      }
      assert SameServers(found, m');
      assert forall f :: f in m'.servers ==> f in found.servers && m'.servers[f] == found.servers[f];
    }
  }

  lemma FoundInOrder(m: Roll, fqdn: string, grains: Option<string>, server: ServerState, m': Roll)
    requires m.Valid() && InOrderFor(m, fqdn, grains)
    requires !Unfindable(m, fqdn, grains) && Finds(m, fqdn, grains, server, m')
    ensures m'.Valid() && server in m'.fqdn && m'.Orderly() && m'.Registered(server)
  {
  }
}
