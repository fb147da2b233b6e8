// What the deletion of a cluster does to the roll of servers: its services go one by one, and with
// the last service of an inferred server whoever is registered under that server's name.
module DeletionRolls {
  import opened Placements
  import opened Rolls

  // The server registered by this name goes, with all that it holds.
  ghost function Struck(m: Roll, f: string): Roll
    requires f in m.servers
  {
    var v := m.servers[f];
    Roll(m.servers - {f}, m.byHost - {v.hostname}, WithoutServer(m.rel, v), m.fqdn - {v}, m.inferred - {v})
  }

  lemma StruckValid(m: Roll, f: string)
    requires m.Valid() && f in m.servers
    ensures Struck(m, f).Valid()
  {
  }

  ghost predicate DropsOne(m: Roll, id: ServiceId, m': Roll, raised: bool)
    requires m.Valid() && id in m.rel
  {
    var u, m1 := m.rel[id].server, m.(rel := m.rel - {id});
    if u !in m.inferred || !Deserted(m1.rel, u) then m' == m1 && !raised
    else if m.fqdn[u] !in m.servers then m' == m1 && raised
    else m' == Struck(m1, m.fqdn[u]) && !raised
  }

  lemma WithoutOne(m: Roll, id: ServiceId)
    requires m.Valid()
    ensures m.(rel := m.rel - {id}).Valid()
  {
  }

  lemma DropsOneIs(m: Roll, id: ServiceId, m1: Roll, m': Roll, raised: bool)
    requires m.Valid() && id in m.rel && m1 == m.(rel := m.rel - {id})
    requires var u := m.rel[id].server;
             if u in m1.inferred && Deserted(m1.rel, u) then
               && (raised <==> m1.fqdn[u] !in m1.servers)
               && m' == (if raised then m1 else Struck(m1, m1.fqdn[u]))
             else !raised && m' == m1
    ensures DropsOne(m, id, m', raised)
  {
  }

  // ---------------------------------------------------------------- so far

  // The services that are left: not dropped, and of a server that is still there.
  ghost function Left(rel: Relation, done: set<ServiceId>, known: set<ServerState>): Relation {
    map id | id in rel && id !in done && rel[id].server in known :: rel[id]
  }

  // The server was registered under the name of an inferred one that held a service of the cluster.
  ghost predicate BroughtDown(m: Roll, fsid: Fsid, v: ServerState)
    requires m.Valid()
  {
    exists id :: id in m.rel && id.fsid == fsid && m.rel[id].server in m.inferred
                 && var f := m.fqdn[m.rel[id].server]; f in m.servers && m.servers[f] == v
  }

  ghost predicate Deleting(m0: Roll, m: Roll, fsid: Fsid, done: set<ServiceId>)
    requires m0.Valid()
  {
    && m.Valid()
    && (forall id :: id in done ==> id in m0.rel && id.fsid == fsid)
    && (forall s :: s in m.fqdn ==> s in m0.fqdn && m.fqdn[s] == m0.fqdn[s] && (s in m.inferred <==> s in m0.inferred))
    && (forall f :: f in m.servers ==> f in m0.servers && m.servers[f] == m0.servers[f])
    && m.rel == Left(m0.rel, done, m.fqdn.Keys)
    && (forall v :: v in m0.fqdn && v !in m.fqdn ==> BroughtDown(m0, fsid, v))
  }

  lemma DeletingNext(m0: Roll, m: Roll, fsid: Fsid, done: set<ServiceId>, id: ServiceId, m': Roll, raised: bool)
    requires m0.Valid() && Deleting(m0, m, fsid, done) && id in m.rel && id.fsid == fsid
    requires DropsOne(m, id, m', raised)
    ensures Deleting(m0, m', fsid, done + {id})
  {
    var u, m1 := m.rel[id].server, m.(rel := m.rel - {id});
    assert m1.rel == Left(m0.rel, done + {id}, m1.fqdn.Keys);
    if m' != m1 {
      StruckValid(m1, m.fqdn[u]);
      var v := m.servers[m.fqdn[u]];
      assert BroughtDown(m0, fsid, v);
      assert m'.rel == Left(m0.rel, done + {id}, m'.fqdn.Keys);
    }
  }

  // ---------------------------------------------------------------- when names are in order

  // No inferred server with services of the cluster shares its name with another registered one.
  ghost predicate OrderlyIn(m: Roll, fsid: Fsid)
    requires m.Valid()
  {
    forall id :: id in m.rel && id.fsid == fsid && m.rel[id].server in m.inferred ==> m.Undisputed(m.rel[id].server)
  }

  // An inferred server that is not registered, and holds services of this cluster only.
  ghost predicate StrandedIn(m: Roll, fsid: Fsid)
    requires m.Valid()
  {
    exists u :: u in m.inferred && m.fqdn[u] !in m.servers && HoldsOnly(m.rel, u, fsid)
  }

  ghost predicate HoldsOnly(rel: Relation, u: ServerState, fsid: Fsid) {
    !Deserted(rel, u) && forall id :: id in rel && rel[id].server == u ==> id.fsid == fsid
  }

  // Only servers that were left without a service have gone, and all inferred ones of them.
  ghost predicate OrderlySoFar(m0: Roll, m: Roll, fsid: Fsid, done: set<ServiceId>)
    requires m0.Valid()
  {
    && m.Valid() && m.rel == m0.rel - done
    && (forall id :: id in done ==> id in m0.rel && Gone(m0, m, m0.rel[id].server))
    && (forall f :: f in m0.servers && f !in m.servers ==> Deserted(m.rel, m0.servers[f]))
  }

  // The server has gone if it was inferred and has no service left; then it was registered.
  ghost predicate Gone(m0: Roll, m: Roll, u: ServerState)
    requires m0.Valid()
  {
    && u in m0.fqdn
    && (u in m.fqdn <==> u !in m0.inferred || !Deserted(m.rel, u))
    && (u in m0.inferred && Deserted(m.rel, u) ==> m0.fqdn[u] in m0.servers)
  }

  lemma OrderlyNext(m0: Roll, m: Roll, fsid: Fsid, done: set<ServiceId>, id: ServiceId, m': Roll)
    requires m0.Valid() && OrderlyIn(m0, fsid) && Deleting(m0, m, fsid, done) && OrderlySoFar(m0, m, fsid, done)
    requires id in m.rel && id.fsid == fsid && DropsOne(m, id, m', false)
    ensures OrderlySoFar(m0, m', fsid, done + {id})
  {
    var u, m1 := m.rel[id].server, m.(rel := m.rel - {id});
    assert m1.rel == m0.rel - (done + {id});
    if m' != m1 {
      StruckValid(m1, m.fqdn[u]);
      assert m.servers[m.fqdn[u]] == u;
      assert m'.rel == m1.rel;
    }
    forall i | i in done + {id}
      ensures Gone(m0, m', m0.rel[i].server)
    {
      var w := m0.rel[i].server;
      if w != u {
        assert Gone(m0, m, w);
        DesertedWithout(m.rel, id, w);
      }
    }
    forall f | f in m0.servers && f !in m'.servers
      ensures Deserted(m'.rel, m0.servers[f])
    {
      if f !in m.servers {
        assert Deserted(m.rel, m0.servers[f]);
      }
    }
  }

  // Then the deletion fails exactly if some inferred server holds services of this cluster only, and
  // is not registered.
  lemma OrderlyFails(m0: Roll, m: Roll, fsid: Fsid, done: set<ServiceId>, id: ServiceId, m': Roll)
    requires m0.Valid() && OrderlyIn(m0, fsid) && Deleting(m0, m, fsid, done) && OrderlySoFar(m0, m, fsid, done)
    requires id in m.rel && id.fsid == fsid && DropsOne(m, id, m', true)
    ensures StrandedIn(m0, fsid)
  {
    var u := m.rel[id].server;
    assert forall i :: i in m0.rel && m0.rel[i].server == u && i !in done && i != id ==>
             i in m'.rel && m'.rel[i].server == u;
    assert HoldsOnly(m0.rel, u, fsid);
  }

  lemma OrderlyDone(m0: Roll, m: Roll, fsid: Fsid, done: set<ServiceId>)
    requires m0.Valid() && OrderlySoFar(m0, m, fsid, done)
    requires forall id :: id in m.rel ==> id.fsid != fsid
    requires forall id :: id in done ==> id.fsid == fsid
    ensures !StrandedIn(m0, fsid)
    ensures m.rel == WithoutCluster(m0.rel, fsid)
    ensures forall id :: id in m0.rel && id.fsid == fsid ==> Gone(m0, m, m0.rel[id].server)
  {
    forall id | id in m0.rel && id.fsid == fsid
      ensures id in done
    {
    }
    forall u | u in m0.inferred && HoldsOnly(m0.rel, u, fsid)
      ensures m0.fqdn[u] in m0.servers
    {
      var id :| id in m0.rel && m0.rel[id].server == u;
      assert Gone(m0, m, u);
    }
  }

  // An inferred server has lost its last service, and was not registered: there the deletion stopped.
  ghost predicate StoppedAt(m0: Roll, m: Roll, u: ServerState)
    requires m0.Valid()
  {
    && u in m0.inferred && u in m.fqdn && m.fqdn[u] !in m.servers
    && !Deserted(m0.rel, u) && Deserted(m.rel, u)
  }

  lemma StopsAt(m0: Roll, m: Roll, fsid: Fsid, done: set<ServiceId>, id: ServiceId, m': Roll)
    requires m0.Valid() && Deleting(m0, m, fsid, done) && id in m.rel && DropsOne(m, id, m', true)
    ensures StoppedAt(m0, m', m.rel[id].server)
  {
    hide BroughtDown;
    assert id in m0.rel && m0.rel[id] == m.rel[id];
  }

  // What the deletion of a cluster leaves, or leaves halfway.
  ghost predicate DeletionAnswered(m: Roll, fsid: Fsid, m': Roll, raised: bool)
    requires m.Valid()
  {
    && (exists done :: Deleting(m, m', fsid, done))
    && (raised ==> exists u :: u in m.inferred && StoppedAt(m, m', u))
    && (!raised ==> m'.rel == WithoutCluster(Left(m.rel, {}, m'.fqdn.Keys), fsid))
    && (OrderlyIn(m, fsid) ==>
          && (raised <==> StrandedIn(m, fsid))
          && (!raised ==>
                && m'.rel == WithoutCluster(m.rel, fsid)
                && forall id :: id in m.rel && id.fsid == fsid ==> Gone(m, m', m.rel[id].server)))
  }

  // If it ends, no service of the cluster is left, and every other one of a server that is still there is
  // where it was; if it stops, it has gone part of the way.
  lemma DeletionLeaves(m: Roll, fsid: Fsid, m': Roll, raised: bool, id: ServiceId)
    requires m.Valid() && DeletionAnswered(m, fsid, m', raised)
    ensures id in m'.rel ==> id in m.rel && m'.rel[id] == m.rel[id] && m.rel[id].server in m'.fqdn
    ensures id in m.rel && id.fsid != fsid && m.rel[id].server in m'.fqdn ==> id in m'.rel
    ensures !raised ==> (id in m'.rel <==> id in m.rel && id.fsid != fsid && m.rel[id].server in m'.fqdn)
  {
    hide OrderlyIn, StrandedIn, BroughtDown, StoppedAt, Gone;
    var done :| Deleting(m, m', fsid, done);
  }

  lemma DeletionEnds(m: Roll, m': Roll, fsid: Fsid, done: set<ServiceId>)
    requires m.Valid() && Deleting(m, m', fsid, done)
    requires OrderlyIn(m, fsid) ==> OrderlySoFar(m, m', fsid, done)
    requires forall id :: id in m'.rel ==> id.fsid != fsid
    ensures DeletionAnswered(m, fsid, m', false)
  {
    assert m'.rel == WithoutCluster(Left(m.rel, {}, m'.fqdn.Keys), fsid);
    if OrderlyIn(m, fsid) {
      OrderlyDone(m, m', fsid, done);
    }
  }

  lemma DeletionStops(m: Roll, m': Roll, fsid: Fsid, done: set<ServiceId>)
    requires m.Valid() && Deleting(m, m', fsid, done) && (OrderlyIn(m, fsid) ==> StrandedIn(m, fsid))
    requires exists u :: u in m.inferred && StoppedAt(m, m', u)
    ensures DeletionAnswered(m, fsid, m', true)
  {
  }

  lemma DeletedOneMore(m0: Roll, m: Roll, fsid: Fsid, done: set<ServiceId>, id: ServiceId, m': Roll, raised: bool)
    requires m0.Valid() && Deleting(m0, m, fsid, done) && id in m.rel && id.fsid == fsid
    requires OrderlyIn(m0, fsid) ==> OrderlySoFar(m0, m, fsid, done)
    requires DropsOne(m, id, m', raised)
    ensures Deleting(m0, m', fsid, done + {id})
    ensures m'.rel.Keys < m.rel.Keys
    ensures raised ==> exists u :: u in m0.inferred && StoppedAt(m0, m', u)
    ensures raised && OrderlyIn(m0, fsid) ==> StrandedIn(m0, fsid)
    ensures !raised && OrderlyIn(m0, fsid) ==> OrderlySoFar(m0, m', fsid, done + {id})
  {
    DeletingNext(m0, m, fsid, done, id, m', raised);
    assert id !in m'.rel;
    if raised {
      StopsAt(m0, m, fsid, done, id, m');
    }
    if OrderlyIn(m0, fsid) {
      if raised {
        OrderlyFails(m0, m, fsid, done, id, m');
      } else {
        OrderlyNext(m0, m, fsid, done, id, m');
      }
    }
  }
}
