// Which mon is the favourite, and when another takes its place: told by the heartbeats that came.
module Favorites {
  import opened Wrappers
  import opened SyncTypes
  import opened SyncMirror
  import opened Requests
  import opened RequestIndex
  import opened RequestEnds
  import opened Cluster
  import opened ClusterSteps
  import opened ClusterRuns

  // There is no favourite yet, or it is another mon that was last heard too long ago.
  predicate Dethrones(m: Monitor, minion: Minion, timeout: Time, now: Time) {
    match m.favorite
    case None => true
    case Some(f) => f != minion && f in m.lastHeartbeat && now - m.lastHeartbeat[f] > timeout
  }

  // A heartbeat makes its sender the favourite exactly then, and that ends all requests that are
  // under way; otherwise it changes neither. It counts for the mirrors if it is the favourite's.
  lemma HeartbeatChooses(m: Monitor, minion: Minion, versions: map<SyncType, Version>, timeout: Time,
                         order: seq<RequestId>, now: Time)
    requires Total(m.mirrors) && Agreed(m.requests) && Enumerates(order, SubmittedIds(m.requests))
    ensures var m' := OnHeartbeat(m, minion, versions, timeout, order, now);
            var changes := Dethrones(m, minion, timeout, now);
            && m'.favorite == (if changes then Some(minion) else m.favorite)
            && m'.lastHeartbeat == m.lastHeartbeat[minion := now]
            && (!changes ==> m'.requests == m.requests)
            && m'.requests.requests.Keys == m.requests.requests.Keys
            && (forall id :: id in m.requests.requests ==>
                  var r := m.requests.requests[id];
                  m'.requests.requests[id]
                  == if changes && r.state == Submitted then r.(jid := None, error := true, state := Complete) else r)
            && Total(m'.mirrors)
            && (forall t: SyncType ::
                  m'.mirrors[t] == if m'.favorite == Some(minion) && t in versions
                                   then HearVersion(t, m.mirrors[t], Some(minion), versions[t], now)
                                   else m.mirrors[t])
  {
    hide HearVersion, Agreed;
    if Dethrones(m, minion, timeout, now) {
      FailAllAgrees(m.requests, order, SubmittedIds(m.requests));
      forall id | id in m.requests.requests && m.requests.requests[id].state == Submitted
        ensures Abandon(m.requests.requests[id]).r
             == m.requests.requests[id].(jid := None, error := true, state := Complete)
      {
        GivenUp(m.requests, id);
      }
    }
  }

  lemma GivenUp(c: Collection, id: RequestId)
    requires Agreed(c) && IsSubmitted(c, id)
    ensures Abandon(c.requests[id]).r == c.requests[id].(jid := None, error := true, state := Complete)
  {
    InterruptionEnds(c.requests[id]);
  }

  lemma HeartbeatComes(w: World, e: Event, w': World)
    requires Inv(w) && Next(w, e, w') && e.Deliver? && e.msg.Heartbeat?
    ensures Total(w.monitor.mirrors) && Agreed(w.monitor.requests)
    ensures Enumerates(e.msg.order, SubmittedIds(w.monitor.requests))
    ensures w'.monitor
         == OnHeartbeat(w.monitor, e.msg.minion, e.msg.versions, e.msg.timeout, e.msg.order, e.msg.now)
  {
    hide OnHeartbeat;
  }

  // ---------------------------------------------------------------- over whole runs

  // When the minion's last heartbeat came.
  function LastBeat(es: seq<Event>, minion: Minion): Option<Time> {
    if es == [] then None
    else
      var e := es[|es| - 1];
      if e.Deliver? && e.msg.Heartbeat? && e.msg.minion == minion then Some(e.msg.now)
      else LastBeat(es[..|es| - 1], minion)
  }

  lemma StepBeats(w: World, e: Event, w': World, minion: Minion)
    requires Inv(w) && Next(w, e, w')
    ensures var before, after := w.monitor.lastHeartbeat, w'.monitor.lastHeartbeat;
            if e.Deliver? && e.msg.Heartbeat? then after == before[e.msg.minion := e.msg.now]
            else after == before && w'.monitor.favorite == w.monitor.favorite
  {
    hide FailAll, HearAll, Inv, Tick, OnTickResponse, RequestIndex.Cancel, RequestIndex.Submit, OnCompletion, OnMapAll;
    hide Possible;
  }

  // In every world of every run, the manager remembers of each minion when its last heartbeat came.
  lemma {:induction false} BeatsAreRemembered(ws: seq<World>, es: seq<Event>, i: nat, minion: Minion)
    requires IsRun(ws, es) && i <= |es|
    ensures var beats := ws[i].monitor.lastHeartbeat;
            LastBeat(es[..i], minion) == if minion in beats then Some(beats[minion]) else None
  {
    hide Inv, Next, Initial;
    if i == 0 {
      NoBeats(ws, es);
    } else {
      BeatsAreRemembered(ws, es, i - 1, minion);
      RunKeeps(ws, es, i - 1);
      StepBeats(ws[i - 1], es[i - 1], ws[i], minion);
      assert es[..i][..i - 1] == es[..i - 1];
    }
  }

  lemma NoBeats(ws: seq<World>, es: seq<Event>)
    requires IsRun(ws, es)
    ensures ws[0].monitor.lastHeartbeat == map[] && ws[0].monitor.favorite == None
  {
  }

  // Another mon's heartbeat finds no favourite, or one whose last heartbeat came too long before.
  predicate TakesPlace(es: seq<Event>, favorite: Option<Minion>, e: Event) {
    && e.Deliver? && e.msg.Heartbeat? && favorite != Some(e.msg.minion)
    && (favorite.None? ||
        var beat := LastBeat(es, favorite.value); beat.Some? && e.msg.now - beat.value > e.msg.timeout)
  }

  // In every run, the favourite changes with such a heartbeat, to its sender, and with no other
  // message.
  lemma FavoriteChanges(ws: seq<World>, es: seq<Event>, i: nat)
    requires IsRun(ws, es) && i < |es|
    ensures var before, after := ws[i].monitor.favorite, ws[i + 1].monitor.favorite;
            after == if TakesPlace(es[..i], before, es[i]) then Some(es[i].msg.minion) else before
  {
    hide Next, Inv, OnHeartbeat;
    RunKeeps(ws, es, i);
    var w, e := ws[i], es[i];
    if w.monitor.favorite.Some? {
      BeatsAreRemembered(ws, es, i, w.monitor.favorite.value);
    }
    if e.Deliver? && e.msg.Heartbeat? {
      HeartbeatComes(w, e, ws[i + 1]);
      HeartbeatChooses(w.monitor, e.msg.minion, e.msg.versions, e.msg.timeout, e.msg.order, e.msg.now);
    } else {
      StepBeats(w, e, ws[i + 1], "");
    }
  }
}
