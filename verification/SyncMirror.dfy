// Calamari's copy of each cluster map: the version stored, the newest version heard of, and
// when a fetch was last started.
module SyncMirror {
  import opened Wrappers
  import opened SyncTypes

  const FETCH_TIMEOUT: Time := 10

  datatype Mirror = Mirror(stored: SyncObject, known: Version, fetchingAt: Option<Time>)

  const EMPTY_MIRROR := Mirror(SyncObject(None, NoData), None, None)

  // ---------------------------------------------------------------- one map type, as a value

  function MarkFetch(m: Mirror, minion: Option<Minion>, now: Time): Mirror {
    if minion.None? then m else m.(fetchingAt := Some(now))
  }

  function HearVersion(t: SyncType, m: Mirror, reportedBy: Option<Minion>, version: Version, now: Time): Mirror {
    if Cmp(t, version, m.stored.version) <= 0 then m
    else
      var m1 := if Cmp(t, version, m.known) > 0 then m.(known := version) else m;
      if m.fetchingAt.Some? && now - m.fetchingAt.value < FETCH_TIMEOUT then m1
      else MarkFetch(m1, reportedBy, now)
  }

  // True if a completed fetch of this version replaces what is stored.
  predicate IsNews(t: SyncType, m: Mirror, version: Version) {
    Cmp(t, version, m.stored.version) > 0
  }

  function TakeFetched(t: SyncType, m: Mirror, minion: Option<Minion>, o: SyncObject, now: Time): Mirror {
    var m1 := Taken(t, m, o);
    if Cmp(t, m1.known, o.version) > 0 then MarkFetch(m1, minion, now) else m1
  }

  function Taken(t: SyncType, m: Mirror, o: SyncObject): Mirror {
    m.(
      fetchingAt := None,
      known := if Cmp(t, o.version, m.known) > 0 then o.version else m.known,
      stored := if IsNews(t, m, o.version) then o else m.stored)
  }

  // ---------------------------------------------------------------- what a mirror keeps

  // The maps of one type that the cluster has published; epochs count from 1.
  type History = seq<MapData>

  // A version that somebody truthfully reports: for epochs, one the cluster has reached.
  predicate Truthful(t: SyncType, version: Version, history: History) {
    Ordered(t) && version.Some? ==> version.value <= |history|
  }

  // A map as some mon once returned it, however long ago.
  predicate Genuine(t: SyncType, o: SyncObject, history: History) {
    o.version.Some? && (Ordered(t) ==> 1 <= o.version.value <= |history| && o.data == history[o.version.value - 1])
  }

  // stored <= known <= the cluster's epoch, and what is stored is the cluster's map of that epoch.
  predicate Safe(t: SyncType, m: Mirror, history: History) {
    Ordered(t) ==>
      && AtMost(m.stored.version, m.known)
      && Truthful(t, m.known, history)
      && (m.stored.version.Some? ==> Genuine(t, m.stored, history))
  }

  // A mirror that has heard of something better than it has is being repaired.
  predicate UnderRepair(t: SyncType, m: Mirror) {
    Cmp(t, m.known, m.stored.version) > 0 ==> m.fetchingAt.Some?
  }

  lemma VersionKeepsSafe(t: SyncType, m: Mirror, minion: Option<Minion>, version: Version, now: Time, history: History)
    requires Safe(t, m, history) && Truthful(t, version, history)
    ensures Safe(t, HearVersion(t, m, minion, version, now), history)
    ensures HearVersion(t, m, minion, version, now).stored == m.stored
  {
  }

  // Replies may be lost, duplicated or late: whatever arrives, the stored epoch never falls.
  lemma FetchKeepsSafe(t: SyncType, m: Mirror, minion: Option<Minion>, o: SyncObject, now: Time, history: History)
    requires Safe(t, m, history) && Genuine(t, o, history)
    ensures var m' := TakeFetched(t, m, minion, o, now);
            && Safe(t, m', history)
            && (Ordered(t) ==> AtMost(m.stored.version, m'.stored.version) && AtMost(o.version, m'.stored.version))
            && m'.stored in {m.stored, o}
  {
  }

  lemma GrowthKeepsSafe(t: SyncType, m: Mirror, history: History, data: MapData)
    requires Safe(t, m, history)
    ensures Safe(t, m, history + [data])
  {
  }

  // With a real minion to ask, neither kind of event leaves a stale mirror without a fetch.
  lemma VersionKeepsRepair(t: SyncType, m: Mirror, minion: Option<Minion>, version: Version, now: Time)
    requires UnderRepair(t, m) && minion.Some?
    ensures UnderRepair(t, HearVersion(t, m, minion, version, now))
    ensures Cmp(t, version, m.stored.version) > 0 ==> HearVersion(t, m, minion, version, now).fetchingAt.Some?
  {
  }

  lemma FetchRepairs(t: SyncType, m: Mirror, minion: Option<Minion>, o: SyncObject, now: Time)
    requires minion.Some?
    requires Ordered(t) ==> AtMost(m.stored.version, m.known)
    ensures UnderRepair(t, TakeFetched(t, m, minion, o, now))
    ensures !Ordered(t) ==>
      var m' := TakeFetched(t, m, minion, o, now);
      m'.stored.version == m'.known == o.version && m'.fetchingAt.None?
    ensures Ordered(t) && TakeFetched(t, m, minion, o, now).fetchingAt.None? ==>
      TakeFetched(t, m, minion, o, now).stored.version == TakeFetched(t, m, minion, o, now).known
  {
  }

  // With nobody to ask (maps replayed from the database) a version report leaves the mirror
  // under repair exactly when it brings no news or a fetch was already marked.
  lemma UnaskedVersionRepair(t: SyncType, m: Mirror, version: Version, now: Time)
    requires UnderRepair(t, m)
    ensures UnderRepair(t, HearVersion(t, m, None, version, now))
       <==> (Cmp(t, version, m.stored.version) <= 0 || m.fetchingAt.Some?)
  {
  }

  // Versions reported by minions, one after the other.
  function HearReports(t: SyncType, m: Mirror, reports: seq<(Minion, Version, Time)>): Mirror {
    if reports == [] then m
    else
      var (minion, version, now) := reports[|reports| - 1];
      HearVersion(t, HearReports(t, m, reports[..|reports| - 1]), Some(minion), version, now)
  }

  // However often versions are reported while a fetch is underway, no other is started before it
  // times out; after that, the next report of something that is not stored starts one.
  lemma {:induction false} OneFetchAtATime(t: SyncType, m: Mirror, reports: seq<(Minion, Version, Time)>,
                                           minion: Minion, version: Version, now: Time)
    requires m.fetchingAt.Some?
    requires forall i :: 0 <= i < |reports| ==> reports[i].2 < m.fetchingAt.value + FETCH_TIMEOUT
    ensures var m' := HearReports(t, m, reports);
            && m'.fetchingAt == m.fetchingAt && m'.stored == m.stored
            && HearVersion(t, m', Some(minion), version, now).fetchingAt
               == if IsNews(t, m, version) && m.fetchingAt.value + FETCH_TIMEOUT <= now then Some(now)
                  else m.fetchingAt
  {
    if reports != [] {
      var (other, heard, at) := reports[|reports| - 1];
      OneFetchAtATime(t, m, reports[..|reports| - 1], other, heard, at);
    }
  }

  // ---------------------------------------------------------------- the collection of mirrors

  type Mirrors = map<SyncType, Mirror>

  lemma EveryType(t: SyncType)
    ensures t in SYNC_OBJECT_TYPES
  {
    match t
    case MdsMap | OsdMap | MonMap | MonStatus | PgSummary | Health | Config =>
  }

  lemma SameMirrors(a: Mirrors, b: Mirrors)
    requires forall t: SyncType :: t in a && t in b && a[t] == b[t]
    ensures a == b
  {
    assert a.Keys == b.Keys;
  }

  class SyncObjects {
    var objects: map<SyncType, SyncObject>
    var fetchingAt: map<SyncType, Option<Time>>
    var knownVersions: map<SyncType, Version>

    ghost predicate Valid()
      reads this
    {
      && (forall t: SyncType :: t in objects)
      && (forall t: SyncType :: t in fetchingAt)
      && (forall t: SyncType :: t in knownVersions)
    }

    ghost function At(t: SyncType): Mirror
      requires Valid()
      reads this
    {
      Mirror(objects[t], knownVersions[t], fetchingAt[t])
    }

    ghost function View(): (v: Mirrors)
      requires Valid()
      reads this
      ensures forall t: SyncType :: t in v && v[t] == At(t)
    {
      map t: SyncType | t in objects.Keys :: At(t)
    }

    constructor ()
      ensures Valid()
      ensures forall t: SyncType :: At(t) == EMPTY_MIRROR
    {
      forall t: SyncType {
        EveryType(t);
      }
      objects := map t: SyncType | t in SYNC_OBJECT_TYPES :: SyncObject(None, NoData);
      fetchingAt := map t: SyncType | t in SYNC_OBJECT_TYPES :: None;
      knownVersions := map t: SyncType | t in SYNC_OBJECT_TYPES :: None;
    }

    lemma StoredMaps()
      requires Valid()
      ensures objects == map t: SyncType | t in View() :: View()[t].stored
    {
    }

    // All mirrors as before, except that of one type.
    twostate predicate OnlyAt(t: SyncType, m: Mirror)
      requires old(Valid()) && Valid()
      reads this
    {
      && At(t) == m
      && forall t': SyncType :: t' != t ==> At(t') == old(At(t'))
    }

    method SetMap(t: SyncType, version: Version, data: MapData) returns (so: SyncObject)
      requires Valid()
      modifies this`objects
      ensures Valid()
      ensures so == SyncObject(version, data)
      ensures OnlyAt(t, old(At(t)).(stored := so))
    {
      so := SyncObject(version, data);
      objects := objects[t := so];
    }

    method Fetch(minion: Option<Minion>, t: SyncType, now: Time)
      requires Valid()
      modifies this`fetchingAt
      ensures Valid()
      ensures OnlyAt(t, MarkFetch(old(At(t)), minion, now))
    {
      if minion.None? {
        return;
      }
      fetchingAt := fetchingAt[t := Some(now)];
    }

    method OnVersion(reportedBy: Option<Minion>, t: SyncType, version: Version, now: Time)
      requires Valid()
      modifies this`fetchingAt, this`knownVersions
      ensures Valid()
      ensures OnlyAt(t, HearVersion(t, old(At(t)), reportedBy, version, now))
    {
      if Cmp(t, version, objects[t].version) > 0 {
        if Cmp(t, version, knownVersions[t]) > 0 {
          knownVersions := knownVersions[t := version];
        }
        if fetchingAt[t].Some? && now - fetchingAt[t].value < FETCH_TIMEOUT {
          return;
        }
        Fetch(reportedBy, t, now);
      }
    }

    // What is fetched is known and, if it is news, stored; nothing is being fetched any more.
    method Take(t: SyncType, version: Version, data: MapData) returns (newObject: Option<SyncObject>)
      requires Valid()
      modifies this
      ensures Valid()
      ensures OnlyAt(t, Taken(t, old(At(t)), SyncObject(version, data)))
      ensures newObject == if IsNews(t, old(At(t)), version) then Some(SyncObject(version, data)) else None
    {
      fetchingAt := fetchingAt[t := None];
      if Cmp(t, version, knownVersions[t]) > 0 {
        knownVersions := knownVersions[t := version];
      }
      newObject := None;
      if Cmp(t, version, objects[t].version) > 0 {
        var so := SetMap(t, version, data);
        newObject := Some(so);
      }
    }

    method OnFetchComplete(minion: Option<Minion>, t: SyncType, version: Version, data: MapData, now: Time)
      returns (newObject: Option<SyncObject>)
      requires Valid()
      modifies this
      ensures Valid()
      ensures OnlyAt(t, TakeFetched(t, old(At(t)), minion, SyncObject(version, data), now))
      ensures newObject == if IsNews(t, old(At(t)), version) then Some(SyncObject(version, data)) else None
    {
      hide Taken, MarkFetch, IsNews, Cmp;
      newObject := Take(t, version, data);
      if Cmp(t, knownVersions[t], version) > 0 {
        Fetch(minion, t, now);
      }
    }
  }
}
