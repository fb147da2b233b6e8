// The cluster maps that Calamari mirrors, and how their versions compare.
module SyncTypes {
  import opened Wrappers
  import opened PgDigest

  type Time = int
  type Minion = string

  datatype SyncType = MdsMap | OsdMap | MonMap | MonStatus | PgSummary | Health | Config

  const SYNC_OBJECT_TYPES: set<SyncType> := {MdsMap, OsdMap, MonMap, MonStatus, PgSummary, Health, Config}

  // Ordered versions are epochs; the others are hashes that can only be told apart.
  predicate Ordered(t: SyncType) {
    t in {MdsMap, OsdMap, MonMap, MonStatus}
  }

  // An epoch, or a number standing for a hash; None until a map is stored.
  type Version = Option<nat>

  // Python 2's cmp, which puts None below every number.
  function PyCmp(a: Version, b: Version): int {
    match (a, b)
    case (None, None) => 0
    case (None, Some(_)) => -1
    case (Some(_), None) => 1
    case (Some(x), Some(y)) => if x < y then -1 else if x == y then 0 else 1
  }

  function Cmp(t: SyncType, a: Version, b: Version): int {
    if Ordered(t) then PyCmp(a, b) else if a != b then 1 else 0
  }

  // a <= b for epochs.
  predicate AtMost(a: Version, b: Version) {
    PyCmp(a, b) <= 0
  }

  datatype Pool = Pool(name: string, pgNum: int)

  // Ceph never gives two pools of one map the same name.
  type PoolTable = p: map<PoolId, Pool>
    | forall a, b :: a in p && b in p && p[a].name == p[b].name ==> a == b
    witness map[]

  // Of an OSD map: the pools, the number of OSDs, and the hosts of its CRUSH tree with their OSDs and
  // whether those are up. Of a mon map or MDS map: the names of the daemons.
  datatype MapData =
    | NoData
    | OsdData(pools: PoolTable, osdCount: nat, hosts: map<string, map<string, bool>>)
    | NamesData(names: set<string>)
    | PgData(byPool: map<PoolId, Tally>)
    | OtherData(contents: nat)

  datatype SyncObject = SyncObject(version: Version, data: MapData)

  function Pools(o: SyncObject): PoolTable {
    if o.data.OsdData? then o.data.pools else map[]
  }

  function PoolTallies(o: SyncObject): map<PoolId, Tally> {
    if o.data.PgData? then o.data.byPool else map[]
  }
}
