// The configuration of iSCSI targets and their LUNs, and the RBD images behind the LUNs, as one
// value that each operation turns into another.
module IscsiConfig {
  import opened Wrappers

  datatype Path = Path(pool: string, image: string)

  // How a LUN is shown to initiators.
  datatype Device = Device(deviceType: string, bsType: string, writeCache: bool)

  datatype Lun = Lun(lun: int, path: Path, name: string, size: int, iqn: string, device: Device)

  // What a LUN is to have instead of what it has. The REST view lets through a name and a size only.
  datatype Changes = Changes(lun: Option<int>, pool: Option<string>, image: Option<string>, name: Option<string>,
                             size: Option<int>, iqn: Option<string>, deviceType: Option<string>,
                             bsType: Option<string>, writeCache: Option<bool>)

  datatype TargetConf = TargetConf(id: int, iqn: string, luns: seq<Lun>)

  // `images` are those that were asked to be created, and not since to be removed.
  datatype State = State(targets: seq<TargetConf>, images: set<Path>)

  datatype Outcome = Outcome(s: State, raised: bool)

  // ---------------------------------------------------------------- ids

  function LunIds(luns: seq<Lun>): (ids: seq<int>)
    ensures |ids| == |luns| && forall j :: 0 <= j < |luns| ==> ids[j] == luns[j].lun
  {
    seq(|luns|, j requires 0 <= j < |luns| => luns[j].lun)
  }

  function AllLunIds(targets: seq<TargetConf>): seq<int> {
    if targets == [] then [] else AllLunIds(targets[..|targets| - 1]) + LunIds(targets[|targets| - 1].luns)
  }

  function TargetIds(targets: seq<TargetConf>): (ids: seq<int>)
    ensures |ids| == |targets| && forall i :: 0 <= i < |targets| ==> ids[i] == targets[i].id
  {
    seq(|targets|, i requires 0 <= i < |targets| => targets[i].id)
  }

  function Max(ids: seq<int>): (m: int)
    requires ids != []
    ensures m in ids && forall id :: id in ids ==> id <= m
  {
    var last := ids[|ids| - 1];
    if |ids| == 1 then last
    else
      var init := ids[..|ids| - 1];
      assert ids == init + [last];
      if Max(init) > last then Max(init) else last
  }

  // One more than any id in use. The bound of 255 is compared with a function instead of a number,
  // and never applies.
  function GenerateId(ids: seq<int>): (id: int)
    ensures id !in ids && forall other :: other in ids ==> other < id
    ensures ids == [] ==> id == 1
    ensures ids != [] ==> id - 1 in ids
  {
    if ids == [] then 1 else Max(ids) + 1
  }

  // ---------------------------------------------------------------- finding and replacing

  // The first target of this name.
  function Find(targets: seq<TargetConf>, iqn: string): (i: Option<nat>)
    ensures i.Some? ==> i.value < |targets| && targets[i.value].iqn == iqn
    ensures i.Some? ==> forall k :: 0 <= k < i.value ==> targets[k].iqn != iqn
    ensures i.None? ==> forall k :: 0 <= k < |targets| ==> targets[k].iqn != iqn
  {
    if targets == [] then None
    else
      var before := Find(targets[..|targets| - 1], iqn);
      if before.Some? then before
      else if targets[|targets| - 1].iqn == iqn then Some(|targets| - 1)
      else None
  }

  function FindId(targets: seq<TargetConf>, id: int): (i: Option<nat>)
    ensures i.Some? ==> i.value < |targets| && targets[i.value].id == id
    ensures i.Some? ==> forall k :: 0 <= k < i.value ==> targets[k].id != id
    ensures i.None? ==> forall k :: 0 <= k < |targets| ==> targets[k].id != id
  {
    if targets == [] then None
    else
      var before := FindId(targets[..|targets| - 1], id);
      if before.Some? then before
      else if targets[|targets| - 1].id == id then Some(|targets| - 1)
      else None
  }

  // The first LUN with this number.
  function FindLun(luns: seq<Lun>, lun: int): (j: Option<nat>)
    ensures j.Some? ==> j.value < |luns| && luns[j.value].lun == lun
    ensures j.Some? ==> forall k :: 0 <= k < j.value ==> luns[k].lun != lun
    ensures j.None? ==> forall k :: 0 <= k < |luns| ==> luns[k].lun != lun
  {
    if luns == [] then None
    else
      var before := FindLun(luns[..|luns| - 1], lun);
      if before.Some? then before
      else if luns[|luns| - 1].lun == lun then Some(|luns| - 1)
      else None
  }

  // The last one, for a search that does not stop at the first.
  function FindLastLun(luns: seq<Lun>, lun: int): (j: Option<nat>)
    ensures j.Some? ==> j.value < |luns| && luns[j.value].lun == lun
    ensures j.Some? ==> forall k :: j.value < k < |luns| ==> luns[k].lun != lun
    ensures j.None? ==> forall k :: 0 <= k < |luns| ==> luns[k].lun != lun
  {
    if luns == [] then None
    else if luns[|luns| - 1].lun == lun then Some(|luns| - 1)
    else FindLastLun(luns[..|luns| - 1], lun)
  }

  // What Python's list.remove takes out: the first that is equal.
  function FirstEqual(luns: seq<Lun>, l: Lun): (j: nat)
    requires l in luns
    ensures j < |luns| && luns[j] == l && forall k :: 0 <= k < j ==> luns[k] != l
  {
    if luns[0] == l then 0 else FirstEqual(luns[1..], l) + 1
  }

  function RemoveAt<T>(s: seq<T>, k: nat): seq<T>
    requires k < |s|
  {
    s[..k] + s[k + 1..]
  }

  // ---------------------------------------------------------------- the operations

  predicate NameTaken(luns: seq<Lun>, name: string) {
    exists j :: 0 <= j < |luns| && luns[j].name == name
  }

  // Some LUN of the target is in the pool, and some LUN, perhaps another, has the image.
  predicate PathTaken(luns: seq<Lun>, path: Path) {
    && (exists j :: 0 <= j < |luns| && luns[j].path.pool == path.pool)
    && (exists j :: 0 <= j < |luns| && luns[j].path.image == path.image)
  }

  function CreateTarget(s: State, iqn: string): Outcome {
    if Find(s.targets, iqn).Some? then Outcome(s, true)
    else Outcome(s.(targets := s.targets + [TargetConf(GenerateId(TargetIds(s.targets)), iqn, [])]), false)
  }

  function RemoveTarget(s: State, i: Option<nat>): Outcome
    requires i.Some? ==> i.value < |s.targets|
  {
    if i.None? || s.targets[i.value].luns != [] then Outcome(s, true)
    else Outcome(s.(targets := RemoveAt(s.targets, i.value)), false)
  }

  function AddLun(s: State, iqn: string, path: Path, size: int, name: string, device: Device): Outcome {
    var i := Find(s.targets, iqn);
    if device.bsType != "rbd" || i.None? then Outcome(s, true)
    else
      var t := s.targets[i.value];
      if NameTaken(t.luns, name) || PathTaken(t.luns, path) then Outcome(s, true)
      else
        var lun := Lun(GenerateId(AllLunIds(s.targets)), path, name, size, iqn, device);
        Outcome(State(s.targets[i.value := t.(luns := t.luns + [lun])], s.images + {path}), false)
  }

  function Or<T>(change: Option<T>, was: T): T {
    if change.Some? then change.value else was
  }

  function Changed(l: Lun, d: Changes): Lun {
    Lun(Or(d.lun, l.lun), Path(Or(d.pool, l.path.pool), Or(d.image, l.path.image)), Or(d.name, l.name),
        Or(d.size, l.size), Or(d.iqn, l.iqn),
        Device(Or(d.deviceType, l.device.deviceType), Or(d.bsType, l.device.bsType),
               Or(d.writeCache, l.device.writeCache)))
  }

  predicate Takes<T(==)>(change: Option<T>, before: T, after: T) {
    (change.Some? ==> after == change.value) && (change.None? ==> after == before)
  }

  // Each field is as asked for, or as it was.
  lemma ChangesAre(l: Lun, d: Changes)
    ensures var l' := Changed(l, d);
            && Takes(d.lun, l.lun, l'.lun) && Takes(d.pool, l.path.pool, l'.path.pool)
            && Takes(d.image, l.path.image, l'.path.image) && Takes(d.name, l.name, l'.name)
            && Takes(d.size, l.size, l'.size) && Takes(d.iqn, l.iqn, l'.iqn)
            && Takes(d.deviceType, l.device.deviceType, l'.device.deviceType)
            && Takes(d.bsType, l.device.bsType, l'.device.bsType)
            && Takes(d.writeCache, l.device.writeCache, l'.device.writeCache)
  {
  }

  // A LUN is changed, and goes to the end of the list. Only the name is looked at.
  function SetLun(s: State, iqn: string, lun: int, d: Changes): Outcome {
    var i := Find(s.targets, iqn);
    if i.None? then Outcome(s, true)
    else
      var t := s.targets[i.value];
      var j := FindLun(t.luns, lun);
      if j.None? then Outcome(s, true)
      else
        var found, rest := t.luns[j.value], RemoveAt(t.luns, j.value);
        if d.name.Some? && NameTaken(rest, d.name.value) then Outcome(s, true)
        else Outcome(s.(targets := s.targets[i.value := t.(luns := rest + [Changed(found, d)])]), false)
  }

  // Some LUN with another number has the same image behind it.
  ghost predicate IsRelation(targets: seq<TargetConf>, found: Lun) {
    exists i, j :: 0 <= i < |targets| && 0 <= j < |targets[i].luns|
      && targets[i].luns[j].path == found.path && targets[i].luns[j].lun != found.lun
  }

  lemma RelationNext(targets: seq<TargetConf>, i: nat, found: Lun)
    requires i < |targets|
    ensures IsRelation(targets[..i + 1], found)
       <==> IsRelation(targets[..i], found)
            || exists k :: 0 <= k < |targets[i].luns|
                           && targets[i].luns[k].path == found.path && targets[i].luns[k].lun != found.lun
  {
    var before, after := targets[..i], targets[..i + 1];
    assert after[i] == targets[i] && forall n :: 0 <= n < i ==> after[n] == before[n];
  }

  ghost function DelLun(s: State, iqn: string, lun: int): Outcome {
    var i := Find(s.targets, iqn);
    if i.None? then Outcome(s, true)
    else
      var t := s.targets[i.value];
      var j := FindLastLun(t.luns, lun);
      if j.None? then Outcome(s, true)
      else
        var found := t.luns[j.value];
        Outcome(
          State(s.targets[i.value := t.(luns := RemoveAt(t.luns, FirstEqual(t.luns, found)))],
                if IsRelation(s.targets, found) then s.images else s.images - {found.path}),
          false)
  }

  function Readdress(luns: seq<Lun>, iqn: string): (r: seq<Lun>)
    ensures |r| == |luns| && forall j :: 0 <= j < |luns| ==> r[j] == luns[j].(iqn := iqn)
  {
    seq(|luns|, j requires 0 <= j < |luns| => luns[j].(iqn := iqn))
  }

  function UpdateIqn(s: State, iqn: string, newIqn: string): Outcome {
    var i := Find(s.targets, iqn);
    if i.None? || Find(s.targets, newIqn).Some? then Outcome(s, true)
    else
      var t := s.targets[i.value];
      Outcome(s.(targets := s.targets[i.value := t.(iqn := newIqn, luns := Readdress(t.luns, newIqn))]), false)
  }

  // ---------------------------------------------------------------- what every operation keeps

  predicate IsLun(targets: seq<TargetConf>, i: int, j: int) {
    0 <= i < |targets| && 0 <= j < |targets[i].luns|
  }

  // No two LUNs of any targets have the same number.
  ghost predicate LunsDiffer(targets: seq<TargetConf>) {
    forall i, j, k, l :: IsLun(targets, i, j) && IsLun(targets, k, l) && (i != k || j != l) ==>
      targets[i].luns[j].lun != targets[k].luns[l].lun
  }

  ghost predicate TargetsDiffer(targets: seq<TargetConf>) {
    forall i, k :: 0 <= i < k < |targets| ==> targets[i].id != targets[k].id && targets[i].iqn != targets[k].iqn
  }

  // Within a target, no two LUNs have the same name, and all know the target's name.
  ghost predicate LunsFit(t: TargetConf) {
    && (forall j, l :: 0 <= j < l < |t.luns| ==> t.luns[j].name != t.luns[l].name)
    && (forall j :: 0 <= j < |t.luns| ==> t.luns[j].iqn == t.iqn)
  }

  ghost predicate ImagesKept(s: State) {
    forall i, j :: IsLun(s.targets, i, j) ==> s.targets[i].luns[j].path in s.images
  }

  ghost predicate Inv(s: State) {
    && LunsDiffer(s.targets) && TargetsDiffer(s.targets)
    && (forall i :: 0 <= i < |s.targets| ==> LunsFit(s.targets[i]))
    && ImagesKept(s)
  }

  lemma {:induction false} AllLunIdsHasAll(targets: seq<TargetConf>, i: nat, j: nat)
    requires IsLun(targets, i, j)
    ensures targets[i].luns[j].lun in AllLunIds(targets)
  {
    var init := targets[..|targets| - 1];
    if i < |init| {
      AllLunIdsHasAll(init, i, j);
      assert init[i] == targets[i];
    } else {
      assert LunIds(targets[i].luns)[j] == targets[i].luns[j].lun;
    }
  }

  lemma EmptyTargetKeepsLuns(targets: seq<TargetConf>, t: TargetConf)
    requires LunsDiffer(targets) && t.luns == []
    ensures LunsDiffer(targets + [t])
    ensures forall i, j :: IsLun(targets + [t], i, j) ==>
              IsLun(targets, i, j) && (targets + [t])[i].luns[j] == targets[i].luns[j]
  {
    forall i, j | IsLun(targets + [t], i, j)
      ensures IsLun(targets, i, j) && (targets + [t])[i].luns[j] == targets[i].luns[j]
    {
    }
  }

  lemma CreateTargetKeeps(s: State, iqn: string)
    requires Inv(s)
    ensures Inv(CreateTarget(s, iqn).s)
  {
    if !CreateTarget(s, iqn).raised {
      var s' := CreateTarget(s, iqn).s;
      var t := s'.targets[|s.targets|];
      EmptyTargetKeepsLuns(s.targets, t);
      forall i | 0 <= i < |s.targets|
        ensures s'.targets[i] == s.targets[i] && s.targets[i].id != t.id && s.targets[i].iqn != t.iqn
      {
        assert TargetIds(s.targets)[i] in TargetIds(s.targets);
      }
    }
  }

  lemma RemoveTargetKeeps(s: State, i: Option<nat>)
    requires Inv(s) && (i.Some? ==> i.value < |s.targets|)
    ensures Inv(RemoveTarget(s, i).s)
  {
    var s' := RemoveTarget(s, i).s;
    if !RemoveTarget(s, i).raised {
      var n := i.value;
      assert forall k :: 0 <= k < |s'.targets| ==> s'.targets[k] == s.targets[if k < n then k else k + 1];
      forall k, j | IsLun(s'.targets, k, j)
        ensures IsLun(s.targets, if k < n then k else k + 1, j)
      {
      }
    }
  }

  // Where the LUN at a place was before: only target n has changed, and there the LUN at j was
  // at was[j].
  ghost predicate Rearranged(before: seq<TargetConf>, after: seq<TargetConf>, n: nat, was: seq<nat>) {
    && n < |before| == |after|
    && (forall i :: 0 <= i < |before| && i != n ==> after[i] == before[i])
    && |was| == |after[n].luns|
    && (forall j :: 0 <= j < |was| ==> was[j] < |before[n].luns| && after[n].luns[j].lun == before[n].luns[was[j]].lun)
    && (forall j, l :: 0 <= j < l < |was| ==> was[j] != was[l])
  }

  // LUNs that are only rearranged, renumbering none, still differ.
  lemma RearrangedDiffer(before: seq<TargetConf>, after: seq<TargetConf>, n: nat, was: seq<nat>)
    requires LunsDiffer(before) && Rearranged(before, after, n, was)
    ensures LunsDiffer(after)
  {
    forall i, j, k, l | IsLun(after, i, j) && IsLun(after, k, l) && (i != k || j != l)
      ensures after[i].luns[j].lun != after[k].luns[l].lun
    {
      var j0, l0 := if i == n then was[j] else j, if k == n then was[l] else l;
      assert IsLun(before, i, j0) && IsLun(before, k, l0);
    }
  }

  lemma AddLunKeeps(s: State, iqn: string, path: Path, size: int, name: string, device: Device)
    requires Inv(s)
    ensures Inv(AddLun(s, iqn, path, size, name, device).s)
    ensures s.images <= AddLun(s, iqn, path, size, name, device).s.images
  {
    var s' := AddLun(s, iqn, path, size, name, device).s;
    if !AddLun(s, iqn, path, size, name, device).raised {
      var n := Find(s.targets, iqn).value;
      var ids, last := AllLunIds(s.targets), |s.targets[n].luns|;
      forall i, j | IsLun(s.targets, i, j)
        ensures s.targets[i].luns[j].lun in ids && s'.targets[i].luns[j] == s.targets[i].luns[j]
      {
        AllLunIdsHasAll(s.targets, i, j);
      }
      forall i, j, k, l | IsLun(s'.targets, i, j) && IsLun(s'.targets, k, l) && (i != k || j != l)
        ensures s'.targets[i].luns[j].lun != s'.targets[k].luns[l].lun
      {
        assert (i == n && j == last) || IsLun(s.targets, i, j);
        assert (k == n && l == last) || IsLun(s.targets, k, l);
      }
      assert LunsFit(s.targets[n]);
      forall i, j | IsLun(s'.targets, i, j)
        ensures s'.targets[i].luns[j].path in s'.images
      {
        assert (i == n && j == last) || IsLun(s.targets, i, j);
      }
    }
  }

  // Without the j-th LUN, the others are where they were, or one place earlier.
  function Without(count: nat, j: nat): (was: seq<nat>)
    requires j < count
    ensures |was| == count - 1 && forall k :: 0 <= k < count - 1 ==> was[k] == if k < j then k else k + 1
  {
    seq(count - 1, k requires 0 <= k < count - 1 => if k < j then k else k + 1)
  }

  lemma RearrangedFit(before: TargetConf, after: TargetConf, was: seq<nat>)
    requires LunsFit(before) && after.iqn == before.iqn && |was| == |after.luns|
    requires forall j, l :: 0 <= j < l < |was| ==> was[j] != was[l]
    requires forall j :: 0 <= j < |was| ==> was[j] < |before.luns| && after.luns[j] == before.luns[was[j]]
    ensures LunsFit(after)
  {
    forall j, l | 0 <= j < l < |after.luns|
      ensures after.luns[j].name != after.luns[l].name
    {
      assert before.luns[was[j]].name != before.luns[was[l]].name;
    }
  }

  lemma SetLunFits(t: TargetConf, j: nat, changed: Lun)
    requires LunsFit(t) && j < |t.luns| && changed.iqn == t.luns[j].iqn
    requires changed.name == t.luns[j].name || !NameTaken(RemoveAt(t.luns, j), changed.name)
    ensures LunsFit(t.(luns := RemoveAt(t.luns, j) + [changed]))
  {
    var rest, was := RemoveAt(t.luns, j), Without(|t.luns|, j);
    RearrangedFit(t, t.(luns := rest), was);
    assert forall k :: 0 <= k < |rest| ==> rest[k] == t.luns[was[k]];
  }

  // Where the LUN is that will be changed.
  predicate IsFound(s: State, iqn: string, lun: int, n: nat, j: nat) {
    Find(s.targets, iqn) == Some(n) && n < |s.targets| && FindLun(s.targets[n].luns, lun) == Some(j)
  }

  // The changes take no other LUN's number, leave the target's name, and name an image that there is.
  ghost predicate IsHarmless(s: State, n: nat, j: nat, d: Changes)
    requires IsLun(s.targets, n, j)
  {
    var changed := Changed(s.targets[n].luns[j], d);
    && (forall i, k :: IsLun(s.targets, i, k) && (i != n || k != j) ==> s.targets[i].luns[k].lun != changed.lun)
    && changed.iqn == s.targets[n].iqn
    && changed.path in s.images
  }

  // The changed LUN is at the end, and the others are where they were, or one place earlier.
  lemma SetLunPlaces(s: State, iqn: string, lun: int, d: Changes, n: nat, j: nat)
    requires IsFound(s, iqn, lun, n, j) && !SetLun(s, iqn, lun, d).raised
    ensures IsLun(s.targets, n, j)
    ensures var after, last := SetLun(s, iqn, lun, d).s.targets, |s.targets[n].luns| - 1;
            && |after| == |s.targets| && |after[n].luns| == last + 1
            && after[n].luns[last] == Changed(s.targets[n].luns[j], d)
            && after[n].id == s.targets[n].id && after[n].iqn == s.targets[n].iqn
            && (forall i :: 0 <= i < |after| && i != n ==> after[i] == s.targets[i])
            && (forall k :: 0 <= k < last ==> after[n].luns[k] == s.targets[n].luns[if k < j then k else k + 1])
  {
  }

  // A place of the LUN afterwards, by its place before.
  function Shifted(n: nat, j: nat, last: nat, i: int, k: int): int {
    if i != n || k < j then k else if k == j then last else k - 1
  }

  lemma SetLunDiffers(s: State, iqn: string, lun: int, d: Changes, n: nat, j: nat)
    requires Inv(s) && IsFound(s, iqn, lun, n, j) && !SetLun(s, iqn, lun, d).raised
    requires IsLun(s.targets, n, j) && IsHarmless(s, n, j, d)
    ensures LunsDiffer(SetLun(s, iqn, lun, d).s.targets) && ImagesKept(SetLun(s, iqn, lun, d).s)
  {
    SetLunPlaces(s, iqn, lun, d, n, j);
    var before, after, last := s.targets, SetLun(s, iqn, lun, d).s.targets, |s.targets[n].luns| - 1;
    hide SetLun, Changed, Find, FindLun;
    forall i, k | IsLun(after, i, k) && (i != n || k != last)
      ensures var k0 := if i == n && k >= j then k + 1 else k;
              IsLun(before, i, k0) && (i != n || k0 != j) && after[i].luns[k] == before[i].luns[k0]
    {
    }
    forall i, j1, k, l | IsLun(after, i, j1) && IsLun(after, k, l) && (i != k || j1 != l)
      ensures after[i].luns[j1].lun != after[k].luns[l].lun
    {
      var j0, l0 := if i == n && j1 >= j then j1 + 1 else j1, if k == n && l >= j then l + 1 else l;
      assert (i == n && j1 == last) || (IsLun(before, i, j0) && after[i].luns[j1] == before[i].luns[j0]);
      assert (k == n && l == last) || (IsLun(before, k, l0) && after[k].luns[l] == before[k].luns[l0]);
    }
  }

  // Setting a LUN keeps all this if and only if the changes are harmless. A change of name or size is.
  lemma SetLunKeeps(s: State, iqn: string, lun: int, d: Changes, n: nat, j: nat)
    requires Inv(s) && IsFound(s, iqn, lun, n, j)
    ensures IsLun(s.targets, n, j) && SetLun(s, iqn, lun, d).s.images == s.images
    ensures !SetLun(s, iqn, lun, d).raised ==> (Inv(SetLun(s, iqn, lun, d).s) <==> IsHarmless(s, n, j, d))
  {
    var o := SetLun(s, iqn, lun, d);
    if !o.raised {
      SetLunPlaces(s, iqn, lun, d, n, j);
      if IsHarmless(s, n, j, d) {
        SetLunDiffers(s, iqn, lun, d, n, j);
        SetLunFits(s.targets[n], j, Changed(s.targets[n].luns[j], d));
      }
      if Inv(o.s) {
        SetLunWasHarmless(s, iqn, lun, d, n, j);
      }
    }
  }

  lemma SetLunWasHarmless(s: State, iqn: string, lun: int, d: Changes, n: nat, j: nat)
    requires Inv(s) && IsFound(s, iqn, lun, n, j) && !SetLun(s, iqn, lun, d).raised && IsLun(s.targets, n, j)
    requires Inv(SetLun(s, iqn, lun, d).s)
    ensures IsHarmless(s, n, j, d)
  {
    SetLunPlaces(s, iqn, lun, d, n, j);
    var before, after, last := s.targets, SetLun(s, iqn, lun, d).s.targets, |s.targets[n].luns| - 1;
    hide SetLun, Changed, Find, FindLun;
    assert IsLun(after, n, last) && LunsFit(after[n]);
    forall i, k | IsLun(before, i, k) && (i != n || k != j)
      ensures before[i].luns[k].lun != after[n].luns[last].lun
    {
      assert IsLun(after, i, Shifted(n, j, last, i, k));
    }
  }

  // So it does what the REST view lets through.
  lemma RenamedKeeps(s: State, iqn: string, lun: int, name: Option<string>, size: Option<int>)
    requires Inv(s)
    ensures Inv(SetLun(s, iqn, lun, NameAndSize(name, size)).s)
  {
    var d := NameAndSize(name, size);
    if !SetLun(s, iqn, lun, d).raised {
      var n := Find(s.targets, iqn).value;
      var j := FindLun(s.targets[n].luns, lun).value;
      assert IsLun(s.targets, n, j) && LunsFit(s.targets[n]);
      SetLunKeeps(s, iqn, lun, d, n, j);
    }
  }

  function NameAndSize(name: Option<string>, size: Option<int>): Changes {
    Changes(None, None, None, name, size, None, None, None, None)
  }

  lemma UpdateIqnKeeps(s: State, iqn: string, newIqn: string)
    requires Inv(s)
    ensures Inv(UpdateIqn(s, iqn, newIqn).s)
    ensures UpdateIqn(s, iqn, newIqn).s.images == s.images
  {
    var s' := UpdateIqn(s, iqn, newIqn).s;
    if !UpdateIqn(s, iqn, newIqn).raised {
      var n := Find(s.targets, iqn).value;
      assert forall i, j :: IsLun(s'.targets, i, j) ==>
        IsLun(s.targets, i, j)
        && s'.targets[i].luns[j].lun == s.targets[i].luns[j].lun
        && s'.targets[i].luns[j].path == s.targets[i].luns[j].path;
      assert LunsFit(s.targets[n]);
    }
  }

  // Some LUN has this image behind it.
  ghost predicate InUse(targets: seq<TargetConf>, path: Path) {
    exists i, j :: IsLun(targets, i, j) && targets[i].luns[j].path == path
  }

  // With distinct numbers, the LUN that is found is the one that is taken out.
  lemma OnlyLun(targets: seq<TargetConf>, n: nat, lun: int) returns (j: nat)
    requires LunsDiffer(targets) && n < |targets| && FindLastLun(targets[n].luns, lun).Some?
    ensures FindLastLun(targets[n].luns, lun) == Some(j) && FirstEqual(targets[n].luns, targets[n].luns[j]) == j
  {
    j := FindLastLun(targets[n].luns, lun).value;
    var k := FirstEqual(targets[n].luns, targets[n].luns[j]);
    assert IsLun(targets, n, j) && IsLun(targets, n, k);
  }

  // The configuration without the j-th LUN of target n, and what becomes of its image.
  ghost function WithoutLun(s: State, n: nat, j: nat): State
    requires IsLun(s.targets, n, j)
  {
    var t := s.targets[n];
    State(s.targets[n := t.(luns := RemoveAt(t.luns, j))],
          if IsRelation(s.targets, t.luns[j]) then s.images else s.images - {t.luns[j].path})
  }

  lemma WithoutIsRearranged(s: State, n: nat, j: nat) returns (was: seq<nat>)
    requires IsLun(s.targets, n, j)
    ensures Rearranged(s.targets, WithoutLun(s, n, j).targets, n, was)
    ensures was == Without(|s.targets[n].luns|, j)
    ensures forall k :: 0 <= k < |was| ==> WithoutLun(s, n, j).targets[n].luns[k] == s.targets[n].luns[was[k]]
  {
    was := Without(|s.targets[n].luns|, j);
    assert forall k :: 0 <= k < |was| ==> WithoutLun(s, n, j).targets[n].luns[k] == s.targets[n].luns[was[k]];
  }

  lemma WithoutLunKeeps(s: State, n: nat, j: nat)
    requires Inv(s) && IsLun(s.targets, n, j)
    ensures Inv(WithoutLun(s, n, j))
  {
    var s' := WithoutLun(s, n, j);
    var was := WithoutIsRearranged(s, n, j);
    RearrangedDiffer(s.targets, s'.targets, n, was);
    RearrangedFit(s.targets[n], s'.targets[n], was);
    LeftLunsKeepImages(s.targets, n, j, s'.targets, was);
    assert ImagesKept(s');
  }

  lemma DelLunKeeps(s: State, iqn: string, lun: int)
    requires Inv(s)
    ensures Inv(DelLun(s, iqn, lun).s)
  {
    if !DelLun(s, iqn, lun).raised {
      var n := Find(s.targets, iqn).value;
      var j := OnlyLun(s.targets, n, lun);
      assert DelLun(s, iqn, lun).s == WithoutLun(s, n, j);
      WithoutLunKeeps(s, n, j);
    }
  }

  // The LUNs that are left when one goes either have other images or are related to it.
  lemma LeftLunsKeepImages(before: seq<TargetConf>, n: nat, j: nat, after: seq<TargetConf>, was: seq<nat>)
    requires LunsDiffer(before) && IsLun(before, n, j) && Rearranged(before, after, n, was)
    requires forall k :: 0 <= k < |was| ==> was[k] != j && after[n].luns[k] == before[n].luns[was[k]]
    ensures forall i, k :: IsLun(after, i, k) ==>
              && InUse(before, after[i].luns[k].path)
              && (after[i].luns[k].path == before[n].luns[j].path ==> IsRelation(before, before[n].luns[j]))
  {
    forall i, k | IsLun(after, i, k)
      ensures InUse(before, after[i].luns[k].path)
      ensures after[i].luns[k].path == before[n].luns[j].path ==> IsRelation(before, before[n].luns[j])
    {
      var k0 := if i == n then was[k] else k;
      assert IsLun(before, i, k0) && before[i].luns[k0] == after[i].luns[k];
    }
  }

  lemma RelationIsUse(s: State, n: nat, j: nat)
    requires LunsDiffer(s.targets) && IsLun(s.targets, n, j)
    ensures IsRelation(s.targets, s.targets[n].luns[j])
       <==> InUse(WithoutLun(s, n, j).targets, s.targets[n].luns[j].path)
  {
    var after, luns := WithoutLun(s, n, j).targets, s.targets[n].luns;
    var was := WithoutIsRearranged(s, n, j);
    LeftLunsKeepImages(s.targets, n, j, after, was);
    if i, k :| 0 <= i < |s.targets| && 0 <= k < |s.targets[i].luns|
               && s.targets[i].luns[k].path == luns[j].path && s.targets[i].luns[k].lun != luns[j].lun {
      var k1 := if i == n && k > j then k - 1 else k;
      assert IsLun(after, i, k1) && after[i].luns[k1].path == luns[j].path;
    }
  }

  // Deleting a LUN removes its image exactly when no LUN that is left, of any target, has it.
  lemma ImageGoesWithLastLun(s: State, iqn: string, lun: int)
    requires Inv(s) && !DelLun(s, iqn, lun).raised
    ensures var n := Find(s.targets, iqn);
            && n.Some? && FindLastLun(s.targets[n.value].luns, lun).Some?
            && var found := s.targets[n.value].luns[FindLastLun(s.targets[n.value].luns, lun).value];
               var s' := DelLun(s, iqn, lun).s;
               && (found.path in s'.images <==> InUse(s'.targets, found.path))
               && (forall path :: path != found.path ==> (path in s'.images <==> path in s.images))
  {
    var n := Find(s.targets, iqn).value;
    var j := OnlyLun(s.targets, n, lun);
    assert DelLun(s, iqn, lun).s == WithoutLun(s, n, j);
    assert IsLun(s.targets, n, j);
    RelationIsUse(s, n, j);
  }

  // ---------------------------------------------------------------- what becomes of the LUNs

  // All LUNs of all targets.
  ghost function AllLuns(targets: seq<TargetConf>): set<Lun> {
    set i, j | 0 <= i < |targets| && 0 <= j < |targets[i].luns| :: targets[i].luns[j]
  }

  lemma AppendedLun(targets: seq<TargetConf>, n: nat, l: Lun)
    requires n < |targets|
    ensures AllLuns(targets[n := targets[n].(luns := targets[n].luns + [l])]) == AllLuns(targets) + {l}
  {
    var after, last := targets[n := targets[n].(luns := targets[n].luns + [l])], |targets[n].luns|;
    assert after[n].luns[last] == l;
    forall x
      ensures x in AllLuns(after) <==> x in AllLuns(targets) || x == l
    {
      if x in AllLuns(after) {
        var i, j := PlaceOf(after, x);
        assert (i == n && j == last) || IsLun(targets, i, j);
      }
      if x in AllLuns(targets) {
        var i, j := PlaceOf(targets, x);
        assert after[i].luns[j] == x;
      }
    }
  }

  // Adding makes one LUN more, as asked for and with a number above all others.
  lemma AddedLun(s: State, iqn: string, path: Path, size: int, name: string, device: Device)
    requires Inv(s) && !AddLun(s, iqn, path, size, name, device).raised
    ensures exists n ::
              && AllLuns(AddLun(s, iqn, path, size, name, device).s.targets) == AllLuns(s.targets)
                  + {Lun(n, path, name, size, iqn, device)}
              && (forall l :: l in AllLuns(s.targets) ==> l.lun < n)
  {
    var n := GenerateId(AllLunIds(s.targets));
    AppendedLun(s.targets, Find(s.targets, iqn).value, Lun(n, path, name, size, iqn, device));
    forall l | l in AllLuns(s.targets)
      ensures l.lun < n
    {
      var k, j := PlaceOf(s.targets, l);
      AllLunIdsHasAll(s.targets, k, j);
    }
  }

  // Setting a LUN changes it as asked for, and no other LUN.
  lemma ChangedLun(s: State, iqn: string, lun: int, d: Changes)
    requires Inv(s) && !SetLun(s, iqn, lun, d).raised
    ensures exists found ::
              && found in AllLuns(s.targets) && found.lun == lun && found.iqn == iqn
              && AllLuns(SetLun(s, iqn, lun, d).s.targets) == AllLuns(s.targets) - {found} + {Changed(found, d)}
  {
    var n := Find(s.targets, iqn).value;
    var j := FindLun(s.targets[n].luns, lun).value;
    var found := s.targets[n].luns[j];
    assert LunsFit(s.targets[n]) && IsLun(s.targets, n, j);
    WithoutLunIsGone(s, n, j);
    var without := WithoutLun(s, n, j).targets;
    AppendedLun(without, n, Changed(found, d));
    assert SetLun(s, iqn, lun, d).s.targets
        == without[n := without[n].(luns := without[n].luns + [Changed(found, d)])];
    assert found.lun == lun && found.iqn == iqn;
  }

  // Deleting takes out the one LUN of the target with that number.
  lemma DeletedLun(s: State, iqn: string, lun: int)
    requires Inv(s) && !DelLun(s, iqn, lun).raised
    ensures exists found ::
              && found in AllLuns(s.targets) && found.lun == lun && found.iqn == iqn
              && AllLuns(DelLun(s, iqn, lun).s.targets) == AllLuns(s.targets) - {found}
  {
    var n := Find(s.targets, iqn).value;
    var j := OnlyLun(s.targets, n, lun);
    WithoutLunIsGone(s, n, j);
    assert LunsFit(s.targets[n]);
    assert DelLun(s, iqn, lun).s == WithoutLun(s, n, j);
  }

  lemma WithoutLunIsGone(s: State, n: nat, j: nat)
    requires LunsDiffer(s.targets) && IsLun(s.targets, n, j)
    ensures s.targets[n].luns[j] in AllLuns(s.targets)
    ensures AllLuns(WithoutLun(s, n, j).targets) == AllLuns(s.targets) - {s.targets[n].luns[j]}
  {
    var after, luns := WithoutLun(s, n, j).targets, s.targets[n].luns;
    var was := WithoutIsRearranged(s, n, j);
    forall i, k | IsLun(after, i, k)
      ensures after[i].luns[k] in AllLuns(s.targets) && after[i].luns[k] != luns[j]
    {
      var k0 := if i == n then was[k] else k;
      assert IsLun(s.targets, i, k0) && s.targets[i].luns[k0] == after[i].luns[k];
    }
    forall i, k | IsLun(s.targets, i, k) && s.targets[i].luns[k] != luns[j]
      ensures s.targets[i].luns[k] in AllLuns(after)
    {
      var k1 := if i == n && k > j then k - 1 else k;
      assert IsLun(after, i, k1) && after[i].luns[k1] == s.targets[i].luns[k];
    }
    SameLuns(s.targets, after, luns[j]);
  }

  lemma SameLuns(before: seq<TargetConf>, after: seq<TargetConf>, gone: Lun)
    requires forall i, k :: IsLun(after, i, k) ==> after[i].luns[k] in AllLuns(before) && after[i].luns[k] != gone
    requires forall i, k :: IsLun(before, i, k) && before[i].luns[k] != gone ==> before[i].luns[k] in AllLuns(after)
    ensures AllLuns(after) == AllLuns(before) - {gone}
  {
    forall l
      ensures l in AllLuns(after) <==> l in AllLuns(before) && l != gone
    {
      if l in AllLuns(after) {
        var i, k := PlaceOf(after, l);
      }
      if l in AllLuns(before) {
        var i, k := PlaceOf(before, l);
      }
    }
  }

  lemma PlaceOf(targets: seq<TargetConf>, l: Lun) returns (i: int, j: int)
    requires l in AllLuns(targets)
    ensures IsLun(targets, i, j) && targets[i].luns[j] == l
  {
    i, j :| 0 <= i < |targets| && 0 <= j < |targets[i].luns| && targets[i].luns[j] == l;
  }

  // ---------------------------------------------------------------- when operations raise

  ghost predicate HasTarget(s: State, iqn: string) {
    exists t :: t in s.targets && t.iqn == iqn
  }

  // A LUN of the target of this name.
  ghost predicate HasLun(s: State, iqn: string, l: Lun) {
    exists t :: t in s.targets && t.iqn == iqn && l in t.luns
  }

  lemma FindIs(s: State, iqn: string, t: TargetConf)
    requires TargetsDiffer(s.targets) && t in s.targets && t.iqn == iqn
    ensures Find(s.targets, iqn).Some? && s.targets[Find(s.targets, iqn).value] == t
  {
    var i :| 0 <= i < |s.targets| && s.targets[i] == t;
  }

  // A target is created unless there is one of that name; it has no LUNs, and a number above the others'.
  lemma Creates(s: State, iqn: string)
    ensures var o := CreateTarget(s, iqn);
            && (o.raised <==> HasTarget(s, iqn))
            && (o.raised ==> o.s == s)
            && (!o.raised ==>
                  exists id ::
                    && o.s == State(s.targets + [TargetConf(id, iqn, [])], s.images)
                    && (forall t :: t in s.targets ==> t.id < id))
  {
    if !CreateTarget(s, iqn).raised {
      var ids := TargetIds(s.targets);
      forall t | t in s.targets
        ensures t.id < GenerateId(ids)
      {
        var i :| 0 <= i < |s.targets| && s.targets[i] == t;
        assert ids[i] in ids;
      }
    }
  }

  lemma RemovedAt(s: State, i: nat, t: TargetConf)
    requires TargetsDiffer(s.targets) && i < |s.targets|
    ensures t in RemoveAt(s.targets, i) <==> t in s.targets && t != s.targets[i]
  {
    var rest := RemoveAt(s.targets, i);
    if t in s.targets && t != s.targets[i] {
      var k :| 0 <= k < |s.targets| && s.targets[k] == t;
      assert rest[if k < i then k else k - 1] == t;
    }
    if t in rest {
      var k :| 0 <= k < |rest| && rest[k] == t;
      assert s.targets[if k < i then k else k + 1] == t;
    }
  }

  // A target is removed, by its name, exactly if it is there and has no LUNs; then all others are left.
  lemma Removes(s: State, iqn: string)
    requires Inv(s)
    ensures var o := RemoveTarget(s, Find(s.targets, iqn));
            && (o.raised <==> !exists t :: t in s.targets && t.iqn == iqn && t.luns == [])
            && (o.raised ==> o.s == s)
            && (!o.raised ==>
                  o.s.images == s.images && forall t :: t in o.s.targets <==> t in s.targets && t.iqn != iqn)
  {
    var i := Find(s.targets, iqn);
    if t :| t in s.targets && t.iqn == iqn && t.luns == [] {
      FindIs(s, iqn, t);
    }
    if i.Some? {
      assert s.targets[i.value] in s.targets;
      forall t
        ensures t in RemoveAt(s.targets, i.value) <==> t in s.targets && t.iqn != iqn
      {
        RemovedAt(s, i.value, t);
        if t in s.targets && t.iqn == iqn {
          FindIs(s, iqn, t);
        }
      }
    }
  }

  // The same, by its number.
  lemma RemovesById(s: State, id: int)
    requires Inv(s)
    ensures var o := RemoveTarget(s, FindId(s.targets, id));
            && (o.raised <==> !exists t :: t in s.targets && t.id == id && t.luns == [])
            && (o.raised ==> o.s == s)
            && (!o.raised ==>
                  o.s.images == s.images && forall t :: t in o.s.targets <==> t in s.targets && t.id != id)
  {
    var i := FindId(s.targets, id);
    forall t | t in s.targets && t.id == id
      ensures i.Some? && s.targets[i.value] == t
    {
      var k :| 0 <= k < |s.targets| && s.targets[k] == t;
    }
    if i.Some? {
      assert s.targets[i.value] in s.targets;
      forall t
        ensures t in RemoveAt(s.targets, i.value) <==> t in s.targets && t.id != id
      {
        RemovedAt(s, i.value, t);
      }
    }
  }

  // A LUN is added unless it is for another kind of storage, or there is no such target, or in that
  // target there is a LUN of that name, or one in that pool and one with that image. The image is
  // created then.
  lemma Adds(s: State, iqn: string, path: Path, size: int, name: string, device: Device)
    requires Inv(s)
    ensures var o := AddLun(s, iqn, path, size, name, device);
            && (o.raised <==>
                  || device.bsType != "rbd" || !HasTarget(s, iqn)
                  || (exists l :: HasLun(s, iqn, l) && l.name == name)
                  || ((exists l :: HasLun(s, iqn, l) && l.path.pool == path.pool)
                      && exists l :: HasLun(s, iqn, l) && l.path.image == path.image))
            && (o.raised ==> o.s == s)
            && (!o.raised ==> o.s.images == s.images + {path})
  {
    var i := Find(s.targets, iqn);
    if i.Some? {
      var t := s.targets[i.value];
      LunsOfTarget(s, iqn, t);
      TakenIn(t.luns, path, name);
    }
  }

  lemma TakenIn(luns: seq<Lun>, path: Path, name: string)
    ensures NameTaken(luns, name) <==> exists l :: l in luns && l.name == name
    ensures PathTaken(luns, path) <==>
            (exists l :: l in luns && l.path.pool == path.pool) && exists l :: l in luns && l.path.image == path.image
  {
    assert forall j :: 0 <= j < |luns| ==> luns[j] in luns;
  }

  lemma LunsOfTarget(s: State, iqn: string, t: TargetConf)
    requires TargetsDiffer(s.targets) && t in s.targets && t.iqn == iqn
    ensures forall l :: HasLun(s, iqn, l) <==> l in t.luns
  {
    forall l | HasLun(s, iqn, l)
      ensures l in t.luns
    {
      var u :| u in s.targets && u.iqn == iqn && l in u.luns;
      FindIs(s, iqn, t);
      FindIs(s, iqn, u);
    }
  }

  // A LUN is set exactly if it is there, and its new name is no other's in its target.
  lemma Sets(s: State, iqn: string, lun: int, d: Changes)
    requires Inv(s)
    ensures var o := SetLun(s, iqn, lun, d);
            && (o.raised <==>
                  || !(exists l :: HasLun(s, iqn, l) && l.lun == lun)
                  || (d.name.Some? && exists l :: HasLun(s, iqn, l) && l.lun != lun && l.name == d.name.value))
            && (o.raised ==> o.s == s)
  {
    var i := Find(s.targets, iqn);
    if i.Some? {
      var t := s.targets[i.value];
      assert t in s.targets;
      LunsOfTarget(s, iqn, t);
      var j := FindLun(t.luns, lun);
      assert forall k :: 0 <= k < |t.luns| ==> t.luns[k] in t.luns;
      if j.Some? && d.name.Some? {
        OthersNamed(s, i.value, j.value, d.name.value);
      }
    }
  }

  lemma OthersNamed(s: State, n: nat, j: nat, name: string)
    requires LunsDiffer(s.targets) && IsLun(s.targets, n, j)
    ensures var luns := s.targets[n].luns;
            NameTaken(RemoveAt(luns, j), name) <==> exists l :: l in luns && l.lun != luns[j].lun && l.name == name
  {
    var luns, rest := s.targets[n].luns, RemoveAt(s.targets[n].luns, j);
    if k :| 0 <= k < |rest| && rest[k].name == name {
      var k0 := if k < j then k else k + 1;
      assert luns[k0] == rest[k] && IsLun(s.targets, n, k0);
      assert luns[k0] in luns;
    }
    if l :| l in luns && l.lun != luns[j].lun && l.name == name {
      var k :| 0 <= k < |luns| && luns[k] == l;
      assert rest[if k < j then k else k - 1] == l;
    }
  }

  // A LUN is deleted exactly if it is there.
  lemma Deletes(s: State, iqn: string, lun: int)
    requires Inv(s)
    ensures var o := DelLun(s, iqn, lun);
            && (o.raised <==> !exists l :: HasLun(s, iqn, l) && l.lun == lun)
            && (o.raised ==> o.s == s)
  {
    var i := Find(s.targets, iqn);
    if i.Some? {
      var t := s.targets[i.value];
      assert t in s.targets;
      LunsOfTarget(s, iqn, t);
      assert forall k :: 0 <= k < |t.luns| ==> t.luns[k] in t.luns;
    }
  }

  // A target is renamed exactly if it is there, and no target has the new name; its LUNs know the new
  // name, and nothing else changes.
  lemma Renames(s: State, iqn: string, newIqn: string)
    requires Inv(s)
    ensures var o := UpdateIqn(s, iqn, newIqn);
            && (o.raised <==> !HasTarget(s, iqn) || HasTarget(s, newIqn))
            && (o.raised ==> o.s == s)
            && (!o.raised ==>
                  && o.s.images == s.images && |o.s.targets| == |s.targets|
                  && forall i :: 0 <= i < |s.targets| ==>
                       var t, t' := s.targets[i], o.s.targets[i];
                       if t.iqn == iqn then
                         && t'.iqn == newIqn && t'.id == t.id && |t'.luns| == |t.luns|
                         && forall j :: 0 <= j < |t.luns| ==> t'.luns[j] == t.luns[j].(iqn := newIqn)
                       else t' == t)
  {
    var i := Find(s.targets, iqn);
    assert forall k :: 0 <= k < |s.targets| ==> s.targets[k] in s.targets;
  }

  // ---------------------------------------------------------------- runs

  datatype Operation =
    | Create(iqn: string)
    | RemoveByIqn(iqn: string)
    | RemoveById(id: int)
    | Add(iqn: string, path: Path, size: int, name: string, device: Device)
    | Set(iqn: string, lun: int, newName: Option<string>, newSize: Option<int>)
    | Del(iqn: string, lun: int)
    | Rename(iqn: string, newIqn: string)

  ghost function Apply(s: State, op: Operation): Outcome {
    match op
    case Create(iqn) => CreateTarget(s, iqn)
    case RemoveByIqn(iqn) => RemoveTarget(s, Find(s.targets, iqn))
    case RemoveById(id) => RemoveTarget(s, FindId(s.targets, id))
    case Add(iqn, path, size, name, device) => AddLun(s, iqn, path, size, name, device)
    case Set(iqn, lun, name, size) => SetLun(s, iqn, lun, NameAndSize(name, size))
    case Del(iqn, lun) => DelLun(s, iqn, lun)
    case Rename(iqn, newIqn) => UpdateIqn(s, iqn, newIqn)
  }

  ghost function Run(ops: seq<Operation>): State {
    if ops == [] then State([], {}) else Apply(Run(ops[..|ops| - 1]), ops[|ops| - 1]).s
  }

  lemma ApplyKeeps(s: State, op: Operation)
    requires Inv(s)
    ensures Inv(Apply(s, op).s)
  {
    hide Inv;
    match op
    case Create(iqn) => CreateTargetKeeps(s, iqn);
    case RemoveByIqn(iqn) => RemoveTargetKeeps(s, Find(s.targets, iqn));
    case RemoveById(id) => RemoveTargetKeeps(s, FindId(s.targets, id));
    case Add(iqn, path, size, name, device) => AddLunKeeps(s, iqn, path, size, name, device);
    case Set(iqn, lun, name, size) => RenamedKeeps(s, iqn, lun, name, size);
    case Del(iqn, lun) => DelLunKeeps(s, iqn, lun);
    case Rename(iqn, newIqn) => UpdateIqnKeeps(s, iqn, newIqn);
  }

  // Over every run, LUN numbers are distinct across all targets, and the image behind a LUN that
  // is configured was created and has not been removed.
  lemma {:induction false} RunKeeps(ops: seq<Operation>)
    ensures Inv(Run(ops))
  {
    if ops != [] {
      RunKeeps(ops[..|ops| - 1]);
      ApplyKeeps(Run(ops[..|ops| - 1]), ops[|ops| - 1]);
    }
  }
}
