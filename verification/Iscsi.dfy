// The manager of iSCSI targets, whose configuration file is loaded, changed and written back by
// each operation, and the handles by which one target is changed.
module Iscsi {
  import opened Wrappers
  import opened IscsiConfig

  class TgtManager {
    // What the configuration file holds.
    var targetList: seq<TargetConf>
    // The RBD images that the mons were asked for.
    var images: set<Path>

    ghost function View(): State
      reads this
    {
      State(targetList, images)
    }

    constructor ()
      ensures View() == State([], {})
    {
      targetList, images := [], {};
    }

    method GetTargetConf(iqn: string) returns (conf: Option<TargetConf>)
      ensures conf == if Find(targetList, iqn).Some? then Some(targetList[Find(targetList, iqn).value]) else None
    {
      var i := 0;
      while i < |targetList|
        invariant 0 <= i <= |targetList|
        invariant forall k :: 0 <= k < i ==> targetList[k].iqn != iqn
      {
        if targetList[i].iqn == iqn {
          return Some(targetList[i]);
        }
        i := i + 1;
      }
      conf := None;
    }

    method SetTargetConf(iqn: string, conf: TargetConf) returns (raised: bool)
      modifies this`targetList
      ensures var i := Find(old(targetList), iqn);
              && raised == i.None?
              && targetList == if i.Some? then old(targetList)[i.value := conf] else old(targetList)
    {
      var i := 0;
      while i < |targetList|
        invariant 0 <= i <= |targetList| && targetList == old(targetList)
        invariant forall k :: 0 <= k < i ==> targetList[k].iqn != iqn
      {
        if targetList[i].iqn == iqn {
          targetList := targetList[i := conf];
          return false;
        }
        i := i + 1;
      }
      return true;
    }

    method CreateTarget(iqn: string) returns (raised: bool)
      modifies this`targetList
      ensures Outcome(View(), raised) == IscsiConfig.CreateTarget(old(View()), iqn)
    {
      var ids: seq<int> := [];
      for i := 0 to |targetList|
        invariant targetList == old(targetList)
        invariant ids == TargetIds(targetList[..i])
        invariant forall k :: 0 <= k < i ==> targetList[k].iqn != iqn
      {
        if targetList[i].iqn == iqn {
          return true;
        }
        ids := ids + [targetList[i].id];
      }
      assert targetList[..|targetList|] == targetList;
      targetList := targetList + [TargetConf(GenerateId(ids), iqn, [])];
      return false;
    }

    method RemoveTargetByIqn(iqn: string) returns (raised: bool)
      modifies this`targetList
      ensures Outcome(View(), raised) == RemoveTarget(old(View()), Find(old(targetList), iqn))
    {
      var i := 0;
      while i < |targetList| && targetList[i].iqn != iqn
        invariant 0 <= i <= |targetList|
        invariant forall k :: 0 <= k < i ==> targetList[k].iqn != iqn
      {
        i := i + 1;
      }
      if i == |targetList| || targetList[i].luns != [] {
        return true;
      }
      targetList := RemoveAt(targetList, i);
      return false;
    }

    method RemoveTargetById(id: int) returns (raised: bool)
      modifies this`targetList
      ensures Outcome(View(), raised) == RemoveTarget(old(View()), FindId(old(targetList), id))
    {
      var i := 0;
      while i < |targetList| && targetList[i].id != id
        invariant 0 <= i <= |targetList|
        invariant forall k :: 0 <= k < i ==> targetList[k].id != id
      {
        i := i + 1;
      }
      if i == |targetList| || targetList[i].luns != [] {
        return true;
      }
      targetList := RemoveAt(targetList, i);
      return false;
    }

    // Asking a mon to create or remove an image never fails here: its answer is not looked at.
    method CreateRbdImage(path: Path)
      modifies this`images
      ensures images == old(images) + {path}
    {
      images := images + {path};
    }

    method DelRbdImage(path: Path)
      modifies this`images
      ensures images == old(images) - {path}
    {
      images := images - {path};
    }
  }

  class Target {
    var iqn: string
    var conf: TargetConf
    const manager: TgtManager

    constructor (iqn: string, conf: TargetConf, manager: TgtManager)
      ensures this.iqn == iqn && this.conf == conf && this.manager == manager
    {
      this.iqn, this.conf, this.manager := iqn, conf, manager;
    }

    // Whether a LUN of this name, or one in this pool and one with this image, is there already.
    static method IsTaken(luns: seq<Lun>, path: Path, name: string) returns (taken: bool)
      ensures taken == (NameTaken(luns, name) || PathTaken(luns, path))
    {
      var inPool, withImage := false, false;
      for i := 0 to |luns|
        invariant forall j :: 0 <= j < i ==> luns[j].name != name
      {
        if luns[i].name == name {
          return true;
        }
      }
      for i := 0 to |luns|
        invariant inPool <==> exists j :: 0 <= j < i && luns[j].path.pool == path.pool
        invariant withImage <==> exists j :: 0 <= j < i && luns[j].path.image == path.image
      {
        inPool := inPool || luns[i].path.pool == path.pool;
        withImage := withImage || luns[i].path.image == path.image;
      }
      return inPool && withImage;
    }

    static method CollectLunIds(targets: seq<TargetConf>) returns (ids: seq<int>)
      ensures ids == AllLunIds(targets)
    {
      ids := [];
      for i := 0 to |targets|
        invariant ids == AllLunIds(targets[..i])
      {
        var before, luns := ids, targets[i].luns;
        for j := 0 to |luns|
          invariant ids == before + LunIds(luns[..j])
        {
          ids := ids + [luns[j].lun];
        }
        assert luns[..|luns|] == luns;
        assert targets[..i + 1][..i] == targets[..i];
      }
      assert targets[..|targets|] == targets;
    }

    method AddLun(path: Path, size: int, name: string, device: Device) returns (raised: bool)
      modifies this`conf, manager
      ensures Outcome(manager.View(), raised) == IscsiConfig.AddLun(old(manager.View()), iqn, path, size, name, device)
    {
      if device.bsType != "rbd" {
        return true;
      }
      var found := manager.GetTargetConf(iqn);
      if found.None? {
        return true;
      }
      var taken := IsTaken(found.value.luns, path, name);
      if taken {
        return true;
      }
      manager.CreateRbdImage(path);
      var ids := CollectLunIds(manager.targetList);
      var lun := Lun(GenerateId(ids), path, name, size, iqn, device);
      var newConf := found.value.(luns := found.value.luns + [lun]);
      raised := manager.SetTargetConf(iqn, newConf);
      conf := newConf;
    }

    static method LookUp(luns: seq<Lun>, lun: int) returns (j: Option<nat>)
      ensures j == FindLun(luns, lun)
    {
      j := None;
      var i := 0;
      while i < |luns|
        invariant 0 <= i <= |luns|
        invariant forall k :: 0 <= k < i ==> luns[k].lun != lun
      {
        if luns[i].lun == lun {
          return Some(i);
        }
        i := i + 1;
      }
    }

    method SetLun(lun: int, data: Changes) returns (raised: bool)
      modifies this`conf, manager`targetList
      ensures Outcome(manager.View(), raised) == IscsiConfig.SetLun(old(manager.View()), iqn, lun, data)
    {
      var found := manager.GetTargetConf(iqn);
      if found.None? {
        return true;
      }
      var j := LookUp(found.value.luns, lun);
      if j.None? {
        return true;
      }
      var l, rest := found.value.luns[j.value], RemoveAt(found.value.luns, j.value);
      if data.name.Some? {
        for i := 0 to |rest|
          invariant forall k :: 0 <= k < i ==> rest[k].name != data.name.value
        {
          if rest[i].name == data.name.value {
            return true;
          }
        }
      }
      var newConf := found.value.(luns := rest + [Changed(l, data)]);
      raised := manager.SetTargetConf(iqn, newConf);
      conf := newConf;
    }

    // Whether another LUN, by its number, has the image of this one.
    static method HasRelation(targets: seq<TargetConf>, found: Lun) returns (isRelation: bool)
      ensures isRelation == IsRelation(targets, found)
    {
      isRelation := false;
      for i := 0 to |targets|
        invariant isRelation <==> IsRelation(targets[..i], found)
      {
        ghost var before := isRelation;
        var luns := targets[i].luns;
        for j := 0 to |luns|
          invariant isRelation <==>
            before || exists k :: 0 <= k < j && luns[k].path == found.path && luns[k].lun != found.lun
        {
          if luns[j].path == found.path && luns[j].lun != found.lun {
            isRelation := true;
          }
        }
        RelationNext(targets, i, found);
      }
      assert targets[..|targets|] == targets;
    }

    method DelLun(lun: int) returns (raised: bool)
      modifies this`conf, manager
      ensures Outcome(manager.View(), raised) == IscsiConfig.DelLun(old(manager.View()), iqn, lun)
    {
      var targets := manager.targetList;
      var found := manager.GetTargetConf(iqn);
      if found.None? {
        return true;
      }
      var j: Option<nat> := None;
      var luns := found.value.luns;
      for i := 0 to |luns|
        invariant j == FindLastLun(luns[..i], lun)
      {
        assert luns[..i + 1][..i] == luns[..i];
        if luns[i].lun == lun {
          j := Some(i);
        }
      }
      assert luns[..|luns|] == luns;
      if j.None? {
        return true;
      }
      var l := luns[j.value];
      var isRelation := HasRelation(targets, l);
      var newConf := found.value.(luns := RemoveAt(luns, FirstEqual(luns, l)));
      raised := manager.SetTargetConf(iqn, newConf);
      conf := newConf;
      if !isRelation {
        manager.DelRbdImage(l.path);
      }
    }

    method UpdateTargetIqn(newIqn: string) returns (raised: bool)
      modifies this, manager`targetList
      ensures Outcome(manager.View(), raised) == UpdateIqn(old(manager.View()), old(iqn), newIqn)
      ensures iqn == if raised then old(iqn) else newIqn
    {
      var found := manager.GetTargetConf(iqn);
      if found.None? {
        return true;
      }
      var other := manager.GetTargetConf(newIqn);
      if other.Some? {
        return true;
      }
      var luns: seq<Lun> := [];
      for i := 0 to |found.value.luns|
        invariant luns == Readdress(found.value.luns[..i], newIqn)
      {
        luns := luns + [found.value.luns[i].(iqn := newIqn)];
      }
      assert found.value.luns[..|found.value.luns|] == found.value.luns;
      var newConf := found.value.(iqn := newIqn, luns := luns);
      raised := manager.SetTargetConf(iqn, newConf);
      iqn, conf := newIqn, newConf;
    }
  }
}
