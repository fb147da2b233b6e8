// Which mons are in quorum, from what the cluster says and from what each mon says of itself.
module MonQuorum {
  import opened Wrappers

  // Mons are known by their rank.
  datatype Rank = Rank(number: nat)

  // A mon's view of the quorum at an election epoch.
  datatype Status = Status(rank: Rank, electionEpoch: nat, quorum: seq<Rank>)

  // What the agent on a mon's server reports of it.
  datatype Info = Info(running: bool, status: Option<Status>)

  // The status that is believed, and the lowest epoch that is not known to be out of date.
  datatype Evidence = Evidence(status: Status, lowest: nat)

  function StatusOf(info: Option<Info>): Option<Status> {
    if info.Some? then info.value.status else None
  }

  // ---------------------------------------------------------------- first pass

  function Weigh(e: Evidence, info: Option<Info>): Evidence {
    match StatusOf(info)
    case None => e
    case Some(s) =>
      if s.electionEpoch > e.lowest then Evidence(s, s.electionEpoch)
      else if s.electionEpoch == e.lowest && s.quorum != e.status.quorum then e.(lowest := s.electionEpoch + 1)
      else e
  }

  function WeighAll(cluster: Status, infos: seq<Option<Info>>): Evidence {
    if infos == [] then Evidence(cluster, cluster.electionEpoch)
    else Weigh(WeighAll(cluster, infos[..|infos| - 1]), infos[|infos| - 1])
  }

  // ---------------------------------------------------------------- second pass

  predicate ClusterOpinion(e: Evidence, rank: Rank) {
    rank in e.status.quorum && e.status.electionEpoch >= e.lowest
  }

  predicate LocalOpinion(e: Evidence, running: bool, s: Status) {
    running && s.rank in s.quorum && s.electionEpoch >= e.lowest
  }

  predicate Believed(e: Evidence, rank: Rank, info: Option<Info>) {
    match StatusOf(info)
    case None => ClusterOpinion(e, rank)
    case Some(s) =>
      var cluster, local := ClusterOpinion(e, rank), LocalOpinion(e, info.value.running, s);
      if cluster == local then cluster
      else if s.electionEpoch == 0 || !info.value.running then local
      else if s.electionEpoch < e.status.electionEpoch then cluster
      else local
  }

  function BelieveAll(e: Evidence, mons: seq<Rank>, infos: seq<Option<Info>>): (r: seq<bool>)
    requires |mons| == |infos|
    ensures |r| == |mons|
    ensures forall i :: 0 <= i < |mons| ==> r[i] == Believed(e, mons[i], infos[i])
  {
    seq(|mons|, i requires 0 <= i < |mons| => Believed(e, mons[i], infos[i]))
  }

  // ---------------------------------------------------------------- third pass

  function Count(s: seq<bool>): nat {
    if s == [] then 0 else Count(s[..|s| - 1]) + (if s[|s| - 1] then 1 else 0)
  }

  function InQuorum(cluster: Status, mons: seq<Rank>, infos: seq<Option<Info>>): (r: seq<bool>)
    requires |mons| == |infos|
    ensures |r| == |mons|
  {
    var believed := BelieveAll(WeighAll(cluster, infos), mons, infos);
    if Count(believed) < |mons| / 2 + 1 then seq(|mons|, i => false) else believed
  }

  method Counted(bs: seq<bool>) returns (count: nat)
    ensures count == Count(bs)
  {
    count := 0;
    for i := 0 to |bs|
      invariant count == Count(bs[..i])
    {
      assert bs[..i + 1][..i] == bs[..i];
      if bs[i] {
        count := count + 1;
      }
    }
    assert bs[..|bs|] == bs;
  }

  method GetMons(cluster: Status, mons: seq<Rank>, infos: seq<Option<Info>>) returns (inQuorum: seq<bool>)
    requires |mons| == |infos|
    ensures inQuorum == InQuorum(cluster, mons, infos)
  {
    var monStatus, lowestValidEpoch := cluster, cluster.electionEpoch;
    for i := 0 to |infos|
      invariant Evidence(monStatus, lowestValidEpoch) == WeighAll(cluster, infos[..i])
    {
      assert infos[..i + 1][..i] == infos[..i];
      if infos[i].Some? && infos[i].value.status.Some? {
        var status := infos[i].value.status.value;
        var localEpoch := status.electionEpoch;
        if localEpoch > lowestValidEpoch {
          monStatus := status;
          lowestValidEpoch := monStatus.electionEpoch;
        } else if localEpoch == lowestValidEpoch && status.quorum != monStatus.quorum {
          lowestValidEpoch := localEpoch + 1;
        }
      }
    }
    assert infos[..|infos|] == infos;
    ghost var e := WeighAll(cluster, infos);
    hide WeighAll;
    inQuorum := [];
    for i := 0 to |mons|
      invariant |inQuorum| == i
      invariant forall k :: 0 <= k < i ==> inQuorum[k] == Believed(e, mons[k], infos[k])
    {
      var clusterOpinion := mons[i] in monStatus.quorum && monStatus.electionEpoch >= lowestValidEpoch;
      if infos[i].None? || infos[i].value.status.None? {
        inQuorum := inQuorum + [clusterOpinion];
      } else {
        var running, status := infos[i].value.running, infos[i].value.status.value;
        var localOpinion := running && status.rank in status.quorum && status.electionEpoch >= lowestValidEpoch;
        if clusterOpinion != localOpinion {
          if status.electionEpoch == 0 || !running {
            inQuorum := inQuorum + [localOpinion];
          } else if status.electionEpoch < monStatus.electionEpoch {
            inQuorum := inQuorum + [clusterOpinion];
          } else {
            inQuorum := inQuorum + [localOpinion];
          }
        } else {
          inQuorum := inQuorum + [clusterOpinion];
        }
      }
    }
    assert inQuorum == BelieveAll(e, mons, infos);
    var count := Counted(inQuorum);
    if count < |mons| / 2 + 1 {
      inQuorum := seq(|mons|, i => false);
    }
  }

  // ---------------------------------------------------------------- what the reports rest on

  // A status that somebody gave: the cluster, or a mon itself.
  ghost predicate Given(cluster: Status, infos: seq<Option<Info>>, s: Status) {
    s == cluster || exists i :: 0 <= i < |infos| && StatusOf(infos[i]) == Some(s)
  }

  // No given status is of a later epoch.
  ghost predicate Freshest(cluster: Status, infos: seq<Option<Info>>, s: Status) {
    Given(cluster, infos, s) && forall t :: Given(cluster, infos, t) ==> t.electionEpoch <= s.electionEpoch
  }

  lemma GivenNext(cluster: Status, infos: seq<Option<Info>>, s: Status)
    requires infos != []
    ensures Given(cluster, infos, s) <==>
            Given(cluster, infos[..|infos| - 1], s) || StatusOf(infos[|infos| - 1]) == Some(s)
  {
    var init := infos[..|infos| - 1];
    if s != cluster && Given(cluster, infos, s) {
      var i :| 0 <= i < |infos| && StatusOf(infos[i]) == Some(s);
      assert i < |init| ==> init[i] == infos[i];
    }
    if s != cluster && Given(cluster, init, s) {
      var i :| 0 <= i < |init| && StatusOf(init[i]) == Some(s);
      assert infos[i] == init[i];
    }
  }

  // The evidence is a given status, and no epoch that was seen is above the lowest valid one.
  lemma {:induction false} WeighedCoversAll(cluster: Status, infos: seq<Option<Info>>)
    ensures Given(cluster, infos, WeighAll(cluster, infos).status)
    ensures forall s :: Given(cluster, infos, s) ==> s.electionEpoch <= WeighAll(cluster, infos).lowest
    ensures WeighAll(cluster, infos).status.electionEpoch <= WeighAll(cluster, infos).lowest
  {
    if infos != [] {
      WeighedCoversAll(cluster, infos[..|infos| - 1]);
      GivenNext(cluster, infos, WeighAll(cluster, infos).status);
      forall s
        ensures Given(cluster, infos, s) ==> s.electionEpoch <= WeighAll(cluster, infos).lowest
      {
        GivenNext(cluster, infos, s);
      }
    }
  }

  // Every mon that is reported in quorum is backed by a status than which none is fresher: one
  // that lists the mon, or the mon's own that lists itself.
  lemma ReportsRestOnFreshest(cluster: Status, mons: seq<Rank>, infos: seq<Option<Info>>, i: nat)
    requires |mons| == |infos| && i < |mons| && InQuorum(cluster, mons, infos)[i]
    ensures exists s :: Freshest(cluster, infos, s) &&
              (mons[i] in s.quorum || (StatusOf(infos[i]) == Some(s) && infos[i].value.running && s.rank in s.quorum))
  {
    var e := WeighAll(cluster, infos);
    WeighedCoversAll(cluster, infos);
    assert Believed(e, mons[i], infos[i]);
    if ClusterOpinion(e, mons[i]) {
      assert Freshest(cluster, infos, e.status);
    } else {
      assert Freshest(cluster, infos, infos[i].value.status.value);
    }
  }

  // Two statuses of one epoch, with no higher one valid, that disagree leave none valid.
  lemma {:induction false} DisagreementIsNoticed(cluster: Status, infos: seq<Option<Info>>, s: Status, t: Status)
    requires Given(cluster, infos, s) && Given(cluster, infos, t)
    requires s.electionEpoch == t.electionEpoch && s.quorum != t.quorum
    ensures WeighAll(cluster, infos).lowest > s.electionEpoch
  {
    if infos != [] {
      var init := infos[..|infos| - 1];
      GivenNext(cluster, infos, s);
      GivenNext(cluster, infos, t);
      if Given(cluster, init, s) && Given(cluster, init, t) {
        DisagreementIsNoticed(cluster, init, s, t);
      } else if Given(cluster, init, s) {
        MatchedOrExceeded(cluster, init, s);
      } else if Given(cluster, init, t) {
        MatchedOrExceeded(cluster, init, t);
      }
    }
  }

  // A status that was weighed either agrees with the believed one or is out of date.
  lemma {:induction false} MatchedOrExceeded(cluster: Status, infos: seq<Option<Info>>, s: Status)
    requires Given(cluster, infos, s)
    ensures var e := WeighAll(cluster, infos);
            e.lowest > s.electionEpoch || (e.lowest == s.electionEpoch && e.status.quorum == s.quorum)
  {
    if infos != [] {
      var init := infos[..|infos| - 1];
      GivenNext(cluster, infos, s);
      WeighedCoversAll(cluster, init);
      if Given(cluster, init, s) {
        MatchedOrExceeded(cluster, init, s);
      }
    }
  }

  // If two of the freshest statuses disagree about the quorum, nobody is reported in it.
  lemma DisagreementMeansNoQuorum(cluster: Status, mons: seq<Rank>, infos: seq<Option<Info>>, s: Status, t: Status)
    requires |mons| == |infos|
    requires Freshest(cluster, infos, s) && Freshest(cluster, infos, t) && s.quorum != t.quorum
    ensures forall i :: 0 <= i < |mons| ==> !InQuorum(cluster, mons, infos)[i]
  {
    DisagreementIsNoticed(cluster, infos, s, t);
    WeighedCoversAll(cluster, infos);
    var e := WeighAll(cluster, infos);
    forall i | 0 <= i < |mons|
      ensures !InQuorum(cluster, mons, infos)[i]
    {
      if own :| StatusOf(infos[i]) == Some(own) {
        assert Given(cluster, infos, own);
      }
      assert !Believed(e, mons[i], infos[i]);
    }
  }

  // A mon that has a status but does not run is not in quorum, whatever anybody says.
  lemma StoppedIsNotInQuorum(cluster: Status, mons: seq<Rank>, infos: seq<Option<Info>>, i: nat)
    requires |mons| == |infos| && i < |mons| && StatusOf(infos[i]).Some? && !infos[i].value.running
    ensures !InQuorum(cluster, mons, infos)[i]
  {
  }

  lemma {:induction false} CountNone(s: seq<bool>)
    requires forall i :: 0 <= i < |s| ==> !s[i]
    ensures Count(s) == 0
  {
    if s != [] {
      CountNone(s[..|s| - 1]);
    }
  }

  lemma {:induction false} CountIs(s: seq<bool>)
    ensures Count(s) == |set i | 0 <= i < |s| && s[i]|
  {
    if s != [] {
      var init, last := s[..|s| - 1], |s| - 1;
      CountIs(init);
      var before, after := set i | 0 <= i < |init| && init[i], set i | 0 <= i < |s| && s[i];
      assert after == if s[last] then before + {last} else before;
    }
  }

  // Nobody is reported in quorum, or more than half of the mons are.
  lemma NoneOrMajority(cluster: Status, mons: seq<Rank>, infos: seq<Option<Info>>)
    requires |mons| == |infos|
    ensures var n := Count(InQuorum(cluster, mons, infos)); n == 0 || 2 * n > |mons|
  {
    if Count(BelieveAll(WeighAll(cluster, infos), mons, infos)) < |mons| / 2 + 1 {
      CountNone(InQuorum(cluster, mons, infos));
    }
  }

  // ---------------------------------------------------------------- when nobody disputes the freshest

  // Statuses of one epoch agree on the quorum.
  ghost predicate Undisputed(cluster: Status, infos: seq<Option<Info>>) {
    forall s, t :: Given(cluster, infos, s) && Given(cluster, infos, t) && s.electionEpoch == t.electionEpoch ==>
      s.quorum == t.quorum
  }

  // Then the freshest status is believed, whoever gave it.
  lemma {:induction false} UndisputedStands(cluster: Status, infos: seq<Option<Info>>)
    requires Undisputed(cluster, infos)
    ensures var e := WeighAll(cluster, infos);
            Freshest(cluster, infos, e.status) && e.lowest == e.status.electionEpoch
  {
    if infos == [] {
      assert forall s :: Given(cluster, infos, s) ==> s == cluster;
    } else {
      var init, last := infos[..|infos| - 1], StatusOf(infos[|infos| - 1]);
      forall s
        ensures Given(cluster, infos, s) <==> Given(cluster, init, s) || last == Some(s)
      {
        GivenNext(cluster, infos, s);
      }
      UndisputedStands(cluster, init);
    }
  }

  // The word of the status that is believed counts for a mon, unless that one does not run, never took
  // part in an election, or is of the latest epoch itself and does not see itself in the quorum. If
  // what is believed is not of the latest epoch, only the word of those that are counts.
  predicate Votes(believed: Option<Status>, epoch: nat, rank: Rank, info: Option<Info>) {
    match StatusOf(info)
    case None => believed.Some? && rank in believed.value.quorum
    case Some(s) =>
      && info.value.running
      && if s.electionEpoch < epoch then s.electionEpoch > 0 && believed.Some? && rank in believed.value.quorum
         else s.rank in s.quorum
  }

  function AllVotes(believed: Option<Status>, epoch: nat, mons: seq<Rank>, infos: seq<Option<Info>>): (r: seq<bool>)
    requires |mons| == |infos|
    ensures |r| == |mons| && forall i :: 0 <= i < |mons| ==> r[i] == Votes(believed, epoch, mons[i], infos[i])
  {
    seq(|mons|, i requires 0 <= i < |mons| => Votes(believed, epoch, mons[i], infos[i]))
  }

  // Whatever is given: a mon is reported in quorum if and only if the latest epoch is valid, the mon has
  // such a vote, and more than half of the mons have.
  lemma ReportsAreVotes(cluster: Status, mons: seq<Rank>, infos: seq<Option<Info>>, i: nat, freshest: Status)
    requires |mons| == |infos| && i < |mons| && Freshest(cluster, infos, freshest)
    ensures var e, epoch := WeighAll(cluster, infos), freshest.electionEpoch;
            var votes := AllVotes(if e.status.electionEpoch == epoch then Some(e.status) else None, epoch, mons, infos);
            InQuorum(cluster, mons, infos)[i] <==> e.lowest == epoch && votes[i] && 2 * Count(votes) > |mons|
  {
    var e, epoch := WeighAll(cluster, infos), freshest.electionEpoch;
    var votes := AllVotes(if e.status.electionEpoch == epoch then Some(e.status) else None, epoch, mons, infos);
    var believed := BelieveAll(e, mons, infos);
    forall k | 0 <= k < |mons|
      ensures believed[k] <==> e.lowest == epoch && votes[k]
    {
      BelievedIsVote(cluster, mons, infos, k, freshest);
    }
    if e.lowest == epoch {
      assert believed == votes;
    } else {
      CountNone(believed);
    }
  }

  lemma BelievedIsVote(cluster: Status, mons: seq<Rank>, infos: seq<Option<Info>>, i: nat, freshest: Status)
    requires |mons| == |infos| && i < |mons| && Freshest(cluster, infos, freshest)
    ensures var e, epoch := WeighAll(cluster, infos), freshest.electionEpoch;
            Believed(e, mons[i], infos[i]) <==>
            e.lowest == epoch
            && Votes(if e.status.electionEpoch == epoch then Some(e.status) else None, epoch, mons[i], infos[i])
  {
    WeighedCoversAll(cluster, infos);
    if s :| StatusOf(infos[i]) == Some(s) {
      assert Given(cluster, infos, s);
    }
  }

  // Without disputes, the freshest status is the one whose word counts.
  lemma UndisputedReports(cluster: Status, mons: seq<Rank>, infos: seq<Option<Info>>, i: nat, freshest: Status)
    requires |mons| == |infos| && i < |mons| && Undisputed(cluster, infos) && Freshest(cluster, infos, freshest)
    ensures var votes := AllVotes(Some(freshest), freshest.electionEpoch, mons, infos);
            InQuorum(cluster, mons, infos)[i] <==> votes[i] && 2 * Count(votes) > |mons|
  {
    UndisputedStands(cluster, infos);
    ReportsAreVotes(cluster, mons, infos, i, freshest);
    var e, epoch := WeighAll(cluster, infos), freshest.electionEpoch;
    assert e.status.electionEpoch == epoch && e.status.quorum == freshest.quorum;
    assert AllVotes(Some(e.status), epoch, mons, infos) == AllVotes(Some(freshest), epoch, mons, infos);
  }

  // ---------------------------------------------------------------- when a single freshest is believed

  // No status but the i-th mon's own is as fresh.
  ghost predicate OnlyFreshest(cluster: Status, infos: seq<Option<Info>>, i: nat, newest: Status) {
    && i < |infos| && StatusOf(infos[i]) == Some(newest) && cluster.electionEpoch < newest.electionEpoch
    && forall k :: 0 <= k < |infos| && k != i && StatusOf(infos[k]).Some? ==>
         StatusOf(infos[k]).value.electionEpoch < newest.electionEpoch
  }

  // It is believed exactly if the disputes among the statuses before it have not raised the lowest
  // valid epoch to its own; otherwise no status is.
  lemma {:induction false} NewestBelieved(cluster: Status, infos: seq<Option<Info>>, i: nat, newest: Status)
    requires OnlyFreshest(cluster, infos, i, newest)
    ensures var e := WeighAll(cluster, infos);
            e.status == newest && e.lowest == newest.electionEpoch <==>
            WeighAll(cluster, infos[..i]).lowest < newest.electionEpoch
    ensures WeighAll(cluster, infos[..i]).lowest >= newest.electionEpoch ==>
              WeighAll(cluster, infos).lowest > WeighAll(cluster, infos).status.electionEpoch
  {
    var init := infos[..|infos| - 1];
    if i == |infos| - 1 {
      assert infos[..i] == init;
      WeighedCoversAll(cluster, init);
      OlderBefore(cluster, init, newest);
    } else {
      assert init[..i] == infos[..i];
      NewestBelieved(cluster, init, i, newest);
      WeighedCoversAll(cluster, init);
      assert Given(cluster, init, newest);
      assert WeighAll(cluster, infos) == WeighAll(cluster, init);
    }
  }

  // The lowest valid epoch is that of the freshest statuses, or the next one. So a status that is alone
  // two epochs ahead of all others is believed, whatever disputes there have been.
  lemma {:induction false} LowestIsNear(cluster: Status, infos: seq<Option<Info>>, freshest: Status)
    requires Freshest(cluster, infos, freshest)
    ensures freshest.electionEpoch <= WeighAll(cluster, infos).lowest <= freshest.electionEpoch + 1
  {
    WeighedCoversAll(cluster, infos);
    LowestIsGiven(cluster, infos);
  }

  lemma {:induction false} LowestIsGiven(cluster: Status, infos: seq<Option<Info>>)
    ensures exists s :: Given(cluster, infos, s) && WeighAll(cluster, infos).lowest <= s.electionEpoch + 1
  {
    if infos == [] {
      assert Given(cluster, infos, cluster);
    } else {
      var init := infos[..|infos| - 1];
      LowestIsGiven(cluster, init);
      var s :| Given(cluster, init, s) && WeighAll(cluster, init).lowest <= s.electionEpoch + 1;
      GivenNext(cluster, infos, s);
      var last := StatusOf(infos[|infos| - 1]);
      if last.Some? {
        GivenNext(cluster, infos, last.value);
      }
    }
  }

  // No status is of a later epoch.
  ghost predicate NoneLater(infos: seq<Option<Info>>, epoch: nat) {
    forall k :: 0 <= k < |infos| && StatusOf(infos[k]).Some? ==> StatusOf(infos[k]).value.electionEpoch <= epoch
  }

  // Those of the epoch agree on this quorum.
  ghost predicate AgreeOn(infos: seq<Option<Info>>, epoch: nat, quorum: seq<Rank>) {
    forall k :: 0 <= k < |infos| && StatusOf(infos[k]).Some? && StatusOf(infos[k]).value.electionEpoch == epoch ==>
      StatusOf(infos[k]).value.quorum == quorum
  }

  // If nobody is later than the cluster's own status, it is believed, and its epoch stays valid exactly
  // if nobody of that epoch disagrees.
  lemma {:induction false} ClusterDecides(cluster: Status, infos: seq<Option<Info>>)
    requires NoneLater(infos, cluster.electionEpoch)
    ensures var e, epoch := WeighAll(cluster, infos), cluster.electionEpoch;
            && e.status == cluster && epoch <= e.lowest <= epoch + 1
            && (e.lowest == epoch <==> AgreeOn(infos, epoch, cluster.quorum))
  {
    if infos != [] {
      ClusterDecides(cluster, infos[..|infos| - 1]);
    }
  }

  // Otherwise the first status of the latest epoch is believed exactly if disputes before it have not
  // raised the lowest valid epoch so far; and the epoch is valid exactly if nobody of it disagrees,
  // nor does this one with what was believed instead.
  lemma {:induction false} LatestDecides(cluster: Status, infos: seq<Option<Info>>, i: nat, s: Status)
    requires i < |infos| && StatusOf(infos[i]) == Some(s) && cluster.electionEpoch < s.electionEpoch
    requires NoneLater(infos, s.electionEpoch)
    requires forall k :: 0 <= k < i && StatusOf(infos[k]).Some? ==>
               StatusOf(infos[k]).value.electionEpoch < s.electionEpoch
    ensures var before, e, epoch := WeighAll(cluster, infos[..i]), WeighAll(cluster, infos), s.electionEpoch;
            && e.status == (if before.lowest < epoch then s else before.status)
            && before.lowest <= epoch <= e.lowest <= epoch + 1
            && (e.lowest == epoch <==>
                  AgreeOn(infos, epoch, s.quorum) && (before.lowest < epoch || before.status.quorum == s.quorum))
  {
    var init := infos[..|infos| - 1];
    if i == |infos| - 1 {
      assert infos[..i] == init;
      LowestIsGiven(cluster, init);
    } else {
      assert init[..i] == infos[..i];
      LatestDecides(cluster, init, i, s);
    }
  }

  lemma FarAheadIsBelieved(cluster: Status, infos: seq<Option<Info>>, i: nat, newest: Status, other: Status)
    requires OnlyFreshest(cluster, infos, i, newest) && Freshest(cluster, infos[..i], other)
    requires newest.electionEpoch >= other.electionEpoch + 2
    ensures var e := WeighAll(cluster, infos); e.status == newest && e.lowest == newest.electionEpoch
  {
    LowestIsNear(cluster, infos[..i], other);
    NewestBelieved(cluster, infos, i, newest);
  }

  lemma {:induction false} OlderBefore(cluster: Status, infos: seq<Option<Info>>, newest: Status)
    requires cluster.electionEpoch < newest.electionEpoch
    requires forall k :: 0 <= k < |infos| && StatusOf(infos[k]).Some? ==>
               StatusOf(infos[k]).value.electionEpoch < newest.electionEpoch
    ensures WeighAll(cluster, infos).status.electionEpoch < newest.electionEpoch
  {
    if infos != [] {
      OlderBefore(cluster, infos[..|infos| - 1], newest);
    }
  }

  // ---------------------------------------------------------------- where the freshest is not believed

  // Three mons; two of them disagree with the cluster at epoch 4, and the third is alone at epoch 5
  // with the whole quorum. The disagreement has already raised the lowest valid epoch to 5, so the
  // fresh status counts as one more disagreement, and nobody is reported in quorum.
  lemma FreshStatusDisregarded() returns (cluster: Status, mons: seq<Rank>, infos: seq<Option<Info>>, newest: Status)
    ensures |mons| == |infos| == 3
    ensures Freshest(cluster, infos, newest) && forall i :: 0 <= i < 3 ==> mons[i] in newest.quorum
    ensures forall s :: Freshest(cluster, infos, s) ==> s == newest
    ensures forall i :: 0 <= i < 3 ==> infos[i].Some? && infos[i].value.running
    ensures forall i :: 0 <= i < 3 ==> !InQuorum(cluster, mons, infos)[i]
  {
    var a, b, c := Rank(0), Rank(1), Rank(2);
    mons := [a, b, c];
    cluster := Status(a, 4, [a, b]);
    var s0, s1 := Status(a, 4, [a, c]), Status(b, 4, [a, c]);
    newest := Status(c, 5, [a, b, c]);
    infos := [Some(Info(true, Some(s0))), Some(Info(true, Some(s1))), Some(Info(true, Some(newest)))];
    assert infos[..2][..1] == [infos[0]] && infos[..2] == [infos[0], infos[1]] && [infos[0]][..0] == [];
    assert WeighAll(cluster, []) == Evidence(cluster, 4);
    assert WeighAll(cluster, [infos[0]]) == Evidence(cluster, 5);
    assert WeighAll(cluster, infos[..2]) == Evidence(cluster, 5);
    assert WeighAll(cluster, infos) == Evidence(cluster, 6);
    assert StatusOf(infos[2]) == Some(newest);
    assert forall s :: Given(cluster, infos, s) ==> s in {cluster, s0, s1, newest};
  }
}
