// Which OSDs a pool may use, and the pools that may use an OSD.
module CrushPools {
  import opened Wrappers
  import opened PgDigest
  import opened Crush

  datatype Rule = Rule(ruleId: int, ruleset: int, minSize: int, maxSize: int, steps: seq<Step>)

  datatype PoolRule = PoolRule(ruleset: int, size: int)

  predicate Fits(rule: Rule, pool: PoolRule) {
    rule.ruleset == pool.ruleset && rule.minSize <= pool.size <= rule.maxSize
  }

  // A rule is for the pools of its ruleset whose size is neither below its range nor above.
  lemma FitsBySize(rule: Rule, pool: PoolRule)
    ensures !Fits(rule, pool) <==> pool.ruleset != rule.ruleset || pool.size < rule.minSize || rule.maxSize < pool.size
  {
  }

  // ---------------------------------------------------------------- the OSDs of rules

  predicate Distinct<T(==)>(s: seq<T>) {
    forall i, j :: 0 <= i < j < |s| ==> s[i] != s[j]
  }

  // Some list of a set's elements.
  method Listed<T(==)>(s: set<T>) returns (list: seq<T>)
    ensures Distinct(list) && forall x :: x in list <==> x in s
  {
    list := [];
    var rest := s;
    while rest != {}
      invariant rest <= s && Distinct(list) && forall x :: x in list <==> x in s && x !in rest
    {
      var x :| x in rest;
      list, rest := list + [x], rest - {x};
    }
  }

  // The k-th rule is the last one of its id.
  predicate LastOfId(rules: seq<Rule>, k: int) {
    0 <= k < |rules| && forall j :: k < j < |rules| ==> rules[j].ruleId != rules[k].ruleId
  }

  // The OSDs that the rule can choose, each once.
  ghost predicate AreChosen(tree: Tree, rule: Rule, list: seq<int>) {
    Distinct(list) && forall o :: o in list <==> ChosenByRule(tree, rule.steps, o)
  }

  ghost predicate AreRuleOsds(tree: Tree, rules: seq<Rule>, osdsByRuleId: map<int, seq<int>>) {
    && (forall k :: 0 <= k < |rules| ==> rules[k].ruleId in osdsByRuleId)
    && (forall id :: id in osdsByRuleId ==> Distinct(osdsByRuleId[id]))
    && (forall k :: LastOfId(rules, k) ==> AreChosen(tree, rules[k], osdsByRuleId[rules[k].ruleId]))
  }

  // The OSDs that each rule can choose, by the rule's id.
  method OsdsByRuleId(tree: Tree, ghost rank: map<int, nat>, rules: seq<Rule>) returns (result: map<int, seq<int>>)
    requires Ranked(tree, rank) && forall k :: 0 <= k < |rules| ==> IsRule(tree, rules[k].steps)
    ensures AreRuleOsds(tree, rules, result)
  {
    result := map[];
    for i := 0 to |rules|
      invariant AreRuleOsds(tree, rules[..i], result)
    {
      var osds := GetCrushRuleOsds(tree, rank, rules[i].steps);
      var list := Listed(osds);
      AddRule(tree, rules[..i], rules[i], result, list);
      assert rules[..i + 1] == rules[..i] + [rules[i]];
      result := result[rules[i].ruleId := list];
    }
    assert rules[..|rules|] == rules;
  }

  lemma AddRule(tree: Tree, rules: seq<Rule>, rule: Rule, result: map<int, seq<int>>, list: seq<int>)
    requires AreRuleOsds(tree, rules, result) && AreChosen(tree, rule, list)
    ensures AreRuleOsds(tree, rules + [rule], result[rule.ruleId := list])
  {
    assert Distinct(list);
    hide AreChosen, Distinct;
    var more := rules + [rule];
    forall k | LastOfId(more, k) && k < |rules|
      ensures LastOfId(rules, k) && more[k].ruleId != rule.ruleId
    {
      assert more[|rules|] == rule;
      assert forall j :: 0 <= j < |rules| ==> more[j] == rules[j];
    }
  }

  // ---------------------------------------------------------------- the OSDs of pools

  // The last rule that fits decides; without one, any OSD may be used.
  ghost predicate IsPoolOsds(osds: seq<int>, pool: PoolRule, rules: seq<Rule>, osdsByRuleId: map<int, seq<int>>,
                             all: seq<int>)
  {
    && (forall k :: 0 <= k < |rules| && Fits(rules[k], pool)
                    && (forall j :: k < j < |rules| ==> !Fits(rules[j], pool)) ==>
          rules[k].ruleId in osdsByRuleId && osds == osdsByRuleId[rules[k].ruleId])
    && ((forall k :: 0 <= k < |rules| ==> !Fits(rules[k], pool)) ==> osds == all)
  }

  method OsdsOfPool(pool: PoolRule, rules: seq<Rule>, osdsByRuleId: map<int, seq<int>>, all: seq<int>)
    returns (osds: seq<int>)
    requires forall k :: 0 <= k < |rules| ==> rules[k].ruleId in osdsByRuleId
    ensures IsPoolOsds(osds, pool, rules, osdsByRuleId, all)
  {
    var found: Option<seq<int>> := None;
    for i := 0 to |rules|
      invariant found.None? <==> forall k :: 0 <= k < i ==> !Fits(rules[k], pool)
      invariant forall k :: 0 <= k < i && Fits(rules[k], pool) && (forall j :: k < j < i ==> !Fits(rules[j], pool)) ==>
                  found == Some(osdsByRuleId[rules[k].ruleId])
    {
      if Fits(rules[i], pool) {
        found := Some(osdsByRuleId[rules[i].ruleId]);
      }
    }
    osds := if found.None? then all else found.value;
  }

  method OsdsByPool(pools: map<PoolId, PoolRule>, rules: seq<Rule>, osdsByRuleId: map<int, seq<int>>, all: seq<int>)
    returns (result: map<PoolId, seq<int>>)
    requires forall k :: 0 <= k < |rules| ==> rules[k].ruleId in osdsByRuleId
    ensures result.Keys == pools.Keys
    ensures forall p :: p in pools ==> IsPoolOsds(result[p], pools[p], rules, osdsByRuleId, all)
  {
    result := map[];
    var rest := pools.Keys;
    while rest != {}
      invariant rest <= pools.Keys && result.Keys == pools.Keys - rest
      invariant forall p :: p in result ==> IsPoolOsds(result[p], pools[p], rules, osdsByRuleId, all)
    {
      var p :| p in rest;
      var osds := OsdsOfPool(pools[p], rules, osdsByRuleId, all);
      result := result[p := osds];
      rest := rest - {p};
    }
  }

  // ---------------------------------------------------------------- and back

  // What is recorded of the pools dealt with: for each OSD, exactly those that may use it.
  ghost predicate Inverse(osds: map<int, seq<PoolId>>, osdsByPool: map<PoolId, seq<int>>, done: set<PoolId>) {
    forall o :: o in osds ==>
      && Distinct(osds[o])
      && forall p :: p in osds[o] <==> p in done && p in osdsByPool && o in osdsByPool[p]
  }

  // The same, with the OSDs of one pool dealt with as far as the k-th.
  ghost predicate InverseUpTo(osds: map<int, seq<PoolId>>, osdsByPool: map<PoolId, seq<int>>, done: set<PoolId>,
                              pool: PoolId, k: nat)
    requires pool in osdsByPool && k <= |osdsByPool[pool]|
  {
    forall o :: o in osds ==>
      && Distinct(osds[o])
      && forall p :: p in osds[o] <==>
           if p == pool then o in osdsByPool[pool][..k] else p in done && p in osdsByPool && o in osdsByPool[p]
  }

  // The pools of each OSD: the inverse of the OSDs of each pool, for the OSDs that the map has.
  method OsdPools(pools: set<PoolId>, osdsByPool: map<PoolId, seq<int>>, all: set<int>)
    returns (osds: map<int, seq<PoolId>>)
    requires pools <= osdsByPool.Keys && forall p :: p in pools ==> Distinct(osdsByPool[p])
    ensures osds.Keys == all
    ensures forall o :: o in all ==> Distinct(osds[o]) && forall p :: p in osds[o] <==> p in pools && o in osdsByPool[p]
  {
    osds := map o | o in all :: [];
    var rest := pools;
    ghost var done: set<PoolId> := {};
    while rest != {}
      invariant osds.Keys == all && done == pools - rest && rest <= pools
      invariant Inverse(osds, osdsByPool, done)
    {
      var pool :| pool in rest;
      osds := AddPool(osds, osdsByPool, pool, done);
      rest, done := rest - {pool}, done + {pool};
    }
  }

  method AddPool(osds: map<int, seq<PoolId>>, osdsByPool: map<PoolId, seq<int>>, pool: PoolId, ghost done: set<PoolId>)
    returns (osds': map<int, seq<PoolId>>)
    requires pool in osdsByPool && pool !in done && Distinct(osdsByPool[pool]) && Inverse(osds, osdsByPool, done)
    ensures osds'.Keys == osds.Keys
    ensures Inverse(osds', osdsByPool, done + {pool})
  {
    osds' := osds;
    var list := osdsByPool[pool];
    for k := 0 to |list|
      invariant osds'.Keys == osds.Keys
      invariant InverseUpTo(osds', osdsByPool, done, pool, k)
    {
      // An OSD that is in the CRUSH map only is passed over.
      if list[k] in osds' {
        osds' := osds'[list[k] := osds'[list[k]] + [pool]];
      }
      assert list[..k + 1] == list[..k] + [list[k]];
    }
    assert list[..|list|] == list;
  }

  // ---------------------------------------------------------------- from rules to pools and back

  // The last rule that fits the pool.
  predicate Decides(rules: seq<Rule>, pool: PoolRule, k: int) {
    0 <= k < |rules| && Fits(rules[k], pool) && forall j :: k < j < |rules| ==> !Fits(rules[j], pool)
  }

  // The pool may use the OSD: no rule fits, or the one that decides can choose it. Of rules with the
  // same id the last one stands for all.
  ghost predicate MayUse(tree: Tree, rules: seq<Rule>, pool: PoolRule, o: int) {
    || (forall k :: 0 <= k < |rules| ==> !Fits(rules[k], pool))
    || exists k, l :: Decides(rules, pool, k) && LastOfId(rules, l) && rules[l].ruleId == rules[k].ruleId
                      && ChosenByRule(tree, rules[l].steps, o)
  }

  lemma {:induction false} SomeLast(rules: seq<Rule>, k: nat) returns (l: nat)
    requires k < |rules|
    ensures LastOfId(rules, l) && rules[l].ruleId == rules[k].ruleId
    decreases |rules| - k
  {
    if j :| k < j < |rules| && rules[j].ruleId == rules[k].ruleId {
      l := SomeLast(rules, j);
    } else {
      l := k;
    }
  }

  lemma {:induction false} SomeDecides(rules: seq<Rule>, pool: PoolRule, k: nat) returns (l: nat)
    requires k < |rules| && Fits(rules[k], pool)
    ensures Decides(rules, pool, l)
    decreases |rules| - k
  {
    if j :| k < j < |rules| && Fits(rules[j], pool) {
      l := SomeDecides(rules, pool, j);
    } else {
      l := k;
    }
  }

  lemma PoolMayUse(tree: Tree, rules: seq<Rule>, osdsByRuleId: map<int, seq<int>>, pool: PoolRule, osds: seq<int>,
                   all: seq<int>, o: int)
    requires AreRuleOsds(tree, rules, osdsByRuleId) && IsPoolOsds(osds, pool, rules, osdsByRuleId, all) && Distinct(all)
    ensures Distinct(osds) && (o in all ==> (o in osds <==> MayUse(tree, rules, pool, o)))
  {
    if fit :| 0 <= fit < |rules| && Fits(rules[fit], pool) {
      var k := SomeDecides(rules, pool, fit);
      var l := SomeLast(rules, k);
      assert osds == osdsByRuleId[rules[k].ruleId];
      assert AreChosen(tree, rules[l], osds);
      forall k', l' | Decides(rules, pool, k') && LastOfId(rules, l') && rules[l'].ruleId == rules[k'].ruleId
        ensures k' == k && l' == l
      {
      }
    }
  }

  // The pools of each OSD, from the CRUSH tree and the rules: a pool is listed for an OSD of the map
  // exactly if it may use it.
  method PoolsByOsd(tree: Tree, ghost rank: map<int, nat>, rules: seq<Rule>, pools: map<PoolId, PoolRule>,
                    all: set<int>)
    returns (osds: map<int, seq<PoolId>>)
    requires Ranked(tree, rank) && forall k :: 0 <= k < |rules| ==> IsRule(tree, rules[k].steps)
    ensures osds.Keys == all
    ensures forall o, p :: o in all ==> (p in osds[o] <==> p in pools && MayUse(tree, rules, pools[p], o))
    ensures forall o :: o in all ==> Distinct(osds[o])
  {
    var osdsByRuleId := OsdsByRuleId(tree, rank, rules);
    assert forall k :: 0 <= k < |rules| ==> rules[k].ruleId in osdsByRuleId;
    var list := Listed(all);
    var osdsByPool := OsdsByPool(pools, rules, osdsByRuleId, list);
    hide AreRuleOsds, IsPoolOsds, MayUse;
    forall p | p in pools
      ensures Distinct(osdsByPool[p])
    {
      PoolMayUse(tree, rules, osdsByRuleId, pools[p], osdsByPool[p], list, 0);
    }
    forall o, p | o in all && p in pools
      ensures o in osdsByPool[p] <==> MayUse(tree, rules, pools[p], o)
    {
      PoolMayUse(tree, rules, osdsByRuleId, pools[p], osdsByPool[p], list, o);
    }
    osds := OsdPools(pools.Keys, osdsByPool, all);
  }
}
