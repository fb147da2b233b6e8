// The PG health counters of the first REST API: every PG of the digest is counted once, as
// ok, warning or critical, and each state name of its class is tallied beside the count.
module HealthCounters {
  import opened Wrappers
  import opened PgDigest

  const CRIT_STATES: set<string> := {"stale", "down", "peering", "inconsistent", "incomplete", "inactive"}
  const WARN_STATES: set<string> :=
    {"creating", "recovery_wait", "recovering", "replay", "splitting", "degraded", "remapped", "scrubbing",
     "repair", "wait_backfill", "backfilling", "backfill_toofull"}
  const OKAY_STATES: set<string> := {"active", "clean"}

  function Lower(s: string): string {
    if s == "" then ""
    else [if 'A' <= s[0] <= 'Z' then s[0] - 'A' + 'a' else s[0]] + Lower(s[1..])
  }

  function LowerAll(parts: seq<string>): (r: seq<string>)
    ensures |r| == |parts|
  {
    if parts == [] then [] else [Lower(parts[0])] + LowerAll(parts[1..])
  }

  function States(name: string): seq<string> {
    LowerAll(Tokens(name))
  }

  predicate Touches(states: seq<string>, classifier: set<string>) {
    exists s :: s in states && s in classifier
  }

  datatype Class = Critical | Warning | Okay | Unclassified

  function Classify(states: seq<string>): Class {
    if Touches(states, CRIT_STATES) then Critical
    else if Touches(states, WARN_STATES) then Warning
    else if Touches(states, OKAY_STATES) then Okay
    else Unclassified
  }

  // The counter that a state goes to; what no class claims is taken for critical.
  datatype Counter = Ok | Warn | Crit

  function CounterOf(states: seq<string>): Counter {
    match Classify(states)
    case Critical => Crit
    case Warning => Warn
    case Okay => Ok
    case Unclassified => Crit
  }

  function Occurrences(states: seq<string>, s: string): nat {
    if states == [] then 0
    else Occurrences(states[..|states| - 1], s) + (if states[|states| - 1] == s then 1 else 0)
  }

  // How often a PG in these states is tallied under one state name: once if the name is of the class
  // that decides; and without a class, as often as it occurs.
  function Shown(states: seq<string>, s: string): nat {
    match Classify(states)
    case Critical => if s in states && s in CRIT_STATES then 1 else 0
    case Warning => if s in states && s in WARN_STATES then 1 else 0
    case Okay => if s in states && s in OKAY_STATES then 1 else 0
    case Unclassified => Occurrences(states, s)
  }

  function CountFor(k: Counter, name: string): nat {
    if CounterOf(States(name)) == k then 1 else 0
  }

  function StateCountFor(k: Counter, s: string, name: string): nat {
    if CounterOf(States(name)) == k then Shown(States(name), s) else 0
  }

  ghost function Counts(k: Counter): string -> nat {
    name => CountFor(k, name)
  }

  ghost function StateCounts(k: Counter, s: string): string -> nat {
    name => StateCountFor(k, s, name)
  }

  // ---------------------------------------------------------------- the counters as they are built

  // A count, and counts by state name.
  datatype Count = Count(total: nat, states: Tally)

  // The two-element list that the original updates in place.
  class Stats {
    var count: nat
    var states: Tally

    ghost function View(): Count
      reads this
    {
      Count(count, states)
    }

    constructor ()
      ensures View() == Count(0, map[])
    {
      count, states := 0, map[];
    }

    method AddState(s: string, n: nat)
      modifies this`states
      ensures forall x :: Get(states, x) == Get(old(states), x) + (if x == s then n else 0)
    {
      states := states[s := Get(states, s) + n];
    }
  }

  method PgCounterHelper(states: seq<string>, classifier: set<string>, n: nat, stats: Stats)
    returns (matched: bool)
    modifies stats
    ensures matched <==> Touches(states, classifier)
    ensures stats.count == old(stats.count) + (if matched then n else 0)
    ensures forall x :: Get(stats.states, x)
                     == Get(old(stats.states), x) + (if x in states && x in classifier then n else 0)
  {
    var matchedStates := set s | s in states && s in classifier;
    assert matchedStates == {} <==> !Touches(states, classifier) by {
      if s :| s in states && s in classifier {
        assert s in matchedStates;
      }
    }
    if matchedStates == {} {
      return false;
    }
    stats.count := stats.count + n;
    var rest := matchedStates;
    while rest != {}
      invariant rest <= matchedStates && stats.count == old(stats.count) + n
      invariant forall x :: Get(stats.states, x)
                         == Get(old(stats.states), x) + (if x in matchedStates && x !in rest then n else 0)
    {
      var s :| s in rest;
      stats.AddState(s, n);
      rest := rest - {s};
    }
    return true;
  }

  // A classifier that the states do not touch has none of them.
  lemma Untouched(states: seq<string>)
    ensures !Touches(states, CRIT_STATES) ==> forall x :: x in states ==> x !in CRIT_STATES
    ensures !Touches(states, WARN_STATES) ==> forall x :: x in states ==> x !in WARN_STATES
    ensures !Touches(states, OKAY_STATES) ==> forall x :: x in states ==> x !in OKAY_STATES
  {
    hide CRIT_STATES, WARN_STATES, OKAY_STATES;
  }

  lemma NoOccurrence(states: seq<string>)
    ensures forall x :: Occurrences(states[..0], x) == 0
  {
  }

  lemma OneMore(states: seq<string>, i: nat, n: nat, x: string)
    requires i < |states|
    ensures n * Occurrences(states[..i + 1], x) == n * Occurrences(states[..i], x) + (if x == states[i] then n else 0)
  {
    assert states[..i + 1][..i] == states[..i];
    var before := Occurrences(states[..i], x);
    assert n * (before + 1) == n * before + n;
  }

  // A state that no class claims, token by token.
  method CountUnclassified(states: seq<string>, n: nat, stats: Stats)
    requires Classify(states) == Unclassified
    modifies stats
    ensures stats.count == old(stats.count) + n
    ensures forall x :: Get(stats.states, x) == Get(old(stats.states), x) + n * Occurrences(states, x)
  {
    Untouched(states);
    hide Touches, Occurrences, CRIT_STATES, WARN_STATES, OKAY_STATES;
    NoOccurrence(states);
    stats.count := stats.count + n;
    for i := 0 to |states|
      invariant stats.count == old(stats.count) + n
      invariant forall x :: Get(stats.states, x) == Get(old(stats.states), x) + n * Occurrences(states[..i], x)
    {
      var state := states[i];
      assert state in states;
      if state !in CRIT_STATES + WARN_STATES + OKAY_STATES || state in CRIT_STATES {
        stats.AddState(state, n);
      }
      forall x
        ensures n * Occurrences(states[..i + 1], x)
             == n * Occurrences(states[..i], x) + (if x == states[i] then n else 0)
      {
        OneMore(states, i, n, x);
      }
    }
    assert states[..|states|] == states;
  }

  // One more state of the digest has been counted.
  ghost predicate Counted(v: Count, v': Count, k: Counter, states: seq<string>, n: nat) {
    && v'.total == v.total + (if CounterOf(states) == k then n else 0)
    && forall x :: Get(v'.states, x) == Get(v.states, x) + (if CounterOf(states) == k then n * Shown(states, x) else 0)
  }

  method CountState(states: seq<string>, n: nat, ok: Stats, warn: Stats, crit: Stats)
    requires ok != warn && warn != crit && ok != crit
    modifies ok, warn, crit
    ensures Counted(old(ok.View()), ok.View(), Ok, states, n)
    ensures Counted(old(warn.View()), warn.View(), Warn, states, n)
    ensures Counted(old(crit.View()), crit.View(), Crit, states, n)
  {
    hide Touches, Classify, CounterOf, Shown, Occurrences, CRIT_STATES, WARN_STATES, OKAY_STATES;
    CounterIs(states, n);
    var matched := PgCounterHelper(states, CRIT_STATES, n, crit);
    if !matched {
      matched := PgCounterHelper(states, WARN_STATES, n, warn);
      if !matched {
        matched := PgCounterHelper(states, OKAY_STATES, n, ok);
        if !matched {
          CountUnclassified(states, n, crit);
        }
      }
    }
  }

  // What a class adds under each state name; nothing is of a class that the states do not touch.
  lemma CounterIs(states: seq<string>, n: nat)
    ensures Touches(states, CRIT_STATES) ==>
              && CounterOf(states) == Crit
              && forall x :: n * Shown(states, x) == if x in states && x in CRIT_STATES then n else 0
    ensures !Touches(states, CRIT_STATES) && Touches(states, WARN_STATES) ==>
              && CounterOf(states) == Warn
              && forall x :: n * Shown(states, x) == if x in states && x in WARN_STATES then n else 0
    ensures !Touches(states, CRIT_STATES) && !Touches(states, WARN_STATES) && Touches(states, OKAY_STATES) ==>
              && CounterOf(states) == Ok
              && forall x :: n * Shown(states, x) == if x in states && x in OKAY_STATES then n else 0
    ensures !Touches(states, CRIT_STATES) && !Touches(states, WARN_STATES) && !Touches(states, OKAY_STATES) ==>
              && CounterOf(states) == Crit && Classify(states) == Unclassified
              && forall x :: Shown(states, x) == Occurrences(states, x)
    ensures !Touches(states, CRIT_STATES) ==> forall x :: x in states ==> x !in CRIT_STATES
    ensures !Touches(states, WARN_STATES) ==> forall x :: x in states ==> x !in WARN_STATES
    ensures !Touches(states, OKAY_STATES) ==> forall x :: x in states ==> x !in OKAY_STATES
  {
    hide CRIT_STATES, WARN_STATES, OKAY_STATES, Occurrences;
  }

  // What has been counted of a counter, apart from the states that are left.
  ghost predicate CountedBut(v: Count, k: Counter, all: Tally, rest: Tally) {
    && v.total + SumBy(rest, Counts(k)) == SumBy(all, Counts(k))
    && forall x :: Get(v.states, x) + SumBy(rest, StateCounts(k, x)) == SumBy(all, StateCounts(k, x))
  }

  lemma CountedNext(v: Count, v': Count, k: Counter, all: Tally, rest: Tally, name: string)
    requires name in rest && CountedBut(v, k, all, rest) && Counted(v, v', k, States(name), rest[name])
    ensures CountedBut(v', k, all, rest - {name})
  {
    hide CounterOf, Shown, States, SumBy;
    SumByAny(rest, name, Counts(k));
    forall x
      ensures Get(v'.states, x) + SumBy(rest - {name}, StateCounts(k, x)) == SumBy(all, StateCounts(k, x))
    {
      SumByAny(rest, name, StateCounts(k, x));
    }
  }

  // What a counter comes to.
  ghost predicate IsCounter(count: nat, states: Tally, k: Counter, all: Tally) {
    count == SumBy(all, Counts(k)) && forall x :: Get(states, x) == SumBy(all, StateCounts(k, x))
  }

  lemma NothingCounted(all: Tally)
    ensures forall k :: CountedBut(Count(0, map[]), k, all, all)
  {
  }

  lemma AllCounted(v: Count, k: Counter, all: Tally)
    requires CountedBut(v, k, all, map[])
    ensures IsCounter(v.total, v.states, k, all)
  {
  }

  // Every state is counted under its counter, with the names of its class beside the count.
  method CalculatePgCounters(all: Tally)
    returns (ok: nat, okStates: Tally, warn: nat, warnStates: Tally, crit: nat, critStates: Tally)
    ensures IsCounter(ok, okStates, Ok, all)
    ensures IsCounter(warn, warnStates, Warn, all)
    ensures IsCounter(crit, critStates, Crit, all)
  {
    hide CountedBut, Counted, States;
    NothingCounted(all);
    var okStats := new Stats();
    var warnStats := new Stats();
    var critStats := new Stats();
    var rest := all;
    while rest != map[]
      invariant fresh(okStats) && fresh(warnStats) && fresh(critStats)
      invariant okStats != warnStats && warnStats != critStats && okStats != critStats
      invariant CountedBut(okStats.View(), Ok, all, rest)
      invariant CountedBut(warnStats.View(), Warn, all, rest)
      invariant CountedBut(critStats.View(), Crit, all, rest)
      decreases |rest|
    {
      var name :| name in rest;
      ghost var v1, v2, v3 := okStats.View(), warnStats.View(), critStats.View();
      CountState(States(name), rest[name], okStats, warnStats, critStats);
      CountedNext(v1, okStats.View(), Ok, all, rest, name);
      CountedNext(v2, warnStats.View(), Warn, all, rest, name);
      CountedNext(v3, critStats.View(), Crit, all, rest, name);
      rest := rest - {name};
    }
    AllCounted(okStats.View(), Ok, all);
    AllCounted(warnStats.View(), Warn, all);
    AllCounted(critStats.View(), Crit, all);
    ok, okStates := okStats.count, okStats.states;
    warn, warnStates := warnStats.count, warnStats.states;
    crit, critStates := critStats.count, critStats.states;
  }

  // ---------------------------------------------------------------- against direct counting

  // The PGs of a list that go to a counter, and those of them that a state name is tallied for.
  lemma CountersAreDirect(pgs: seq<Pg>, count: nat, states: Tally, k: Counter, s: string)
    requires IsCounter(count, states, k, DigestOf(pgs).all)
    ensures count == DirectSum(pgs, None, Counts(k))
    ensures Get(states, s) == DirectSum(pgs, None, StateCounts(k, s))
  {
    DigestSums(pgs, PoolId(0), Counts(k));
    DigestSums(pgs, PoolId(0), StateCounts(k, s));
  }

  lemma OneCounter(name: string, n: nat)
    ensures n * CountFor(Ok, name) + n * CountFor(Warn, name) + n * CountFor(Crit, name) == n
  {
    hide CounterOf, States;
  }

  lemma Empty(t: Tally)
    requires t == map[]
    ensures forall w: string -> nat :: SumBy(t, w) == 0
  {
  }

  lemma {:induction false} CountersPartition(t: Tally)
    ensures SumBy(t, Counts(Ok)) + SumBy(t, Counts(Warn)) + SumBy(t, Counts(Crit)) == SumBy(t, One())
    decreases |t|
  {
    hide CountFor, SumBy;
    if t == map[] {
      Empty(t);
    } else {
      var name :| name in t;
      OneCounter(name, t[name]);
      SumByAny(t, name, Counts(Ok));
      SumByAny(t, name, Counts(Warn));
      SumByAny(t, name, Counts(Crit));
      SumByAny(t, name, One());
      CountersPartition(t - {name});
    }
  }

  // Whatever states the PGs are in, each of them is counted exactly once.
  lemma EveryPgCountedOnce(pgs: seq<Pg>, ok: nat, okStates: Tally, warn: nat, warnStates: Tally, crit: nat,
                           critStates: Tally)
    requires var all := DigestOf(pgs).all;
             IsCounter(ok, okStates, Ok, all) && IsCounter(warn, warnStates, Warn, all)
             && IsCounter(crit, critStates, Crit, all)
    ensures ok + warn + crit == |pgs|
  {
    hide Counts, SumBy, DigestOf;
    CountersPartition(DigestOf(pgs).all);
    DigestTotals(pgs);
  }

  // ---------------------------------------------------------------- by the names of states

  // The name has this part, in whatever case.
  ghost predicate Names(name: string, s: string) {
    exists part :: HasPart(name, part) && Lower(part) == s
  }

  lemma {:induction false} LowerIs(s: string)
    ensures |Lower(s)| == |s|
    ensures forall i :: 0 <= i < |s| ==>
              Lower(s)[i] == if 'A' <= s[i] <= 'Z' then (s[i] as int + 32) as char else s[i]
  {
    if s != "" {
      LowerIs(s[1..]);
    }
  }

  lemma {:induction false} LowerAllIs(parts: seq<string>)
    ensures forall i :: 0 <= i < |parts| ==> LowerAll(parts)[i] == Lower(parts[i])
  {
    if parts != [] {
      LowerAllIs(parts[1..]);
    }
  }

  lemma StatesAreNamed(name: string, s: string)
    ensures s in States(name) <==> Names(name, s)
  {
    LowerAllIs(Tokens(name));
    if s in States(name) {
      var i :| 0 <= i < |States(name)| && States(name)[i] == s;
      TokensAreParts(name, Tokens(name)[i]);
    }
    if part :| HasPart(name, part) && Lower(part) == s {
      TokensAreParts(name, part);
      var i :| 0 <= i < |Tokens(name)| && Tokens(name)[i] == part;
    }
  }

  ghost predicate NamesCritical(name: string) {
    || Names(name, "stale") || Names(name, "down") || Names(name, "peering") || Names(name, "inconsistent")
    || Names(name, "incomplete") || Names(name, "inactive")
  }

  ghost predicate NamesWarning(name: string) {
    || Names(name, "creating") || Names(name, "recovery_wait") || Names(name, "recovering") || Names(name, "replay")
    || Names(name, "splitting") || Names(name, "degraded") || Names(name, "remapped") || Names(name, "scrubbing")
    || Names(name, "repair") || Names(name, "wait_backfill") || Names(name, "backfilling")
    || Names(name, "backfill_toofull")
  }

  ghost predicate NamesOkay(name: string) {
    Names(name, "active") || Names(name, "clean")
  }

  lemma TouchesByName(name: string)
    ensures Touches(States(name), CRIT_STATES) <==> NamesCritical(name)
    ensures Touches(States(name), WARN_STATES) <==> NamesWarning(name)
    ensures Touches(States(name), OKAY_STATES) <==> NamesOkay(name)
  {
    hide States, Names;
    forall s
      ensures s in States(name) <==> Names(name, s)
    {
      StatesAreNamed(name, s);
    }
  }

  // The worst of the known names decides; if there is none, the PG counts as critical.
  lemma CounterByName(name: string)
    ensures CounterOf(States(name))
         == if NamesCritical(name) then Crit
            else if NamesWarning(name) then Warn
            else if NamesOkay(name) then Ok
            else Crit
  {
    hide States, Touches, NamesCritical, NamesWarning, NamesOkay;
    TouchesByName(name);
  }

  lemma {:induction false} OccurrencesAre(states: seq<string>, s: string)
    ensures Occurrences(states, s) == multiset(states)[s]
  {
    if states != [] {
      var init := states[..|states| - 1];
      OccurrencesAre(init, s);
      assert states == init + [states[|states| - 1]];
    }
  }

  // The name of a state is tallied once beside the counter that a PG goes to, if it is of the class that
  // decides; without such a class, as often as it occurs.
  lemma TallyByName(name: string, s: string)
    ensures Shown(States(name), s)
         == if NamesCritical(name) then (if Names(name, s) && s in CRIT_STATES then 1 else 0)
            else if NamesWarning(name) then (if Names(name, s) && s in WARN_STATES then 1 else 0)
            else if NamesOkay(name) then (if Names(name, s) && s in OKAY_STATES then 1 else 0)
            else multiset(States(name))[s]
  {
    hide States, Touches, Names, NamesCritical, NamesWarning, NamesOkay, CRIT_STATES, WARN_STATES, OKAY_STATES;
    TouchesByName(name);
    StatesAreNamed(name, s);
    OccurrencesAre(States(name), s);
  }
}
