// The digest of placement groups (PGs) that each mon sends to Calamari, and the two places
// that add its entries up again: PG creation progress and the health counters.
module PgDigest {
  import opened Wrappers

  datatype PoolId = PoolId(number: int)

  datatype Pg = Pg(pool: PoolId, acting: seq<int>, state: string)

  // How many PGs are in each combined state, such as "active+clean".
  type Tally = map<string, nat>

  datatype Digest = Digest(byOsd: map<int, Tally>, byPool: map<PoolId, Tally>, all: Tally)

  function Get(t: Tally, s: string): nat {
    if s in t then t[s] else 0
  }

  function Row<K>(rows: map<K, Tally>, key: K): Tally {
    if key in rows then rows[key] else map[]
  }

  function Bump(t: Tally, s: string): Tally {
    t[s := Get(t, s) + 1]
  }

  function BumpRow<K>(rows: map<K, Tally>, key: K, s: string): map<K, Tally> {
    rows[key := Bump(Row(rows, key), s)]
  }

  function BumpRows(rows: map<int, Tally>, keys: seq<int>, s: string): map<int, Tally> {
    if keys == [] then rows else BumpRow(BumpRows(rows, keys[..|keys| - 1], s), keys[|keys| - 1], s)
  }

  // The digest as a fold over the list of PGs.
  function DigestOf(pgs: seq<Pg>): Digest {
    if pgs == [] then Digest(map[], map[], map[])
    else
      var d, pg := DigestOf(pgs[..|pgs| - 1]), pgs[|pgs| - 1];
      Digest(BumpRows(d.byOsd, pg.acting, pg.state), BumpRow(d.byPool, pg.pool, pg.state), Bump(d.all, pg.state))
  }

  // ---------------------------------------------------------------- the digest as it is built

  method AddToRow<K(==)>(rows: map<K, Tally>, key: K, s: string) returns (rows': map<K, Tally>)
    ensures rows' == BumpRow(rows, key, s)
  {
    rows' := rows;
    if key !in rows' {
      rows' := rows'[key := map[]];
    }
    if s in rows'[key] {
      rows' := rows'[key := rows'[key][s := rows'[key][s] + 1]];
    } else {
      rows' := rows'[key := rows'[key][s := 1]];
    }
  }

  method AddToRows(rows: map<int, Tally>, keys: seq<int>, s: string) returns (rows': map<int, Tally>)
    ensures rows' == BumpRows(rows, keys, s)
  {
    rows' := rows;
    for k := 0 to |keys|
      invariant rows' == BumpRows(rows, keys[..k], s)
    {
      assert keys[..k + 1][..k] == keys[..k];
      rows' := AddToRow(rows', keys[k], s);
    }
    assert keys[..|keys|] == keys;
  }

  method PgSummary(pgs: seq<Pg>) returns (d: Digest)
    ensures d == DigestOf(pgs)
  {
    var osds: map<int, Tally> := map[];
    var pools: map<PoolId, Tally> := map[];
    var allPgs: Tally := map[];
    for i := 0 to |pgs|
      invariant Digest(osds, pools, allPgs) == DigestOf(pgs[..i])
    {
      var pg := pgs[i];
      assert pgs[..i + 1][..i] == pgs[..i];
      osds := AddToRows(osds, pg.acting, pg.state);
      pools := AddToRow(pools, pg.pool, pg.state);
      if pg.state in allPgs {
        allPgs := allPgs[pg.state := allPgs[pg.state] + 1];
      } else {
        allPgs := allPgs[pg.state := 1];
      }
    }
    assert pgs[..|pgs|] == pgs;
    d := Digest(osds, pools, allPgs);
  }

  // ---------------------------------------------------------------- direct counting

  ghost predicate InScope(pg: Pg, pool: Option<PoolId>) {
    pool.Some? ==> pg.pool == pool.value
  }

  // PGs of one pool (or of all pools) in one state, counted from the list itself.
  ghost function CountIn(pgs: seq<Pg>, pool: Option<PoolId>, s: string): nat {
    if pgs == [] then 0
    else
      var pg := pgs[|pgs| - 1];
      CountIn(pgs[..|pgs| - 1], pool, s) + (if InScope(pg, pool) && pg.state == s then 1 else 0)
  }

  // Times an OSD occurs in the acting sets of PGs in one state.
  ghost function CountOnOsd(pgs: seq<Pg>, osd: int, s: string): nat {
    if pgs == [] then 0
    else
      var pg := pgs[|pgs| - 1];
      CountOnOsd(pgs[..|pgs| - 1], osd, s) + (if pg.state == s then multiset(pg.acting)[osd] else 0)
  }

  lemma {:induction false} BumpRowsCounts(rows: map<int, Tally>, keys: seq<int>, s: string, key: int, s': string)
    ensures Get(Row(BumpRows(rows, keys, s), key), s')
         == Get(Row(rows, key), s') + (if s == s' then multiset(keys)[key] else 0)
  {
    if keys != [] {
      var init, last := keys[..|keys| - 1], keys[|keys| - 1];
      assert keys == init + [last];
      BumpRowsCounts(rows, init, s, key, s');
    }
  }

  // Each entry of the digest is the number of PGs (for an OSD, of acting-set places) it stands for.
  lemma {:induction false} DigestIsExact(pgs: seq<Pg>, pool: PoolId, osd: int, s: string)
    ensures Get(DigestOf(pgs).all, s) == CountIn(pgs, None, s)
    ensures Get(Row(DigestOf(pgs).byPool, pool), s) == CountIn(pgs, Some(pool), s)
    ensures Get(Row(DigestOf(pgs).byOsd, osd), s) == CountOnOsd(pgs, osd, s)
  {
    if pgs != [] {
      var init, pg := pgs[..|pgs| - 1], pgs[|pgs| - 1];
      DigestIsExact(init, pool, osd, s);
      BumpRowsCounts(DigestOf(init).byOsd, pg.acting, pg.state, osd, s);
    }
  }

  // ---------------------------------------------------------------- sums over a tally

  // The sum of the entries of a tally, each weighted by its state.
  ghost function SumBy(t: Tally, w: string -> nat): nat {
    if t == map[] then 0
    else
      var k :| k in t;
      t[k] * w(k) + SumBy(t - {k}, w)
  }

  lemma {:induction false} SumByAny(t: Tally, k: string, w: string -> nat)
    requires k in t
    ensures SumBy(t, w) == t[k] * w(k) + SumBy(t - {k}, w)
    decreases |t|
  {
    var j :| j in t && SumBy(t, w) == t[j] * w(j) + SumBy(t - {j}, w);
    if j != k {
      SumByAny(t - {j}, k, w);
      SumByAny(t - {k}, j, w);
      assert t - {j} - {k} == t - {k} - {j};
    }
  }

  lemma SumByBump(t: Tally, s: string, w: string -> nat)
    ensures SumBy(Bump(t, s), w) == SumBy(t, w) + w(s)
  {
    var u := Bump(t, s);
    SumByAny(u, s, w);
    assert u - {s} == t - {s};
    if s in t {
      SumByAny(t, s, w);
    } else {
      assert t - {s} == t;
    }
  }

  // The same sum taken over the list of PGs, one PG at a time.
  ghost function DirectSum(pgs: seq<Pg>, pool: Option<PoolId>, w: string -> nat): nat {
    if pgs == [] then 0
    else
      var pg := pgs[|pgs| - 1];
      DirectSum(pgs[..|pgs| - 1], pool, w) + (if InScope(pg, pool) then w(pg.state) else 0)
  }

  // Whatever a reader adds up from the digest is what it would have added up from the PGs.
  lemma {:induction false} DigestSums(pgs: seq<Pg>, pool: PoolId, w: string -> nat)
    ensures SumBy(DigestOf(pgs).all, w) == DirectSum(pgs, None, w)
    ensures SumBy(Row(DigestOf(pgs).byPool, pool), w) == DirectSum(pgs, Some(pool), w)
  {
    if pgs != [] {
      var init, pg := pgs[..|pgs| - 1], pgs[|pgs| - 1];
      DigestSums(init, pool, w);
      SumByBump(DigestOf(init).all, pg.state, w);
      SumByBump(Row(DigestOf(init).byPool, pg.pool), pg.state, w);
    }
  }

  ghost function One(): string -> nat {
    (s: string) => 1
  }

  ghost function ActingPlaces(pgs: seq<Pg>): nat {
    if pgs == [] then 0 else ActingPlaces(pgs[..|pgs| - 1]) + |pgs[|pgs| - 1].acting|
  }

  // Sum of all entries of the rows of some keys.
  ghost function RowsTotal(rows: map<int, Tally>, keys: set<int>): nat {
    if keys == {} then 0
    else
      var k := Pick(keys);
      SumBy(Row(rows, k), One()) + RowsTotal(rows, keys - {k})
  }

  lemma {:induction false} RowsTotalAny(rows: map<int, Tally>, keys: set<int>, k: int)
    requires k in keys
    ensures RowsTotal(rows, keys) == SumBy(Row(rows, k), One()) + RowsTotal(rows, keys - {k})
  {
    var j := Pick(keys);
    if j != k {
      RowsTotalAny(rows, keys - {j}, k);
      RowsTotalAny(rows, keys - {k}, j);
      assert keys - {j} - {k} == keys - {k} - {j};
    }
  }

  lemma {:induction false} RowsTotalFrame(rows: map<int, Tally>, rows': map<int, Tally>, keys: set<int>)
    requires forall k :: k in keys ==> Row(rows, k) == Row(rows', k)
    ensures RowsTotal(rows, keys) == RowsTotal(rows', keys)
  {
    if keys != {} {
      var k := Pick(keys);
      RowsTotalFrame(rows, rows', keys - {k});
      RowsTotalAny(rows, keys, k);
      RowsTotalAny(rows', keys, k);
    }
  }

  ghost function GrandTotal(rows: map<int, Tally>): nat {
    RowsTotal(rows, rows.Keys)
  }

  lemma GrandTotalBump(rows: map<int, Tally>, key: int, s: string)
    ensures GrandTotal(BumpRow(rows, key, s)) == GrandTotal(rows) + 1
  {
    var after := BumpRow(rows, key, s);
    var others := rows.Keys - {key};
    RowsTotalAny(after, after.Keys, key);
    assert after.Keys - {key} == others;
    RowsTotalFrame(rows, after, others);
    SumByBump(Row(rows, key), s, One());
    if key in rows {
      RowsTotalAny(rows, rows.Keys, key);
    } else {
      assert rows.Keys == others;
    }
  }

  lemma {:induction false} GrandTotalBumps(rows: map<int, Tally>, keys: seq<int>, s: string)
    ensures GrandTotal(BumpRows(rows, keys, s)) == GrandTotal(rows) + |keys|
  {
    if keys != [] {
      GrandTotalBumps(rows, keys[..|keys| - 1], s);
      GrandTotalBump(BumpRows(rows, keys[..|keys| - 1], s), keys[|keys| - 1], s);
    }
  }

  // The overall counts add up to the number of PGs, the per-OSD counts to the acting-set lengths.
  lemma {:induction false} DigestTotals(pgs: seq<Pg>)
    ensures SumBy(DigestOf(pgs).all, One()) == |pgs|
    ensures GrandTotal(DigestOf(pgs).byOsd) == ActingPlaces(pgs)
  {
    if pgs != [] {
      var init, pg := pgs[..|pgs| - 1], pgs[|pgs| - 1];
      DigestTotals(init);
      SumByBump(DigestOf(init).all, pg.state, One());
      GrandTotalBumps(DigestOf(init).byOsd, pg.acting, pg.state);
    }
  }

  // ---------------------------------------------------------------- state names

  // The parts of a combined state name, as str.split("+") gives them.
  function Tokens(s: string): (parts: seq<string>)
    ensures parts != []
  {
    if s == "" then [""]
    else if s[0] == '+' then [""] + Tokens(s[1..])
    else
      var rest := Tokens(s[1..]);
      [[s[0]] + rest[0]] + rest[1..]
  }

  function JoinPlus(parts: seq<string>): string
    requires parts != []
  {
    if |parts| == 1 then parts[0] else parts[0] + "+" + JoinPlus(parts[1..])
  }

  // Splitting a state name loses nothing, and no part contains the separator.
  lemma {:induction false} TokensRoundTrip(s: string)
    ensures JoinPlus(Tokens(s)) == s
    ensures forall i :: 0 <= i < |Tokens(s)| ==> '+' !in Tokens(s)[i]
  {
    if s != "" {
      TokensRoundTrip(s[1..]);
      var rest := Tokens(s[1..]);
      if s[0] == '+' {
        assert ([""] + rest)[1..] == rest;
        assert s == "+" + s[1..];
      } else {
        var first := [s[0]] + rest[0];
        assert ([first] + rest[1..])[1..] == rest[1..];
        assert s == [s[0]] + s[1..];
        if |rest| > 1 {
          assert first + "+" + JoinPlus(rest[1..]) == [s[0]] + (rest[0] + "+" + JoinPlus(rest[1..]));
        }
      }
    }
  }

  // A part of a combined name, between separators.
  ghost predicate IsPart(s: string, part: string, i: nat, j: nat) {
    && i <= j <= |s| && s[i..j] == part && '+' !in part
    && (i == 0 || s[i - 1] == '+') && (j == |s| || s[j] == '+')
  }

  ghost predicate HasPart(s: string, part: string) {
    exists i, j :: IsPart(s, part, i, j)
  }

  lemma PartLater(s: string, part: string, i: nat, j: nat)
    requires s != "" && IsPart(s[1..], part, i, j) && (i > 0 || s[0] == '+')
    ensures IsPart(s, part, i + 1, j + 1)
  {
    assert s[1..][i..j] == s[i + 1..j + 1];
  }

  lemma PartEarlier(s: string, part: string, i: nat, j: nat)
    requires s != "" && IsPart(s, part, i, j) && i > 0
    ensures IsPart(s[1..], part, i - 1, j - 1) && (i > 1 || s[0] == '+')
  {
    assert s[1..][i - 1..j - 1] == s[i..j];
  }

  // A first part goes up to the first separator.
  lemma {:induction false} FirstPart(s: string, part: string, j: nat)
    ensures IsPart(s, part, 0, j) ==> Tokens(s)[0] == part
    ensures IsPart(s, Tokens(s)[0], 0, |Tokens(s)[0]|)
  {
    if s != "" && s[0] != '+' {
      if j > 0 && IsPart(s, part, 0, j) {
        assert s[1..][0..j - 1] == s[1..j] && part == [s[0]] + s[1..j];
        FirstPart(s[1..], s[1..j], j - 1);
      } else {
        FirstPart(s[1..], "", 0);
      }
      var rest := Tokens(s[1..])[0];
      assert s[0..|rest| + 1] == [s[0]] + s[1..][0..|rest|];
    }
  }

  // Splitting gives exactly the parts between separators.
  lemma {:induction false} TokensAreParts(s: string, part: string)
    ensures part in Tokens(s) <==> HasPart(s, part)
  {
    FirstPart(s, part, 0);
    if HasPart(s, part) {
      var i, j :| IsPart(s, part, i, j);
      if i == 0 {
        FirstPart(s, part, j);
      } else {
        PartEarlier(s, part, i, j);
        LaterTokens(s, part, i, j);
      }
    }
    if part in Tokens(s) {
      TokenIsPart(s, part);
    }
  }

  lemma {:induction false} LaterTokens(s: string, part: string, i: nat, j: nat)
    requires IsPart(s, part, i, j) && i > 0
    ensures part in Tokens(s)[1..]
  {
    PartEarlier(s, part, i, j);
    if s[0] == '+' {
      assert ([""] + Tokens(s[1..]))[1..] == Tokens(s[1..]);
      if i == 1 {
        FirstPart(s[1..], part, j - 1);
      } else {
        LaterTokens(s[1..], part, i - 1, j - 1);
      }
    } else {
      LaterTokens(s[1..], part, i - 1, j - 1);
    }
  }

  lemma {:induction false} TokenIsPart(s: string, part: string)
    requires part in Tokens(s)
    ensures HasPart(s, part)
    ensures part in Tokens(s)[1..] ==> exists i, j :: i > 0 && IsPart(s, part, i, j)
  {
    FirstPart(s, part, 0);
    if s == "" {
      assert IsPart(s, "", 0, 0);
    } else if s[0] == '+' {
      assert ([""] + Tokens(s[1..]))[1..] == Tokens(s[1..]);
      if part in Tokens(s[1..]) {
        TokenIsPart(s[1..], part);
        var i, j :| IsPart(s[1..], part, i, j);
        PartLater(s, part, i, j);
        assert i + 1 > 0;
      }
    } else {
      var rest := Tokens(s[1..]);
      assert ([[s[0]] + rest[0]] + rest[1..])[1..] == rest[1..];
      if part in rest[1..] {
        TokenIsPart(s[1..], part);
        var i, j :| i > 0 && IsPart(s[1..], part, i, j);
        PartLater(s, part, i, j);
        assert i + 1 > 0;
      }
    }
  }

  predicate Creating(state: string) {
    "creating" in Tokens(state)
  }

  // A PG is being created if that is one of the parts of its state's name.
  lemma CreatingIsPart(state: string)
    ensures Creating(state) <==> HasPart(state, "creating")
  {
    TokensAreParts(state, "creating");
  }

  ghost function NotCreatingWeight(): string -> nat {
    (s: string) => if Creating(s) then 0 else 1
  }

  // PGs of a tally that have left state 'creating'.
  ghost function NotCreating(t: Tally): nat {
    SumBy(t, NotCreatingWeight())
  }

  method CountNotCreating(t: Tally) returns (n: nat)
    ensures n == NotCreating(t)
  {
    n := 0;
    var rest := t;
    while rest != map[]
      invariant n + NotCreating(rest) == NotCreating(t)
      decreases |rest|
    {
      var s :| s in rest;
      SumByAny(rest, s, NotCreatingWeight());
      if !Creating(s) {
        n := n + rest[s];
      }
      rest := rest - {s};
    }
  }

  ghost function NotCreatingPgs(pgs: seq<Pg>, pool: PoolId): nat {
    if pgs == [] then 0
    else
      var pg := pgs[|pgs| - 1];
      NotCreatingPgs(pgs[..|pgs| - 1], pool) + (if pg.pool == pool && !Creating(pg.state) then 1 else 0)
  }

  // What creation progress reads off the digest is the number of PGs of the pool out of 'creating'.
  lemma NotCreatingIsExact(pgs: seq<Pg>, pool: PoolId)
    ensures NotCreating(Row(DigestOf(pgs).byPool, pool)) == NotCreatingPgs(pgs, pool)
  {
    DigestSums(pgs, pool, NotCreatingWeight());
    NotCreatingDirect(pgs, pool);
  }

  lemma {:induction false} NotCreatingDirect(pgs: seq<Pg>, pool: PoolId)
    ensures DirectSum(pgs, Some(pool), NotCreatingWeight()) == NotCreatingPgs(pgs, pool)
  {
    if pgs != [] {
      NotCreatingDirect(pgs[..|pgs| - 1], pool);
    }
  }
}
