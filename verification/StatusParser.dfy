// The parser of the indented text in which the iSCSI daemon reports its status.
module StatusParser {

  // ---------------------------------------------------------------- strings

  // Python's white space in a byte string.
  predicate IsSpace(c: char) {
    c == ' ' || '\t' <= c <= '\r'
  }

  function Lstrip(s: string): string {
    if s != "" && IsSpace(s[0]) then Lstrip(s[1..]) else s
  }

  function Rstrip(s: string): string {
    if s != "" && IsSpace(s[|s| - 1]) then Rstrip(s[..|s| - 1]) else s
  }

  function Strip(s: string): string {
    Rstrip(Lstrip(s))
  }

  // Nothing but white space.
  predicate IsBlank(s: string) {
    forall i :: 0 <= i < |s| ==> IsSpace(s[i])
  }

  // White space neither first nor last.
  predicate IsTrim(s: string) {
    s != "" ==> !IsSpace(s[0]) && !IsSpace(s[|s| - 1])
  }

  lemma {:induction false} LstripIs(s: string) returns (before: string)
    ensures s == before + Lstrip(s) && IsBlank(before)
    ensures Lstrip(s) != "" ==> !IsSpace(Lstrip(s)[0])
  {
    if s != "" && IsSpace(s[0]) {
      var rest := LstripIs(s[1..]);
      before := [s[0]] + rest;
    } else {
      before := "";
    }
  }

  lemma {:induction false} RstripIs(s: string) returns (after: string)
    ensures s == Rstrip(s) + after && IsBlank(after)
    ensures Rstrip(s) != "" ==> !IsSpace(Rstrip(s)[|Rstrip(s)| - 1]) && Rstrip(s)[0] == s[0]
  {
    if s != "" && IsSpace(s[|s| - 1]) {
      var rest := RstripIs(s[..|s| - 1]);
      after := rest + [s[|s| - 1]];
    } else {
      after := "";
      assert s + "" == s;
    }
  }

  // Stripping takes off the white space on both sides, and nothing else.
  lemma StripIs(s: string) returns (before: string, after: string)
    ensures s == before + Strip(s) + after && IsBlank(before) && IsBlank(after) && IsTrim(Strip(s))
  {
    before := LstripIs(s);
    after := RstripIs(Lstrip(s));
  }

  // Where one string first occurs in another.
  function Index(s: string, sub: string): nat {
    if s == "" || sub <= s then 0 else 1 + Index(s[1..], sub)
  }

  function LeadingSpaceNum(line: string): nat {
    Index(line, Lstrip(line))
  }

  function SpacesBefore(line: string): (n: nat)
    ensures n <= |line|
  {
    if line != "" && IsSpace(line[0]) then 1 + SpacesBefore(line[1..]) else 0
  }

  lemma {:induction false} StripDropsSpaces(line: string)
    ensures Lstrip(line) == line[SpacesBefore(line)..]
    ensures Lstrip(line) != "" ==> !IsSpace(Lstrip(line)[0])
  {
    if line != "" && IsSpace(line[0]) {
      StripDropsSpaces(line[1..]);
    }
  }

  // The number of spaces before the text, except that a line without text counts as not indented.
  lemma {:induction false} LeadingSpaces(line: string)
    ensures LeadingSpaceNum(line) == if Lstrip(line) == "" then 0 else SpacesBefore(line)
  {
    StripDropsSpaces(line);
    if line != "" && IsSpace(line[0]) && Lstrip(line) != "" {
      assert Lstrip(line) == Lstrip(line[1..]);
      LeadingSpaces(line[1..]);
    }
  }

  // The parts of a line before and after its first colon.
  datatype Partition = Partition(before: string, found: bool, after: string)

  function PartitionAtColon(line: string): Partition {
    if line == "" then Partition("", false, "")
    else if line[0] == ':' then Partition("", true, line[1..])
    else
      var rest := PartitionAtColon(line[1..]);
      Partition([line[0]] + rest.before, rest.found, rest.after)
  }

  lemma {:induction false} PartitionIsExact(line: string)
    ensures var p := PartitionAtColon(line);
            && ':' !in p.before
            && (p.found <==> ':' in line)
            && line == p.before + (if p.found then ":" else "") + p.after
  {
    if line != "" && line[0] != ':' {
      PartitionIsExact(line[1..]);
      assert line == [line[0]] + line[1..];
    }
  }

  // ---------------------------------------------------------------- what the parser builds

  // An object has a value of its own, and objects under keys; more than one make a list.
  datatype Object = Object(value: string, entries: seq<Entry>)

  datatype Entry = Entry(key: string, objects: seq<Object>)

  // The keys from the top down to an object, and its value.
  type Trail = (seq<string>, string)

  // The trails of all objects below one, to any depth; `above` are the keys down to it.
  function Trails(obj: Object, above: seq<string>): multiset<Trail>
    decreases obj
  {
    EntryTrails(obj.entries, above)
  }

  function EntryTrails(entries: seq<Entry>, above: seq<string>): multiset<Trail>
    decreases entries
  {
    if entries == [] then multiset{}
    else
      var last := entries[|entries| - 1];
      EntryTrails(entries[..|entries| - 1], above) + ObjectTrails(last.objects, above + [last.key])
  }

  function ObjectTrails(objects: seq<Object>, keys: seq<string>): multiset<Trail>
    decreases objects
  {
    if objects == [] then multiset{}
    else
      var last := objects[|objects| - 1];
      ObjectTrails(objects[..|objects| - 1], keys) + multiset{(keys, last.value)} + Trails(last, keys)
  }

  // ---------------------------------------------------------------- which line is under which

  // An open block of lines: its indentation, and the keys of the lines that it is under.
  datatype Block = Block(leading: nat, keys: seq<string>)

  function Key(line: string): string {
    Strip(PartitionAtColon(line).before)
  }

  function Value(line: string): string {
    Strip(PartitionAtColon(line).after)
  }

  // A line with a colon is its key, a colon and its value, with white space around each of the two; the
  // key has no colon in it.
  lemma LineIsKeyAndValue(line: string) returns (a: string, b: string, c: string, d: string)
    requires PartitionAtColon(line).found
    ensures line == (a + Key(line) + b) + ":" + (c + Value(line) + d) && ':' !in Key(line)
    ensures IsBlank(a) && IsBlank(b) && IsBlank(c) && IsBlank(d) && IsTrim(Key(line)) && IsTrim(Value(line))
  {
    var p := PartitionAtColon(line);
    PartitionIsExact(line);
    a, b := StripIs(p.before);
    c, d := StripIs(p.after);
    assert forall x :: x in Key(line) ==> x in a + Key(line) + b;
  }

  // Blocks that are indented more than a line end before it, except for the outermost.
  function Close(blocks: seq<Block>, leading: nat): (left: seq<Block>)
    requires blocks != []
    ensures 0 < |left| <= |blocks| && left == blocks[..|left|]
  {
    if |blocks| > 1 && blocks[|blocks| - 1].leading > leading then Close(blocks[..|blocks| - 1], leading) else blocks
  }

  // From one line to the next: a line that follows one with a colon, and is indented more than the
  // innermost block, starts a block under it.
  function Advance(blocks: seq<Block>, before: string, line: string): (left: seq<Block>)
    requires blocks != []
    ensures left != [] && left[0] == blocks[0]
  {
    var inner := blocks[|blocks| - 1];
    if PartitionAtColon(before).found && LeadingSpaceNum(line) > inner.leading
    then blocks + [Block(LeadingSpaceNum(line), inner.keys + [Key(before)])]
    else Close(blocks, LeadingSpaceNum(line))
  }

  // The blocks that are open at a line.
  function BlocksAt(lines: seq<string>, above: seq<string>, k: nat): (blocks: seq<Block>)
    requires k < |lines|
    ensures blocks != [] && blocks[0] == Block(LeadingSpaceNum(lines[0]), above)
  {
    if k == 0 then [Block(LeadingSpaceNum(lines[0]), above)]
    else Advance(BlocksAt(lines, above, k - 1), lines[k - 1], lines[k])
  }

  // A line with a colon makes an object under the line that its innermost block is under.
  function TrailOf(lines: seq<string>, above: seq<string>, k: nat): Trail
    requires k < |lines|
  {
    var blocks := BlocksAt(lines, above, k);
    (blocks[|blocks| - 1].keys + [Key(lines[k])], Value(lines[k]))
  }

  function OneTrail(lines: seq<string>, above: seq<string>, k: nat): multiset<Trail>
    requires k < |lines|
  {
    if PartitionAtColon(lines[k]).found then multiset{TrailOf(lines, above, k)} else multiset{}
  }

  // The trails that the lines with a colon make, from one line up to another.
  function LineTrails(lines: seq<string>, above: seq<string>, from: nat, to: nat): multiset<Trail>
    requires from <= to <= |lines|
  {
    if from == to then multiset{} else LineTrails(lines, above, from, to - 1) + OneTrail(lines, above, to - 1)
  }

  // How many lines have a colon.
  function Colons(lines: seq<string>): nat {
    if lines == [] then 0 else Colons(lines[..|lines| - 1]) + (if ':' in lines[|lines| - 1] then 1 else 0)
  }

  // Just these make an object each.
  lemma {:induction false} LinesWithColon(lines: seq<string>, above: seq<string>, n: nat)
    requires n <= |lines|
    ensures |LineTrails(lines, above, 0, n)| == Colons(lines[..n])
  {
    hide TrailOf, PartitionAtColon;
    if n > 0 {
      LinesWithColon(lines, above, n - 1);
      PartitionIsExact(lines[n - 1]);
      assert lines[..n][..n - 1] == lines[..n - 1];
    }
  }

  // ---------------------------------------------------------------- dictionaries

  function Put(entries: seq<Entry>, key: string, obj: Object): seq<Entry> {
    if entries == [] then [Entry(key, [obj])]
    else
      var init, last := entries[..|entries| - 1], entries[|entries| - 1];
      if last.key == key then init + [Entry(key, last.objects + [obj])]
      else Put(init, key, obj) + [last]
  }

  lemma {:induction false} PutAddsOne(entries: seq<Entry>, key: string, obj: Object, above: seq<string>)
    ensures EntryTrails(Put(entries, key, obj), above)
         == EntryTrails(entries, above) + multiset{(above + [key], obj.value)} + Trails(obj, above + [key])
  {
    if entries == [] {
      var e := Entry(key, [obj]);
      assert [e][..0] == [] && [obj][..0] == [];
      assert ObjectTrails([obj], above + [key])
          == ObjectTrails([], above + [key]) + multiset{(above + [key], obj.value)} + Trails(obj, above + [key]);
    } else {
      var init, last := entries[..|entries| - 1], entries[|entries| - 1];
      if last.key == key {
        var e := Entry(key, last.objects + [obj]);
        assert (init + [e])[..|init|] == init;
        assert (last.objects + [obj])[..|last.objects|] == last.objects;
      } else {
        PutAddsOne(init, key, obj, above);
        var put := Put(init, key, obj);
        assert (put + [last])[..|put|] == put;
      }
    }
  }

  // The objects under a key.
  function ObjectsOf(entries: seq<Entry>, key: string): seq<Object> {
    if entries == [] then []
    else
      var last := entries[|entries| - 1];
      if last.key == key then last.objects else ObjectsOf(entries[..|entries| - 1], key)
  }

  // A new object comes last of those under its key; those under other keys stay.
  lemma {:induction false} PutIsLast(entries: seq<Entry>, key: string, obj: Object, k: string)
    ensures ObjectsOf(Put(entries, key, obj), k) == ObjectsOf(entries, k) + (if k == key then [obj] else [])
  {
    if entries == [] {
      assert [Entry(key, [obj])][..0] == [];
    } else {
      var init, last := entries[..|entries| - 1], entries[|entries| - 1];
      if last.key == key {
        assert (init + [Entry(key, last.objects + [obj])])[..|init|] == init;
      } else {
        PutIsLast(init, key, obj, k);
        var put := Put(init, key, obj);
        assert (put + [last])[..|put|] == put;
      }
    }
  }

  // ---------------------------------------------------------------- the parser

  function Leading(lines: seq<string>): nat {
    if lines == [] then 0 else LeadingSpaceNum(lines[0])
  }

  // The longest prefix of lines that are indented at least as much as the first.
  predicate IsExtent(lines: seq<string>, n: nat) {
    && Indented(lines, 0, n, Leading(lines))
    && (n < |lines| ==> LeadingSpaceNum(lines[n]) < Leading(lines))
  }

  lemma {:induction false} LineTrailsJoin(lines: seq<string>, above: seq<string>, from: nat, mid: nat, to: nat)
    requires from <= mid <= to <= |lines|
    ensures LineTrails(lines, above, from, to)
         == LineTrails(lines, above, from, mid) + LineTrails(lines, above, mid, to)
  {
    if mid < to {
      LineTrailsJoin(lines, above, from, mid, to - 1);
    }
  }

  predicate Indented(lines: seq<string>, from: nat, to: nat, leading: nat) {
    from <= to <= |lines| && forall k :: from <= k < to ==> LeadingSpaceNum(lines[k]) >= leading
  }

  // ---------------------------------------------------------------- a block within another

  lemma {:induction false} CloseInner(outer: Block, blocks: seq<Block>, leading: nat)
    requires blocks != [] && blocks[0].leading <= leading
    ensures Close([outer] + blocks, leading) == [outer] + Close(blocks, leading)
  {
    if |blocks| > 1 && blocks[|blocks| - 1].leading > leading {
      CloseInner(outer, blocks[..|blocks| - 1], leading);
      assert ([outer] + blocks)[..|blocks|] == [outer] + blocks[..|blocks| - 1];
    }
  }

  lemma {:induction false} CloseAll(outer: Block, blocks: seq<Block>, leading: nat)
    requires forall i :: 0 <= i < |blocks| ==> blocks[i].leading > leading
    ensures Close([outer] + blocks, leading) == [outer]
  {
    if blocks != [] {
      CloseAll(outer, blocks[..|blocks| - 1], leading);
      assert ([outer] + blocks)[..|blocks|] == [outer] + blocks[..|blocks| - 1];
    } else {
      assert [outer] + blocks == [outer];
    }
  }

  // No block is indented less.
  predicate AtLeast(blocks: seq<Block>, leading: nat) {
    forall i :: 0 <= i < |blocks| ==> blocks[i].leading >= leading
  }

  lemma AdvanceInner(outer: Block, blocks: seq<Block>, before: string, line: string, leading: nat)
    requires blocks != [] && blocks[0].leading == leading <= LeadingSpaceNum(line) && AtLeast(blocks, leading)
    ensures Advance([outer] + blocks, before, line) == [outer] + Advance(blocks, before, line)
    ensures AtLeast(Advance(blocks, before, line), leading)
  {
    hide LeadingSpaceNum, PartitionAtColon, Key;
    CloseInner(outer, blocks, LeadingSpaceNum(line));
    var inner := blocks[|blocks| - 1];
    var more := [Block(LeadingSpaceNum(line), inner.keys + [Key(before)])];
    assert [outer] + blocks + more == [outer] + (blocks + more);
  }

  // A line with a colon, and a block of lines under it.
  predicate Nested(lines: seq<string>, above: seq<string>, n: nat, m: nat) {
    && 0 < n <= n + m <= |lines| && PartitionAtColon(lines[n - 1]).found
    && BlocksAt(lines, above, n - 1) == [Block(Leading(lines), above)]
    && n < |lines| && LeadingSpaceNum(lines[n]) > Leading(lines) && IsExtent(lines[n..], m)
  }

  // In such a block, the blocks that are open are the outer one, and those that would be open if the
  // inner block were all there is.
  lemma {:induction false} BlocksBelow(lines: seq<string>, above: seq<string>, n: nat, m: nat, j: nat)
    requires Nested(lines, above, n, m) && j < m
    ensures var inner := BlocksAt(lines[n..], above + [Key(lines[n - 1])], j);
            && BlocksAt(lines, above, n + j) == [Block(Leading(lines), above)] + inner
            && AtLeast(inner, LeadingSpaceNum(lines[n]))
  {
    hide LeadingSpaceNum, PartitionAtColon, Key, AtLeast;
    var outer := Block(Leading(lines), above);
    assert lines[n..][0] == lines[n] && lines[n..][j] == lines[n + j];
    if j > 0 {
      BlocksBelow(lines, above, n, m, j - 1);
      var inner := BlocksAt(lines[n..], above + [Key(lines[n - 1])], j - 1);
      assert lines[n..][j - 1] == lines[n + j - 1];
      AdvanceInner(outer, inner, lines[n + j - 1], lines[n + j], LeadingSpaceNum(lines[n]));
    } else {
      StartsBlock(outer, lines[n - 1], lines[n]);
    }
  }

  lemma StartsBlock(outer: Block, before: string, line: string)
    requires PartitionAtColon(before).found && LeadingSpaceNum(line) > outer.leading
    ensures var inner := [Block(LeadingSpaceNum(line), outer.keys + [Key(before)])];
            Advance([outer], before, line) == [outer] + inner && AtLeast(inner, LeadingSpaceNum(line))
  {
  }

  // A line that is indented less ends them all but the outer one.
  lemma AdvanceOut(outer: Block, inner: seq<Block>, before: string, line: string, leading: nat)
    requires inner != [] && AtLeast(inner, leading) && LeadingSpaceNum(line) < leading
    ensures Advance([outer] + inner, before, line) == [outer]
  {
    hide LeadingSpaceNum, PartitionAtColon, Key;
    CloseAll(outer, inner, LeadingSpaceNum(line));
  }

  // After it, only the outer one is open.
  lemma BlocksAfter(lines: seq<string>, above: seq<string>, n: nat, m: nat)
    requires Nested(lines, above, n, m) && n + m < |lines|
    ensures BlocksAt(lines, above, n + m) == [Block(Leading(lines), above)]
  {
    hide LeadingSpaceNum, PartitionAtColon, Key, Advance, AtLeast, Close;
    assert lines[n..][0] == lines[n] && lines[n..][m] == lines[n + m];
    BlocksBelow(lines, above, n, m, m - 1);
    var inner := BlocksAt(lines[n..], above + [Key(lines[n - 1])], m - 1);
    AdvanceOut(Block(Leading(lines), above), inner, lines[n + m - 1], lines[n + m], LeadingSpaceNum(lines[n]));
  }

  lemma {:induction false} TrailsBelow(lines: seq<string>, above: seq<string>, n: nat, m: nat, j: nat)
    requires Nested(lines, above, n, m) && j <= m
    ensures LineTrails(lines[n..], above + [Key(lines[n - 1])], 0, j) == LineTrails(lines, above, n, n + j)
    ensures Indented(lines, n, n + j, Leading(lines))
  {
    hide LeadingSpaceNum, Key, OneTrail, BlocksAt, IsExtent;
    if j > 0 {
      TrailsBelow(lines, above, n, m, j - 1);
      TrailBelow(lines, above, n, m, j - 1);
    }
  }

  lemma TrailBelow(lines: seq<string>, above: seq<string>, n: nat, m: nat, j: nat)
    requires Nested(lines, above, n, m) && j < m
    ensures OneTrail(lines[n..], above + [Key(lines[n - 1])], j) == OneTrail(lines, above, n + j)
    ensures LeadingSpaceNum(lines[n + j]) >= Leading(lines)
  {
    hide LeadingSpaceNum, PartitionAtColon, Strip, BlocksAt;
    BlocksBelow(lines, above, n, m, j);
    assert lines[n..][j] == lines[n + j] && lines[n..][0] == lines[n];
  }

  // ---------------------------------------------------------------- the parser itself

  // At a line that belongs to the parser's own block, no other block is open.
  predicate AtOwnLine(lines: seq<string>, above: seq<string>, n: nat) {
    n < |lines| && LeadingSpaceNum(lines[n]) >= Leading(lines) ==>
      BlocksAt(lines, above, n) == [Block(Leading(lines), above)]
  }

  lemma OwnFirst(lines: seq<string>, above: seq<string>)
    ensures AtOwnLine(lines, above, 0)
  {
  }

  // Without a block under it, the next line is the parser's own, too.
  lemma OwnNext(lines: seq<string>, above: seq<string>, n: nat)
    requires n < |lines| && LeadingSpaceNum(lines[n]) >= Leading(lines) && AtOwnLine(lines, above, n)
    requires !PartitionAtColon(lines[n]).found || n + 1 == |lines| || LeadingSpaceNum(lines[n + 1]) <= Leading(lines)
    ensures AtOwnLine(lines, above, n + 1)
  {
    hide LeadingSpaceNum, PartitionAtColon, Key;
  }

  lemma OwnAfter(lines: seq<string>, above: seq<string>, n: nat, m: nat)
    requires Nested(lines, above, n, m)
    ensures AtOwnLine(lines, above, n + m)
  {
    if n + m < |lines| {
      BlocksAfter(lines, above, n, m);
    }
  }

  lemma FirstTrail(lines: seq<string>, above: seq<string>, n: nat)
    requires n < |lines| && PartitionAtColon(lines[n]).found
    requires LeadingSpaceNum(lines[n]) >= Leading(lines) && AtOwnLine(lines, above, n)
    ensures LineTrails(lines, above, n, n + 1) == multiset{(above + [Key(lines[n])], Value(lines[n]))}
    ensures BlocksAt(lines, above, n) == [Block(Leading(lines), above)]
  {
    hide LeadingSpaceNum, PartitionAtColon, Key, Value;
    assert LineTrails(lines, above, n, n + 1) == LineTrails(lines, above, n, n) + OneTrail(lines, above, n);
  }

  // A line with a colon, and the lines below it that are indented more.
  method ParseEntry(lines: seq<string>, n: nat, leading: nat, ghost above: seq<string>)
    returns (next: nat, key: string, inner: Object)
    requires n < |lines| && PartitionAtColon(lines[n]).found
    requires leading == Leading(lines) && LeadingSpaceNum(lines[n]) >= leading && AtOwnLine(lines, above, n)
    ensures n < next && Indented(lines, n + 1, next, leading) && AtOwnLine(lines, above, next)
    ensures LineTrails(lines, above, n, next)
         == multiset{(above + [key], inner.value)} + Trails(inner, above + [key])
    decreases |lines|, 0
  {
    hide LeadingSpaceNum, PartitionAtColon, Strip, BlocksAt, AtOwnLine;
    FirstTrail(lines, above, n);
    var p := PartitionAtColon(lines[n]);
    key := Strip(p.before);
    var value := Strip(p.after);
    next := n + 1;
    if next < |lines| && LeadingSpaceNum(lines[next]) > leading {
      var parsed;
      parsed, inner := ParseLines(lines[next..], value, above + [key]);
      TrailsBelow(lines, above, next, parsed, parsed);
      LineTrailsJoin(lines, above, n, next, next + parsed);
      OwnAfter(lines, above, next, parsed);
      next := next + parsed;
    } else {
      OwnNext(lines, above, n);
      inner := Object(value, []);
    }
  }

  // The parser takes exactly the lines of its own indentation or more, and builds one object for
  // each of them that has a colon, with that line's key and value, below the object of the line that
  // its block is under. `above` are the keys down to the object that is built.
  method ParseLines(lines: seq<string>, value: string, ghost above: seq<string>) returns (n: nat, obj: Object)
    ensures IsExtent(lines, n)
    ensures obj.value == value && Trails(obj, above) == LineTrails(lines, above, 0, n)
    decreases |lines|, 1
  {
    hide LeadingSpaceNum, PartitionAtColon, Strip, AtOwnLine, Put;
    OwnFirst(lines, above);
    var entries: seq<Entry> := [];
    var leading := if |lines| > 0 then LeadingSpaceNum(lines[0]) else 0;
    n := 0;
    while n < |lines|
      invariant Indented(lines, 0, n, leading) && AtOwnLine(lines, above, n)
      invariant EntryTrails(entries, above) == LineTrails(lines, above, 0, n)
    {
      if LeadingSpaceNum(lines[n]) < leading {
        break;
      }
      if !PartitionAtColon(lines[n]).found {
        OwnNext(lines, above, n);
        n := n + 1;
        continue;
      }
      var start, key, inner := n, "", Object("", []);
      n, key, inner := ParseEntry(lines, start, leading, above);
      LineTrailsJoin(lines, above, 0, start, n);
      PutAddsOne(entries, key, inner, above);
      entries := Put(entries, key, inner);
    }
    obj := Object(value, entries);
  }

  // The parser always gets on: a first line is always taken.
  lemma ExtentIsUnique(lines: seq<string>, n: nat, m: nat)
    requires IsExtent(lines, n) && IsExtent(lines, m)
    ensures n == m && (lines != [] ==> n > 0)
  {
  }
}
