/**
 * `getChannelsByGroup`, `getUniqueGroups` and `filterChannelsByGroup` of
 * lib/m3u8-parser.ts. A channel's group is its `groupTitle`, or
 * `"Ungrouped"` when that is missing or empty.
 */
module Groups {
  import opened Wrappers
  import opened Types
  import opened Generator

  const Ungrouped := "Ungrouped"

  /** `channel.groupTitle || "Ungrouped"`. */
  function GroupOf(c: Channel): string {
    if NonEmpty(c.info.groupTitle).Some? then c.info.groupTitle.value else Ungrouped
  }

  // ----- getChannelsByGroup -----

  /** The channels of group `g`, in their order. */
  function ChannelsIn(chs: seq<Channel>, g: string): seq<Channel>
    decreases |chs|
  {
    if chs == [] then []
    else ChannelsIn(chs[..|chs| - 1], g) + (if GroupOf(chs[|chs| - 1]) == g then [chs[|chs| - 1]] else [])
  }

  /** Everything `ChannelsIn` keeps is a channel of the list, of the group. */
  lemma {:induction false} ChannelsInSound(chs: seq<Channel>, g: string)
    ensures forall k | 0 <= k < |ChannelsIn(chs, g)| :: GroupOf(ChannelsIn(chs, g)[k]) == g && ChannelsIn(chs, g)[k] in chs
    decreases |chs|
  {
    if chs != [] {
      var init := chs[..|chs| - 1];
      var last := chs[|chs| - 1];
      ChannelsInSound(init, g);
      var r := ChannelsIn(chs, g);
      var prev := ChannelsIn(init, g);
      forall k | 0 <= k < |r| ensures GroupOf(r[k]) == g && r[k] in chs {
        if k < |prev| {
          assert r[k] == prev[k];
          assert prev[k] in init;
        }
      }
    }
  }

  /** `ChannelsIn` keeps every channel of the group. */
  lemma {:induction false} ChannelsInComplete(chs: seq<Channel>, g: string)
    ensures forall k | 0 <= k < |chs| :: GroupOf(chs[k]) == g ==> chs[k] in ChannelsIn(chs, g)
    decreases |chs|
  {
    if chs != [] {
      var init := chs[..|chs| - 1];
      ChannelsInComplete(init, g);
      var r := ChannelsIn(chs, g);
      var prev := ChannelsIn(init, g);
      assert r == prev + (if GroupOf(chs[|chs| - 1]) == g then [chs[|chs| - 1]] else []);
      forall k | 0 <= k < |init| && GroupOf(chs[k]) == g ensures chs[k] in r {
        assert chs[k] == init[k];
      }
    }
  }

  /** A group has channels exactly when some channel belongs to it. */
  lemma ChannelsInEmpty(chs: seq<Channel>, g: string)
    ensures ChannelsIn(chs, g) == [] <==> forall k | 0 <= k < |chs| :: GroupOf(chs[k]) != g
  {
    ChannelsInSound(chs, g);
    ChannelsInComplete(chs, g);
    if ChannelsIn(chs, g) != [] {
      var c := ChannelsIn(chs, g)[0];
      var k :| 0 <= k < |chs| && chs[k] == c;
    }
  }

  /** The record `getChannelsByGroup` builds, as a map from group to its channels. */
  function GroupMap(chs: seq<Channel>): map<string, seq<Channel>>
    decreases |chs|
  {
    if chs == [] then map[]
    else
      var m := GroupMap(chs[..|chs| - 1]);
      var c := chs[|chs| - 1];
      var g := GroupOf(c);
      m[g := (if g in m then m[g] else []) + [c]]
  }

  /** A partition: the groups are those of the channels, and each maps to its channels in order. */
  lemma {:induction false} GroupMapBuckets(chs: seq<Channel>)
    ensures forall g :: g in GroupMap(chs) <==> ChannelsIn(chs, g) != []
    ensures forall g | g in GroupMap(chs) :: GroupMap(chs)[g] == ChannelsIn(chs, g)
    decreases |chs|
  {
    if chs != [] {
      GroupMapBuckets(chs[..|chs| - 1]);
    }
  }

  /** `getChannelsByGroup`: the `reduce` over the channels, pushing each into its group's list. */
  method ChannelsByGroup(chs: seq<Channel>) returns (groups: map<string, seq<Channel>>)
    ensures groups == GroupMap(chs)
  {
    groups := map[];
    for i := 0 to |chs|
      invariant groups == GroupMap(chs[..i])
    {
      var g := GroupOf(chs[i]);
      if g !in groups {
        groups := groups[g := []];
      }
      groups := groups[g := groups[g] + [chs[i]]];
      assert chs[..i + 1][..i] == chs[..i];
    }
    assert chs[..|chs|] == chs;
  }

  /**
   * The names a plain object `{}` inherits from `Object.prototype`. For
   * each, `acc[group]` is already truthy (a function, or the prototype
   * itself for `__proto__`), so no list is created, and `.push` is not a
   * function of it.
   */
  const InheritedNames: set<string> := {
    "constructor", "__proto__", "hasOwnProperty", "isPrototypeOf", "propertyIsEnumerable",
    "toLocaleString", "toString", "valueOf",
    "__defineGetter__", "__defineSetter__", "__lookupGetter__", "__lookupSetter__" }

  /** `getChannelsByGroup` as written, on a plain object: `None` is the `TypeError` thrown at the first inherited name. */
  function GroupsOnObject(chs: seq<Channel>): Option<map<string, seq<Channel>>>
    decreases |chs|
  {
    if chs == [] then Some(map[])
    else
      var prev := GroupsOnObject(chs[..|chs| - 1]);
      var c := chs[|chs| - 1];
      var g := GroupOf(c);
      if prev.None? || g in InheritedNames then None
      else Some(prev.value[g := (if g in prev.value then prev.value[g] else []) + [c]])
  }

  /** As written, the grouping fails exactly when some channel's group is an inherited name, and is `GroupMap` otherwise. */
  lemma {:induction false} GroupsOnObjectFails(chs: seq<Channel>)
    ensures GroupsOnObject(chs).None? <==> exists k | 0 <= k < |chs| :: GroupOf(chs[k]) in InheritedNames
    ensures GroupsOnObject(chs).Some? ==> GroupsOnObject(chs).value == GroupMap(chs)
    decreases |chs|
  {
    if chs != [] {
      var init := chs[..|chs| - 1];
      GroupsOnObjectFails(init);
      if exists k | 0 <= k < |init| :: GroupOf(init[k]) in InheritedNames {
        var k :| 0 <= k < |init| && GroupOf(init[k]) in InheritedNames;
        assert chs[k] == init[k];
      }
      if exists k | 0 <= k < |chs| :: GroupOf(chs[k]) in InheritedNames {
        var k :| 0 <= k < |chs| && GroupOf(chs[k]) in InheritedNames;
        if k < |init| {
          assert init[k] == chs[k];
        }
      }
    }
  }

  /** A single channel in the group `constructor` makes the grouping as written throw. */
  lemma ConstructorGroupThrows()
    ensures var c := Channel("1", ChannelInfo("News", "http://example.com/live", None, None, Some("constructor"), None, None, None, None, None));
      GroupsOnObject([c]).None? && GroupMap([c]) == map["constructor" := [c]]
  {
    var c := Channel("1", ChannelInfo("News", "http://example.com/live", None, None, Some("constructor"), None, None, None, None, None));
    assert GroupOf(c) == "constructor";
    assert [c][..0] == [];
    assert "constructor" in InheritedNames;
    assert GroupMap([c]) == map[][GroupOf(c) := [] + [c]];
    assert [] + [c] == [c];
  }

  // ----- getUniqueGroups -----

  /** The UTF-16 code units of one character, which is what `Array.prototype.sort` compares. */
  function Utf16(c: char): seq<int> {
    var cp := c as int;
    if cp < 0x1_0000 then [cp] else [0xD800 + (cp - 0x1_0000) / 0x400, 0xDC00 + (cp - 0x1_0000) % 0x400]
  }

  function CodeUnits(s: string): seq<int>
    decreases |s|
  {
    if s == [] then [] else Utf16(s[0]) + CodeUnits(s[1..])
  }

  /** Lexicographic order on code-unit sequences; a proper prefix comes first. */
  predicate LexLess(a: seq<int>, b: seq<int>)
    decreases |a|
  {
    b != [] && (a == [] || a[0] < b[0] || (a[0] == b[0] && LexLess(a[1..], b[1..])))
  }

  /** The comparison of the default sort: by UTF-16 code units. */
  predicate Before(a: string, b: string) {
    LexLess(CodeUnits(a), CodeUnits(b))
  }

  lemma {:induction false} LexIrreflexive(a: seq<int>)
    ensures !LexLess(a, a)
    decreases |a|
  {
    if a != [] {
      LexIrreflexive(a[1..]);
    }
  }

  lemma {:induction false} LexTransitive(a: seq<int>, b: seq<int>, c: seq<int>)
    requires LexLess(a, b) && LexLess(b, c)
    ensures LexLess(a, c)
    decreases |a|
  {
    if a != [] && a[0] == b[0] && b[0] == c[0] {
      LexTransitive(a[1..], b[1..], c[1..]);
    }
  }

  lemma {:induction false} LexTotal(a: seq<int>, b: seq<int>)
    requires a != b
    ensures LexLess(a, b) || LexLess(b, a)
    decreases |a|
  {
    if a != [] && b != [] && a[0] == b[0] {
      assert a == [a[0]] + a[1..] && b == [b[0]] + b[1..];
      LexTotal(a[1..], b[1..]);
    }
  }

  lemma Utf16Injective(x: char, y: char)
    requires Utf16(x)[0] == Utf16(y)[0]
    ensures |Utf16(x)| == |Utf16(y)|
    ensures |Utf16(x)| == 2 && Utf16(x)[1] == Utf16(y)[1] ==> x == y
    ensures |Utf16(x)| == 1 ==> x == y
  {
  }

  lemma CodeUnitsSplit(s: string)
    requires s != []
    ensures CodeUnits(s)[..|Utf16(s[0])|] == Utf16(s[0]) && CodeUnits(s)[|Utf16(s[0])|..] == CodeUnits(s[1..])
  {
  }

  /** Different strings have different code units, so `Before` orders any two different strings. */
  lemma {:induction false} CodeUnitsInjective(a: string, b: string)
    requires CodeUnits(a) == CodeUnits(b)
    ensures a == b
    decreases |a|
  {
    if a != [] && b != [] {
      var u := CodeUnits(a);
      CodeUnitsSplit(a);
      CodeUnitsSplit(b);
      assert Utf16(a[0])[0] == u[0] == Utf16(b[0])[0];
      Utf16Injective(a[0], b[0]);
      var n := |Utf16(a[0])|;
      if n == 2 {
        assert Utf16(a[0])[1] == u[1] == Utf16(b[0])[1];
      }
      assert a[0] == b[0];
      CodeUnitsInjective(a[1..], b[1..]);
      assert a == [a[0]] + a[1..] && b == [b[0]] + b[1..];
    }
  }

  /** `Before` is a strict total order on strings. */
  lemma BeforeTotal(a: string, b: string)
    requires a != b
    ensures Before(a, b) || Before(b, a)
  {
    if CodeUnits(a) == CodeUnits(b) {
      CodeUnitsInjective(a, b);
    }
    LexTotal(CodeUnits(a), CodeUnits(b));
  }

  predicate Sorted(s: seq<string>) {
    forall i, j | 0 <= i < j < |s| :: Before(s[i], s[j])
  }

  /** Strictly sorted strings are all different. */
  lemma SortedDistinct(s: seq<string>)
    requires Sorted(s)
    ensures forall i, j | 0 <= i < j < |s| :: s[i] != s[j]
  {
    forall i, j | 0 <= i < j < |s| ensures s[i] != s[j] {
      LexIrreflexive(CodeUnits(s[i]));
    }
  }

  /** Inserting into a sorted list of distinct strings, unless the string is there already. */
  function Insert(x: string, s: seq<string>): seq<string>
    decreases |s|
  {
    if s == [] then [x]
    else if x == s[0] then s
    else if Before(x, s[0]) then [x] + s
    else [s[0]] + Insert(x, s[1..])
  }

  lemma {:induction false} InsertSound(x: string, s: seq<string>)
    requires Sorted(s)
    ensures Sorted(Insert(x, s))
    ensures forall y :: y in Insert(x, s) <==> y == x || y in s
    decreases |s|
  {
    if s != [] && x != s[0] && !Before(x, s[0]) {
      var rest := s[1..];
      assert Sorted(rest) by {
        forall i, j | 0 <= i < j < |rest| ensures Before(rest[i], rest[j]) {
          assert rest[i] == s[i + 1] && rest[j] == s[j + 1];
        }
      }
      InsertSound(x, rest);
      BeforeTotal(x, s[0]);
      var r := Insert(x, s);
      var tail := Insert(x, rest);
      assert r == [s[0]] + tail;
      forall j | 0 < j < |r| ensures Before(s[0], r[j]) {
        assert r[j] == tail[j - 1];
        assert tail[j - 1] in tail;
        if tail[j - 1] != x {
          var m :| 0 <= m < |rest| && rest[m] == tail[j - 1];
          assert rest[m] == s[m + 1];
        }
      }
      assert s == [s[0]] + rest;
    } else if s != [] && Before(x, s[0]) {
      var r := [x] + s;
      forall i, j | 0 <= i < j < |r| ensures Before(r[i], r[j]) {
        if i == 0 && j > 1 {
          LexTransitive(CodeUnits(x), CodeUnits(s[0]), CodeUnits(s[j - 1]));
        }
      }
    }
  }

  /** `getUniqueGroups`: the groups of the channels, each once, in code-unit order. */
  function UniqueGroups(chs: seq<Channel>): seq<string>
    decreases |chs|
  {
    if chs == [] then [] else Insert(GroupOf(chs[|chs| - 1]), UniqueGroups(chs[..|chs| - 1]))
  }

  /** Some channel belongs to group `g`. */
  predicate HasGroup(chs: seq<Channel>, g: string) {
    exists k | 0 <= k < |chs| :: GroupOf(chs[k]) == g
  }

  lemma HasGroupSnoc(chs: seq<Channel>, g: string)
    requires chs != []
    ensures HasGroup(chs, g) <==> HasGroup(chs[..|chs| - 1], g) || GroupOf(chs[|chs| - 1]) == g
  {
    var init := chs[..|chs| - 1];
    if HasGroup(init, g) {
      var k :| 0 <= k < |init| && GroupOf(init[k]) == g;
      assert chs[k] == init[k];
    }
    if HasGroup(chs, g) {
      var k :| 0 <= k < |chs| && GroupOf(chs[k]) == g;
      if k < |init| {
        assert init[k] == chs[k];
      }
    }
  }

  /** The result is sorted, hence free of duplicates, and holds exactly the groups of the channels. */
  lemma {:induction false} UniqueGroupsSound(chs: seq<Channel>)
    ensures Sorted(UniqueGroups(chs))
    ensures forall g :: g in UniqueGroups(chs) <==> HasGroup(chs, g)
    decreases |chs|
  {
    if chs != [] {
      var init := chs[..|chs| - 1];
      UniqueGroupsSound(init);
      InsertSound(GroupOf(chs[|chs| - 1]), UniqueGroups(init));
      forall g ensures g in UniqueGroups(chs) <==> HasGroup(chs, g) {
        HasGroupSnoc(chs, g);
      }
    }
  }

  /**
   * A sorted list is fixed by its elements: whatever way the distinct
   * groups are collected, sorting them gives `UniqueGroups`.
   */
  lemma {:induction false} SortedUnique(a: seq<string>, b: seq<string>)
    requires Sorted(a) && Sorted(b)
    requires forall x :: x in a <==> x in b
    ensures a == b
    decreases |a|
  {
    if a != [] {
      assert a[0] in a;
    }
    if b != [] {
      assert b[0] in b;
    }
    if a != [] && b != [] {
      if a[0] != b[0] {
        BeforeTotal(a[0], b[0]);
        assert a[0] in a && b[0] in b;
        if Before(a[0], b[0]) {
          var j :| 0 <= j < |b| && b[j] == a[0];
          if j > 0 {
            LexTransitive(CodeUnits(a[0]), CodeUnits(b[0]), CodeUnits(b[j]));
          }
          LexIrreflexive(CodeUnits(a[0]));
        }
      }
      SortedTail(a);
      SortedTail(b);
      forall x ensures x in a[1..] <==> x in b[1..] {
        SortedHead(a, x);
        SortedHead(b, x);
      }
      SortedUnique(a[1..], b[1..]);
      assert a == [a[0]] + a[1..] && b == [b[0]] + b[1..];
    }
  }

  lemma SortedTail(s: seq<string>)
    requires Sorted(s) && s != []
    ensures Sorted(s[1..])
  {
    forall i, j | 0 <= i < j < |s| - 1 ensures Before(s[1..][i], s[1..][j]) {
      assert s[1..][i] == s[i + 1] && s[1..][j] == s[j + 1];
    }
  }

  /** In a sorted list, the tail holds everything but the head. */
  lemma SortedHead(s: seq<string>, x: string)
    requires Sorted(s) && s != []
    ensures x in s[1..] <==> x in s && x != s[0]
  {
    SortedDistinct(s);
    if x in s && x != s[0] {
      var i :| 0 <= i < |s| && s[i] == x;
      assert s[1..][i - 1] == x;
    }
    if x in s[1..] {
      var i :| 0 <= i < |s| - 1 && s[1..][i] == x;
      assert s[i + 1] == x;
    }
  }

  // ----- filterChannelsByGroup -----

  /** The test of `filterChannelsByGroup`: `(channel.groupTitle || undefined) === targetGroup`. */
  predicate InGroup(c: Channel, groupTitle: string) {
    var target := if groupTitle == Ungrouped then None else Some(groupTitle);
    NonEmpty(c.info.groupTitle) == target
  }

  /** `filterChannelsByGroup`: the channels that pass the test, in order. */
  function FilterChannelsByGroup(chs: seq<Channel>, groupTitle: string): seq<Channel>
    decreases |chs|
  {
    if chs == [] then []
    else
      FilterChannelsByGroup(chs[..|chs| - 1], groupTitle)
        + (if InGroup(chs[|chs| - 1], groupTitle) then [chs[|chs| - 1]] else [])
  }

  /** For every name but `"Ungrouped"`, the filter gives exactly the channels `getChannelsByGroup` files under it. */
  lemma {:induction false} FilterMatchesGroup(chs: seq<Channel>, g: string)
    requires g != Ungrouped
    ensures FilterChannelsByGroup(chs, g) == ChannelsIn(chs, g)
    decreases |chs|
  {
    if chs != [] {
      FilterMatchesGroup(chs[..|chs| - 1], g);
      var c := chs[|chs| - 1];
      assert InGroup(c, g) <==> GroupOf(c) == g;
    }
  }

  /** The channels that `"Ungrouped"` selects: in order, those with a missing or empty group. */
  function WithoutGroup(chs: seq<Channel>): seq<Channel>
    decreases |chs|
  {
    if chs == [] then []
    else WithoutGroup(chs[..|chs| - 1]) + (if NonEmpty(chs[|chs| - 1].info.groupTitle).None? then [chs[|chs| - 1]] else [])
  }

  /** `"Ungrouped"` selects the channels without a group, and not those whose group is literally `"Ungrouped"`. */
  lemma {:induction false} FilterUngrouped(chs: seq<Channel>)
    ensures FilterChannelsByGroup(chs, Ungrouped) == WithoutGroup(chs)
    decreases |chs|
  {
    if chs != [] {
      FilterUngrouped(chs[..|chs| - 1]);
    }
  }

  /** An empty name selects nothing: no channel's `groupTitle || undefined` is `""`. */
  lemma {:induction false} FilterEmptyName(chs: seq<Channel>)
    ensures FilterChannelsByGroup(chs, "") == []
    decreases |chs|
  {
    if chs != [] {
      FilterEmptyName(chs[..|chs| - 1]);
    }
  }

  /** Everything `"Ungrouped"` selects has a missing or empty group. */
  lemma {:induction false} WithoutGroupSound(chs: seq<Channel>, x: Channel)
    requires x in WithoutGroup(chs)
    ensures x in chs && NonEmpty(x.info.groupTitle).None?
    decreases |chs|
  {
    var init := chs[..|chs| - 1];
    if x in WithoutGroup(init) {
      WithoutGroupSound(init, x);
      var k :| 0 <= k < |init| && init[k] == x;
      assert chs[k] == x;
    }
  }

  /**
   * A channel whose group is literally `"Ungrouped"` is filed under
   * `"Ungrouped"` by `getChannelsByGroup`, yet `filterChannelsByGroup`
   * with `"Ungrouped"` does not select it.
   */
  lemma LiteralUngroupedDiffers(chs: seq<Channel>, c: Channel)
    requires c in chs && c.info.groupTitle == Some(Ungrouped)
    ensures Ungrouped in GroupMap(chs) && c in GroupMap(chs)[Ungrouped]
    ensures c !in FilterChannelsByGroup(chs, Ungrouped)
  {
    GroupMapBuckets(chs);
    ChannelsInComplete(chs, Ungrouped);
    var k :| 0 <= k < |chs| && chs[k] == c;
    assert GroupOf(chs[k]) == Ungrouped;
    FilterUngrouped(chs);
    if c in WithoutGroup(chs) {
      WithoutGroupSound(chs, c);
    }
  }
}
