/** The tool grid (src/components/ScriptGenerator/ToolGrid.tsx): a
    case-insensitive substring search hides tools, a category left with no
    visible tool is omitted, and every card is checked exactly when its
    tool's name is selected. */
module ToolGrid {
  import opened Types
  import opened Seqs
  import opened ToolCard

  /** One rendered category: its heading and its visible cards. */
  datatype GroupView = GroupView(heading: string, cards: seq<CardView>)

  /** `toLowerCase` on one character, ASCII letters only. */
  function LowerChar(c: char): char {
    if 'A' <= c <= 'Z' then (c as int + 32) as char else c
  }

  /** An ASCII capital letter. */
  predicate IsUpper(c: char) {
    'A' <= c <= 'Z'
  }

  /** `toLowerCase`, ASCII letters only: no capital is left, every capital
      becomes its small letter, and every other character is kept. */
  function Lower(s: string): (r: string)
    ensures |r| == |s|
    ensures forall i :: 0 <= i < |s| ==> !IsUpper(r[i])
    ensures forall i :: 0 <= i < |s| && !IsUpper(s[i]) ==> r[i] == s[i]
    ensures forall i :: 0 <= i < |s| && IsUpper(s[i]) ==> r[i] as int == s[i] as int + 32
    ensures forall i :: 0 <= i < |s| ==> r[i] == LowerChar(s[i])
  {
    seq(|s|, i requires 0 <= i < |s| => LowerChar(s[i]))
  }

  /** Lower-casing twice is lower-casing once. */
  lemma LowerIdempotent(s: string)
    ensures Lower(Lower(s)) == Lower(s)
  {
  }

  /** `sub` occurs in `s` starting at offset `i`. */
  predicate OccursAt(s: string, sub: string, i: int) {
    0 <= i && i + |sub| <= |s| && s[i..i + |sub|] == sub
  }

  /** `s.includes(sub)`: `sub` is a prefix of some suffix of `s`. */
  predicate Contains(s: string, sub: string)
    decreases |s|
  {
    sub <= s || (s != [] && Contains(s[1..], sub))
  }

  lemma {:induction false} OccursImpliesContains(s: string, sub: string, i: int)
    requires OccursAt(s, sub, i)
    ensures Contains(s, sub)
    decreases i
  {
    if i == 0 {
      assert s[..|sub|] == sub;
    } else {
      assert s[1..][i - 1..i - 1 + |sub|] == s[i..i + |sub|];
      OccursImpliesContains(s[1..], sub, i - 1);
    }
  }

  lemma {:induction false} ContainsImpliesOccurs(s: string, sub: string)
    requires Contains(s, sub)
    ensures exists i :: OccursAt(s, sub, i)
    decreases |s|
  {
    if sub <= s {
      assert OccursAt(s, sub, 0);
    } else {
      ContainsImpliesOccurs(s[1..], sub);
      var j :| OccursAt(s[1..], sub, j);
      assert s[1..][j..j + |sub|] == s[j + 1..j + 1 + |sub|];
      assert OccursAt(s, sub, j + 1);
    }
  }

  /** `Contains` means `sub` occurs at some offset of `s`. */
  lemma ContainsIffOccurs(s: string, sub: string)
    ensures Contains(s, sub) <==> exists i :: OccursAt(s, sub, i)
  {
    if Contains(s, sub) {
      ContainsImpliesOccurs(s, sub);
    }
    if exists i :: OccursAt(s, sub, i) {
      var i :| OccursAt(s, sub, i);
      OccursImpliesContains(s, sub, i);
    }
  }

  /** The search test of one tool. */
  predicate Matches(tool: Tool, query: string) {
    Contains(Lower(tool.name), Lower(query))
  }

  /** The search test as a value. */
  function MatchesQuery(query: string): (r: Tool -> bool)
    ensures forall t :: r(t) == Matches(t, query)
  {
    t => Matches(t, query)
  }

  /** `group.tools.filter(...)`: the tools the query leaves visible. */
  function VisibleTools(tools: seq<Tool>, query: string): seq<Tool> {
    Filter(tools, MatchesQuery(query))
  }

  /** One card per tool, checked when its name is selected. */
  function Cards(tools: seq<Tool>, pkg: PkgManager, selected: seq<string>): (r: seq<CardView>)
    ensures |r| == |tools|
    ensures forall k :: 0 <= k < |tools| ==> r[k] == Render(tools[k], pkg, tools[k].name in selected)
  {
    seq(|tools|, k requires 0 <= k < |tools| => Render(tools[k], pkg, tools[k].name in selected))
  }

  /** The section one category renders when it has a visible tool. */
  function Section(group: ToolCategory, pkg: PkgManager, selected: seq<string>, query: string): GroupView {
    GroupView(group.category, Cards(VisibleTools(group.tools, query), pkg, selected))
  }

  /** Every category rendered as its section. */
  function Sections(categories: seq<ToolCategory>, pkg: PkgManager, selected: seq<string>, query: string): (r: seq<GroupView>)
    ensures |r| == |categories|
    ensures forall k :: 0 <= k < |categories| ==> r[k] == Section(categories[k], pkg, selected, query)
  {
    if categories == [] then []
    else [Section(categories[0], pkg, selected, query)] + Sections(categories[1..], pkg, selected, query)
  }

  /** `categories.map(...)` with the sections that render `null` dropped. */
  function Grid(categories: seq<ToolCategory>, pkg: PkgManager, selected: seq<string>, query: string): (r: seq<GroupView>)
    ensures |r| <= |categories|
    ensures forall g :: g in r ==> |g.cards| > 0
    ensures forall g, c :: g in r && c in g.cards ==> (c.checked <==> c.toggles in selected)
  {
    if categories == [] then []
    else
      var filteredTools := VisibleTools(categories[0].tools, query);
      var rest := Grid(categories[1..], pkg, selected, query);
      if |filteredTools| == 0 then rest
      else
        var g := Section(categories[0], pkg, selected, query);
        assert forall c :: c in g.cards ==> (c.checked <==> c.toggles in selected) by {
          forall c | c in g.cards ensures c.checked <==> c.toggles in selected {
            var k :| 0 <= k < |g.cards| && g.cards[k] == c;
          }
        }
        [g] + rest
  }

  /** A category has at least one tool the query leaves visible. */
  function HasVisible(query: string): (r: ToolCategory -> bool)
    ensures forall c :: r(c) == (|VisibleTools(c.tools, query)| > 0)
  {
    (c: ToolCategory) => |VisibleTools(c.tools, query)| > 0
  }

  /** The search ignores case: two queries that lower-case alike leave the
      same tools visible. */
  lemma SearchIgnoresCase(tools: seq<Tool>, q1: string, q2: string)
    requires Lower(q1) == Lower(q2)
    ensures VisibleTools(tools, q1) == VisibleTools(tools, q2)
  {
    FilterCongruent(tools, MatchesQuery(q1), MatchesQuery(q2));
  }

  /** A query and its lower-cased form leave the same tools visible. */
  lemma LoweredQuerySameTools(tools: seq<Tool>, query: string)
    ensures VisibleTools(tools, Lower(query)) == VisibleTools(tools, query)
  {
    LowerIdempotent(query);
    SearchIgnoresCase(tools, Lower(query), query);
  }

  /** A tool is visible exactly when its lowercased name contains the
      lowercased query at some offset. */
  lemma VisibleIffNameContainsQuery(tools: seq<Tool>, query: string, t: Tool)
    ensures t in VisibleTools(tools, query) <==>
      t in tools && exists i :: OccursAt(Lower(t.name), Lower(query), i)
  {
    ContainsIffOccurs(Lower(t.name), Lower(query));
  }

  /** The grid is the categories with a visible tool, each rendered as its
      section, in catalog order: skipping `null` is filtering first. */
  lemma {:induction false} GridIsFilteredCatalog(categories: seq<ToolCategory>, pkg: PkgManager, selected: seq<string>, query: string)
    ensures Grid(categories, pkg, selected, query) == Sections(Filter(categories, HasVisible(query)), pkg, selected, query)
  {
    if categories != [] {
      GridIsFilteredCatalog(categories[1..], pkg, selected, query);
      var p := HasVisible(query);
      var rest := Filter(categories[1..], p);
      if p(categories[0]) {
        assert Filter(categories, p) == [categories[0]] + rest;
        assert ([categories[0]] + rest)[1..] == rest;
      }
    }
  }

  /** Section k of the grid belongs to the k-th category (in catalog order)
      that has a visible tool; categories without one are omitted. */
  lemma GridInCatalogOrder(categories: seq<ToolCategory>, pkg: PkgManager, selected: seq<string>, query: string)
    ensures |Grid(categories, pkg, selected, query)| == |Kept(categories, HasVisible(query))|
    ensures forall k :: 0 <= k < |Kept(categories, HasVisible(query))| ==>
      var i := Kept(categories, HasVisible(query))[k];
      i < |categories| && |VisibleTools(categories[i].tools, query)| > 0 &&
      Grid(categories, pkg, selected, query)[k] == Section(categories[i], pkg, selected, query)
  {
    GridIsFilteredCatalog(categories, pkg, selected, query);
    FilterAtKept(categories, HasVisible(query));
    var ps := Kept(categories, HasVisible(query));
    forall k | 0 <= k < |ps| ensures ps[k] < |categories| && |VisibleTools(categories[ps[k]].tools, query)| > 0 {
      assert ps[k] in ps;
    }
  }

  /** The empty query hides nothing: every tool is visible and exactly the
      empty categories are omitted. */
  lemma EmptyQueryShowsAll(categories: seq<ToolCategory>, pkg: PkgManager, selected: seq<string>)
    ensures forall c :: c in categories ==> VisibleTools(c.tools, "") == c.tools
    ensures forall i: nat :: i in Kept(categories, HasVisible("")) <==> i < |categories| && |categories[i].tools| > 0
  {
    forall c | c in categories ensures VisibleTools(c.tools, "") == c.tools {
      forall t | t in c.tools ensures MatchesQuery("")(t) {
        assert Lower("") == "";
      }
      FilterAll(c.tools, MatchesQuery(""));
    }
  }
}
