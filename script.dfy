/** The script renderer (src/lib/script.ts): keep, in catalog order, every
    tool that is selected and has a truthy install command for the chosen
    manager, and join those commands with newlines. */
module Script {
  import opened Types
  import opened Seqs

  /** JavaScript truthiness of a string value: only "" is falsy. */
  predicate Truthy(s: string) {
    s != ""
  }

  /** `tool.install[pkg]` is truthy: the key is present and its command is
      not empty. The tool card uses the same test. */
  predicate Available(tool: Tool, pkg: PkgManager) {
    pkg in tool.install && Truthy(tool.install[pkg])
  }

  /** The filter of `generateScript`: selected by name and available. */
  predicate Included(tool: Tool, selected: seq<string>, pkg: PkgManager) {
    tool.name in selected && Available(tool, pkg)
  }

  /** The filter as a value, so that every use shares one test. */
  function Wanted(selected: seq<string>, pkg: PkgManager): (r: Tool -> bool)
    ensures forall t :: r(t) == Included(t, selected, pkg)
  {
    t => Included(t, selected, pkg)
  }

  /** `tools.map(tool => tool.install[pkg]!)` */
  function Commands(tools: seq<Tool>, pkg: PkgManager): (r: seq<string>)
    requires forall t :: t in tools ==> pkg in t.install
    ensures |r| == |tools|
    ensures forall k :: 0 <= k < |tools| ==> r[k] == tools[k].install[pkg]
  {
    seq(|tools|, k requires 0 <= k < |tools| => tools[k].install[pkg])
  }

  lemma CommandsAppend(a: seq<Tool>, b: seq<Tool>, pkg: PkgManager)
    requires forall t :: t in a ==> pkg in t.install
    requires forall t :: t in b ==> pkg in t.install
    ensures Commands(a + b, pkg) == Commands(a, pkg) + Commands(b, pkg)
  {
  }

  /** The lines one category contributes: filter, then map. */
  function CategoryLines(tools: seq<Tool>, selected: seq<string>, pkg: PkgManager): seq<string> {
    Commands(Filter(tools, Wanted(selected, pkg)), pkg)
  }

  /** `toolsData.flatMap(...)`: the lines of every category, in catalog
      order. */
  function ScriptLines(data: seq<ToolCategory>, selected: seq<string>, pkg: PkgManager): seq<string> {
    if data == [] then []
    else CategoryLines(data[0].tools, selected, pkg) + ScriptLines(data[1..], selected, pkg)
  }

  /** `lines.join("\n")`: separators only between lines. */
  function Join(lines: seq<string>): string {
    if |lines| == 0 then ""
    else if |lines| == 1 then lines[0]
    else lines[0] + "\n" + Join(lines[1..])
  }

  /** `generateScript(toolsData, selectedTools, selectedPkg)` */
  function GenerateScript(data: seq<ToolCategory>, selected: seq<string>, pkg: PkgManager): string {
    Join(ScriptLines(data, selected, pkg))
  }

  /** The fields of a newline-separated text, as `String.prototype.split("\n")`
      returns them: always at least one field. The inverse of `Join`. */
  function SplitFields(s: string): (r: seq<string>)
    ensures |r| >= 1
  {
    if s == [] then [""]
    else if s[0] == '\n' then [""] + SplitFields(s[1..])
    else
      var rest := SplitFields(s[1..]);
      [[s[0]] + rest[0]] + rest[1..]
  }

  // ---------------------------------------------------------------------
  // Catalog order and membership

  /** Flattening first and filtering after gives the same lines: the script
      is the catalog's tools, category by category and tool by tool, kept by
      the one filter. */
  lemma {:induction false} ScriptLinesFlat(data: seq<ToolCategory>, selected: seq<string>, pkg: PkgManager)
    ensures ScriptLines(data, selected, pkg) == Commands(Filter(AllTools(data), Wanted(selected, pkg)), pkg)
  {
    if data != [] {
      ScriptLinesFlat(data[1..], selected, pkg);
      var p := Wanted(selected, pkg);
      FilterAppend(data[0].tools, AllTools(data[1..]), p);
      CommandsAppend(Filter(data[0].tools, p), Filter(AllTools(data[1..]), p), pkg);
    }
  }

  /** Output lines appear in catalog order: line k is the command of the
      k-th tool (in catalog order) that is selected and available, and no
      other tool contributes. Selection order plays no part. */
  lemma ScriptLinesInCatalogOrder(data: seq<ToolCategory>, selected: seq<string>, pkg: PkgManager)
    ensures |ScriptLines(data, selected, pkg)| == |Kept(AllTools(data), Wanted(selected, pkg))|
    ensures forall k :: 0 <= k < |Kept(AllTools(data), Wanted(selected, pkg))| ==>
      var i := Kept(AllTools(data), Wanted(selected, pkg))[k];
      i < |AllTools(data)| &&
      Included(AllTools(data)[i], selected, pkg) &&
      ScriptLines(data, selected, pkg)[k] == AllTools(data)[i].install[pkg]
  {
    ScriptLinesFlat(data, selected, pkg);
    FilterAtKept(AllTools(data), Wanted(selected, pkg));
    var ps := Kept(AllTools(data), Wanted(selected, pkg));
    forall k | 0 <= k < |ps| ensures ps[k] < |AllTools(data)| && Included(AllTools(data)[ps[k]], selected, pkg) {
      assert ps[k] in ps;
    }
  }

  /** A line is in the script exactly when it is the command of some
      selected, available catalog tool: unselected tools never appear. */
  lemma ScriptLinesMembership(data: seq<ToolCategory>, selected: seq<string>, pkg: PkgManager, line: string)
    ensures line in ScriptLines(data, selected, pkg) <==>
      exists t :: t in AllTools(data) && Included(t, selected, pkg) && t.install[pkg] == line
  {
    ScriptLinesFlat(data, selected, pkg);
    var kept := Filter(AllTools(data), Wanted(selected, pkg));
    var lines := Commands(kept, pkg);
    if line in lines {
      var k :| 0 <= k < |lines| && lines[k] == line;
      var t := kept[k];
      assert t in kept;
      assert t in AllTools(data) && Included(t, selected, pkg) && t.install[pkg] == line;
    }
    if exists t :: t in AllTools(data) && Included(t, selected, pkg) && t.install[pkg] == line {
      var t :| t in AllTools(data) && Included(t, selected, pkg) && t.install[pkg] == line;
      assert t in kept;
      var k :| 0 <= k < |kept| && kept[k] == t;
      assert lines[k] == line;
    }
  }

  /** Every line is a truthy command. */
  lemma {:induction false} ScriptLinesTruthy(data: seq<ToolCategory>, selected: seq<string>, pkg: PkgManager)
    ensures forall line :: line in ScriptLines(data, selected, pkg) ==> Truthy(line)
  {
    forall line | line in ScriptLines(data, selected, pkg) ensures Truthy(line) {
      ScriptLinesMembership(data, selected, pkg, line);
    }
  }

  // ---------------------------------------------------------------------
  // Dependence on the selection

  /** The script depends on the selection only through which catalog tools
      it includes. */
  lemma SameInclusionSameScript(data: seq<ToolCategory>, s1: seq<string>, s2: seq<string>, pkg: PkgManager)
    requires forall t :: t in AllTools(data) ==> (Included(t, s1, pkg) <==> Included(t, s2, pkg))
    ensures ScriptLines(data, s1, pkg) == ScriptLines(data, s2, pkg)
    ensures GenerateScript(data, s1, pkg) == GenerateScript(data, s2, pkg)
  {
    ScriptLinesFlat(data, s1, pkg);
    ScriptLinesFlat(data, s2, pkg);
    FilterCongruent(AllTools(data), Wanted(s1, pkg), Wanted(s2, pkg));
  }

  /** Only membership matters: permuting the selection or repeating names in
      it gives the same script. */
  lemma SameMembersSameScript(data: seq<ToolCategory>, s1: seq<string>, s2: seq<string>, pkg: PkgManager)
    requires forall n :: n in s1 <==> n in s2
    ensures GenerateScript(data, s1, pkg) == GenerateScript(data, s2, pkg)
  {
    SameInclusionSameScript(data, s1, s2, pkg);
  }

  /** A permutation of the selection gives the same script. */
  lemma PermutedSelectionSameScript(data: seq<ToolCategory>, s1: seq<string>, s2: seq<string>, pkg: PkgManager)
    requires multiset(s1) == multiset(s2)
    ensures GenerateScript(data, s1, pkg) == GenerateScript(data, s2, pkg)
  {
    forall n ensures n in s1 <==> n in s2 {
      assert n in s1 <==> n in multiset(s1);
      assert n in s2 <==> n in multiset(s2);
    }
    SameMembersSameScript(data, s1, s2, pkg);
  }

  /** Selecting a name no catalog tool carries adds nothing. */
  lemma UnknownNameIgnored(data: seq<ToolCategory>, selected: seq<string>, name: string, pkg: PkgManager)
    requires forall t :: t in AllTools(data) ==> t.name != name
    ensures GenerateScript(data, selected + [name], pkg) == GenerateScript(data, selected, pkg)
  {
    SameInclusionSameScript(data, selected + [name], selected, pkg);
  }

  /** Selecting a name whose tools have no command, or only an empty one,
      for `pkg` adds nothing. */
  lemma UnavailableNameIgnored(data: seq<ToolCategory>, selected: seq<string>, name: string, pkg: PkgManager)
    requires forall t :: t in AllTools(data) && t.name == name ==> pkg !in t.install || t.install[pkg] == ""
    ensures GenerateScript(data, selected + [name], pkg) == GenerateScript(data, selected, pkg)
  {
    SameInclusionSameScript(data, selected + [name], selected, pkg);
  }

  /** An empty selection yields the empty script. */
  lemma {:induction false} EmptySelectionEmptyScript(data: seq<ToolCategory>, pkg: PkgManager)
    ensures ScriptLines(data, [], pkg) == []
    ensures GenerateScript(data, [], pkg) == ""
  {
    if data != [] {
      EmptySelectionEmptyScript(data[1..], pkg);
      FilterNone(data[0].tools, Wanted([], pkg));
    }
  }

  // ---------------------------------------------------------------------
  // Joining

  /** The script is "" exactly when no catalog tool is both selected and
      available for the manager. */
  lemma ScriptEmptyIffNothingIncluded(data: seq<ToolCategory>, selected: seq<string>, pkg: PkgManager)
    ensures GenerateScript(data, selected, pkg) == "" <==>
      forall t :: t in AllTools(data) ==> !Included(t, selected, pkg)
  {
    ScriptLinesFlat(data, selected, pkg);
    ScriptLinesTruthy(data, selected, pkg);
    JoinEmptyIffNoLines(ScriptLines(data, selected, pkg));
    var kept := Filter(AllTools(data), Wanted(selected, pkg));
    if kept != [] {
      assert kept[0] in kept;
    }
  }

  /** One line is emitted without any separator. */
  lemma JoinSingle(line: string)
    ensures Join([line]) == line
  {
  }

  /** Splitting a line that holds no newline gives the line back. */
  lemma {:induction false} SplitNoNewline(line: string)
    requires '\n' !in line
    ensures SplitFields(line) == [line]
  {
    if line != [] {
      assert line[0] != '\n';
      assert '\n' !in line[1..];
      SplitNoNewline(line[1..]);
      assert [line[0]] + line[1..] == line;
    }
  }

  /** A newline after a line without newlines ends that field. */
  lemma {:induction false} SplitAfterLine(line: string, rest: string)
    requires '\n' !in line
    ensures SplitFields(line + "\n" + rest) == [line] + SplitFields(rest)
  {
    if line == [] {
      assert line + "\n" + rest == "\n" + rest;
      assert ("\n" + rest)[1..] == rest;
    } else {
      var s := line + "\n" + rest;
      assert s[0] == line[0] && line[0] != '\n';
      assert s[1..] == line[1..] + "\n" + rest;
      assert '\n' !in line[1..];
      SplitAfterLine(line[1..], rest);
      assert [line[0]] + line[1..] == line;
    }
  }

  /** `Join` is undone by splitting on newlines, as long as no line holds a
      newline itself: separators stand only between lines, and there is no
      trailing one. */
  lemma {:induction false} SplitJoin(lines: seq<string>)
    requires lines != []
    requires forall l :: l in lines ==> '\n' !in l
    ensures SplitFields(Join(lines)) == lines
  {
    if |lines| == 1 {
      SplitNoNewline(lines[0]);
    } else {
      assert lines[0] in lines;
      SplitAfterLine(lines[0], Join(lines[1..]));
      assert forall l :: l in lines[1..] ==> l in lines;
      SplitJoin(lines[1..]);
      assert [lines[0]] + lines[1..] == lines;
    }
  }

  /** Joining truthy lines gives "" exactly when there are no lines. */
  lemma {:induction false} JoinEmptyIffNoLines(lines: seq<string>)
    requires forall l :: l in lines ==> Truthy(l)
    ensures Join(lines) == "" <==> lines == []
  {
    if |lines| == 1 {
      assert lines[0] in lines;
    } else if |lines| > 1 {
      assert lines[0] in lines;
      assert |Join(lines)| >= |lines[0]| + 1;
    }
  }

  /** The script is empty exactly when no selected tool is available, and
      when no command holds a newline, splitting the script on newlines
      recovers its lines in catalog order. */
  lemma ScriptSplitsIntoLines(data: seq<ToolCategory>, selected: seq<string>, pkg: PkgManager)
    requires forall t :: t in AllTools(data) && pkg in t.install ==> '\n' !in t.install[pkg]
    ensures GenerateScript(data, selected, pkg) == "" <==> ScriptLines(data, selected, pkg) == []
    ensures ScriptLines(data, selected, pkg) != [] ==>
      SplitFields(GenerateScript(data, selected, pkg)) == ScriptLines(data, selected, pkg)
  {
    var lines := ScriptLines(data, selected, pkg);
    ScriptLinesTruthy(data, selected, pkg);
    JoinEmptyIffNoLines(lines);
    forall l | l in lines ensures '\n' !in l {
      ScriptLinesMembership(data, selected, pkg, l);
    }
    if lines != [] {
      SplitJoin(lines);
    }
  }

  // ---------------------------------------------------------------------
  // The catalog of the unit tests

  /** One category, "Dev Tools", with `node` and `git` installable by choco. */
  function DevTools(): seq<ToolCategory> {
    [ToolCategory("Dev Tools", [
      Tool("node", "node.png", map[Choco := "choco install node"]),
      Tool("git", "git.png", map[Choco := "choco install git"])])]
  }

  /** The `node` and `git` entries of `DevTools`. */
  lemma DevToolsLines(selected: seq<string>, pkg: PkgManager)
    ensures ScriptLines(DevTools(), selected, pkg) ==
      (if Included(DevTools()[0].tools[0], selected, pkg) then ["choco install node"] else []) +
      (if Included(DevTools()[0].tools[1], selected, pkg) then ["choco install git"] else [])
  {
    var tools := DevTools()[0].tools;
    assert DevTools()[1..] == [];
    FilterTwo(tools[0], tools[1], Wanted(selected, pkg));
  }

  /** Selecting `node` gives its choco command. */
  lemma DevToolsNodeChoco()
    ensures GenerateScript(DevTools(), ["node"], Choco) == "choco install node"
  {
    DevToolsLines(["node"], Choco);
    assert "git" !in ["node"];
  }

  /** `node` has no apt command, so selecting it under apt gives nothing. */
  lemma DevToolsNodeApt()
    ensures GenerateScript(DevTools(), ["node"], Apt) == ""
  {
    DevToolsLines(["node"], Apt);
  }

  /** Selecting both tools, in either order, gives catalog order. */
  lemma DevToolsBoth()
    ensures GenerateScript(DevTools(), ["git", "node"], Choco) == "choco install node\nchoco install git"
  {
    var lines := ["choco install node", "choco install git"];
    DevToolsLines(["git", "node"], Choco);
    assert ScriptLines(DevTools(), ["git", "node"], Choco) == lines;
    assert lines[1..] == ["choco install git"];
    assert Join(lines[1..]) == "choco install git";
    assert Join(lines) == "choco install node" + "\n" + "choco install git";
  }
}
