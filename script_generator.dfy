/** The selection state of the page (src/hooks/useScriptGenerator.ts): the
    chosen OS and manager, the selected tool names and the search text, with
    the transitions the page wires to its controls. */
module ScriptGeneratorState {
  import opened Types
  import opened Seqs
  import opened Constants
  import opened Script

  /** `prev.filter((t) => t !== name)`: every occurrence of `name` removed. */
  function Without(prev: seq<string>, name: string): (r: seq<string>)
    ensures forall x :: x in r <==> x in prev && x != name
  {
    Filter(prev, t => t != name)
  }

  /** The update of `toggleTool`: drop `name` if present, else append it. */
  function Toggled(prev: seq<string>, name: string): (r: seq<string>)
    ensures name in r <==> name !in prev
    ensures forall x :: x != name ==> (x in r <==> x in prev)
    ensures name !in prev ==> |r| == |prev| + 1 && r[..|prev|] == prev && r[|prev|] == name
  {
    if name in prev then Without(prev, name) else prev + [name]
  }

  /** The other names keep their relative order: removing `name` from the
      toggled list gives the same list as removing it from the original. */
  lemma ToggledKeepsOthers(prev: seq<string>, name: string)
    ensures Without(Toggled(prev, name), name) == Without(prev, name)
  {
    var p := (t: string) => t != name;
    if name in prev {
      FilterAll(Without(prev, name), p);
    } else {
      FilterAppend(prev, [name], p);
      assert Filter([name], p) == [];
    }
  }

  /** Toggling never introduces a duplicate. */
  lemma ToggledNoDuplicates(prev: seq<string>, name: string)
    requires NoDuplicates(prev)
    ensures NoDuplicates(Toggled(prev, name))
  {
    if name in prev {
      FilterNoDuplicates(prev, t => t != name);
    }
  }

  /** Toggling twice restores membership; as a list it restores the
      original only when `name` was absent, and otherwise moves `name` to
      the end. */
  lemma ToggleTwice(prev: seq<string>, name: string)
    ensures forall x :: x in Toggled(Toggled(prev, name), name) <==> x in prev
    ensures name !in prev ==> Toggled(Toggled(prev, name), name) == prev
    ensures name in prev ==> Toggled(Toggled(prev, name), name) == Without(prev, name) + [name]
  {
    if name !in prev {
      var p := (t: string) => t != name;
      FilterAppend(prev, [name], p);
      assert Filter([name], p) == [];
      FilterAll(prev, p);
    }
  }

  /** A concrete instance: a selected name moves to the end after two
      toggles. */
  lemma ToggleTwiceReorders()
    ensures Toggled(Toggled(["node", "git"], "node"), "node") == ["git", "node"]
  {
    var p := (t: string) => t != "node";
    assert "git" != "node";
    FilterTwo("node", "git", p);
  }

  /** Toggling twice never changes the script. */
  lemma ToggleTwiceSameScript(data: seq<ToolCategory>, prev: seq<string>, name: string, pkg: PkgManager)
    ensures GenerateScript(data, Toggled(Toggled(prev, name), name), pkg) == GenerateScript(data, prev, pkg)
  {
    SameMembersSameScript(data, Toggled(Toggled(prev, name), name), prev, pkg);
  }

  /** The state of `useScriptGenerator`. */
  class GeneratorState {
    var selectedOS: OS
    var selectedPkg: PkgManager
    var selectedTools: seq<string>
    var searchQuery: string

    /** The selection never holds a name twice. */
    ghost predicate Valid()
      reads this
    {
      NoDuplicates(selectedTools)
    }

    /** The manager is one the current OS offers. */
    predicate PkgMatchesOS()
      reads this
    {
      selectedPkg in PkgManagers(selectedOS)
    }

    /** `useScriptGenerator(initialOS)` */
    constructor (initialOS: OS)
      ensures Valid() && PkgMatchesOS()
      ensures selectedOS == initialOS && selectedPkg == PkgManagers(initialOS)[0]
      ensures selectedTools == [] && searchQuery == ""
    {
      selectedOS := initialOS;
      selectedPkg := PkgManagers(initialOS)[0];
      selectedTools := [];
      searchQuery := "";
    }

    /** `useScriptGenerator()`: the default OS is windows, so choco. */
    constructor Default()
      ensures Valid() && PkgMatchesOS()
      ensures selectedOS == Windows && selectedPkg == Choco
      ensures selectedTools == [] && searchQuery == ""
    {
      selectedOS := Windows;
      selectedPkg := PkgManagers(Windows)[0];
      selectedTools := [];
      searchQuery := "";
    }

    /** `resetSelections(os)`: switch OS, take its first manager, clear the
        selection. The search text is kept. */
    method ResetSelections(os: OS)
      modifies this
      ensures Valid() && PkgMatchesOS()
      ensures selectedOS == os && selectedPkg == PkgManagers(os)[0] && selectedTools == []
      ensures searchQuery == old(searchQuery)
    {
      selectedOS := os;
      selectedPkg := PkgManagers(os)[0];
      selectedTools := [];
    }

    /** `changePkg(pkg)`: switch manager and clear the selection. Nothing
        checks `pkg` against the OS, so the manager still matches the OS
        exactly when the caller offered one of the OS's managers. */
    method ChangePkg(pkg: PkgManager)
      modifies this
      ensures Valid()
      ensures selectedPkg == pkg && selectedTools == []
      ensures selectedOS == old(selectedOS) && searchQuery == old(searchQuery)
      ensures PkgMatchesOS() <==> pkg in PkgManagers(old(selectedOS))
    {
      selectedPkg := pkg;
      selectedTools := [];
    }

    /** `toggleTool(name)`: only the selection changes. */
    method ToggleTool(name: string)
      requires Valid()
      modifies this`selectedTools
      ensures Valid()
      ensures selectedTools == Toggled(old(selectedTools), name)
      ensures name in selectedTools <==> name !in old(selectedTools)
    {
      ToggledNoDuplicates(selectedTools, name);
      selectedTools := Toggled(selectedTools, name);
    }

    /** `setSearchQuery(query)`: only the search text changes; the query is
        stored as typed. */
    method SetSearchQuery(query: string)
      modifies this`searchQuery
      ensures searchQuery == query
      ensures old(Valid()) ==> Valid()
    {
      searchQuery := query;
    }

    /** `buildScript(toolsData)`: the renderer applied to the current
        selection and manager. */
    method BuildScript(data: seq<ToolCategory>) returns (script: string)
      ensures script == GenerateScript(data, selectedTools, selectedPkg)
      ensures selectedTools == [] ==> script == ""
    {
      EmptySelectionEmptyScript(data, selectedPkg);
      script := GenerateScript(data, selectedTools, selectedPkg);
    }
  }

  /** The hook's selection scenario: start on windows with choco, toggle
      `node` on, build its script, then toggle it off again. */
  method HookToggleScenario()
  {
    var s := new GeneratorState.Default();
    s.ToggleTool("node");
    assert s.selectedTools == ["node"];
    var script := s.BuildScript(DevTools());
    DevToolsNodeChoco();
    assert script == "choco install node";
    s.ToggleTool("node");
    assert "node" !in s.selectedTools;
  }

  /** The hook's OS scenario: switching OS takes that OS's first manager and
      clears the selection; a manager of another OS is accepted as is. */
  method HookOsScenario()
  {
    var s := new GeneratorState.Default();
    s.ToggleTool("node");
    s.ResetSelections(MacOS);
    assert s.selectedTools == [] && s.selectedOS == MacOS && s.selectedPkg == Homebrew;
    s.ChangePkg(Apt);
    assert !s.PkgMatchesOS();
  }
}
