/** One tool card (src/components/ScriptGenerator/ToolCard.tsx): the
    checkbox is disabled exactly when the tool has no truthy command for the
    chosen manager, and its checked state is passed through untouched. */
module ToolCard {
  import opened Types
  import opened Seqs
  import opened Script

  /** What a card shows: its caption, whether the icon is drawn, whether the
      checkbox is disabled and checked, and the name its change handler
      toggles (the card's only effect on state). */
  datatype CardView = CardView(caption: string, showsIcon: bool, disabled: bool, checked: bool, toggles: string)

  /** `ToolCard({ tool, selectedPkg, checked, onToggle })` */
  function Render(tool: Tool, pkg: PkgManager, checked: bool): (v: CardView)
    ensures v.disabled <==> pkg !in tool.install || tool.install[pkg] == ""
    ensures v.checked == checked
    ensures v.caption == tool.name && v.toggles == tool.name
    ensures v.showsIcon <==> tool.iconsrc != ""
  {
    var isAvailable := Available(tool, pkg);
    CardView(tool.name, Truthy(tool.iconsrc), !isAvailable, checked, tool.name)
  }

  /** For a selected tool, the card is enabled exactly when the renderer
      keeps that tool: the card and the script use one availability test. */
  lemma EnabledIffRendered(data: seq<ToolCategory>, i: nat, selected: seq<string>, pkg: PkgManager)
    requires i < |AllTools(data)| && AllTools(data)[i].name in selected
    ensures !Render(AllTools(data)[i], pkg, true).disabled <==> i in Kept(AllTools(data), Wanted(selected, pkg))
  {
  }

  /** A selected tool that is unavailable for `pkg` still shows checked,
      is disabled, and contributes no line. */
  lemma SelectedUnavailableStaysChecked(data: seq<ToolCategory>, i: nat, selected: seq<string>, pkg: PkgManager)
    requires i < |AllTools(data)| && !Available(AllTools(data)[i], pkg)
    requires AllTools(data)[i].name in selected
    ensures Render(AllTools(data)[i], pkg, AllTools(data)[i].name in selected).checked
    ensures Render(AllTools(data)[i], pkg, AllTools(data)[i].name in selected).disabled
    ensures i !in Kept(AllTools(data), Wanted(selected, pkg))
  {
  }
}
