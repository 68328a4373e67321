# DevSetup script generator — a Dafny model

DevSetup lets a user pick an operating system and one of its package
managers, tick tools in a catalog grouped by category, and get back a shell
script of install commands. This project models the parts of DevSetup that
decide what that script and that grid contain, and proves properties of
them:

- the catalog types and the OS / package-manager tables (`types.dfy`,
  `constants.dfy`);
- `generateScript`, which keeps the selected tools that have a truthy
  command for the manager, in catalog order, and joins the commands with
  newlines (`script.dfy`);
- the `useScriptGenerator` hook, as a class whose fields are the hook's four
  pieces of state and whose methods are its actions (`script_generator.dfy`);
- the tool card's availability test and what the card shows (`tool_card.dfy`);
- the tool grid's case-insensitive search filter, which hides categories
  with no visible tool (`tool_grid.dfy`);
- the offline converter that groups spreadsheet rows into categories, as an
  imperative loop over a record map proved against a functional definition
  (`converter.dfy`);
- generic filter facts shared by all of these (`seqs.dfy`).

JavaScript truthiness of a command is modelled as "present and not the
empty string". Lower-casing is modelled on ASCII letters.

Two behaviours of the code are worth stating outright:

- Toggling a tool twice restores which names are selected. It does not
  always restore the list itself: a name that was already selected comes
  back at the end (`ScriptGeneratorState.ToggleTwice`,
  `ScriptGeneratorState.ToggleTwiceReorders`). The script still comes out
  the same (`ScriptGeneratorState.ToggleTwiceSameScript`).
- `changePkg` does not check the manager against the current OS, so
  `ScriptGeneratorState.GeneratorState.ChangePkg` has no precondition. It
  states exactly when the manager still matches the OS.

## Model

| member | source | states |
|---|---|---|
| Types.AllOS | src/lib/types.ts:1 | There are exactly three operating systems, each listed once. |
| Types.AllPkgManagers | src/lib/types.ts:2-5 | There are exactly seven package managers, each listed once. |
| Types.GroupOf | src/lib/types.ts:2-4 | The OS group each manager's type belongs to. It only computes; it is the independent reference Constants.PkgManagers and Constants.ManagerListedOnce are proved against. |
| Types.AllTools | src/lib/script.ts:8-10 | A tool is in the flattened catalog exactly when some category holds it. |
| Constants.OsOptions | src/lib/constants.ts:3 | The OS options are windows, macos, linux in that order, covering every OS. |
| Constants.PkgManagers | src/lib/constants.ts:5-9 | Every OS has at least one manager and no repeats; a manager is offered for an OS exactly when its type belongs to that OS's group. |
| Constants.DefaultManagers | src/lib/constants.ts:6-8 | The first manager is choco on windows, homebrew on macos and apt on linux. |
| Constants.ListsPartitionManagers | src/lib/constants.ts:5-9 | The three lists of 3, 1 and 3 managers together are all seven managers. |
| Constants.ManagerListedOnce | src/lib/constants.ts:5-9 | Every manager is offered under its own OS and under no other. |
| Script.Available | src/lib/script.ts:11 | The truthiness test `tool.install[pkg]`: the command is present and non-empty. It only computes; what it decides is stated by Script.ScriptLinesMembership, ToolCard.Render and ToolCard.EnabledIffRendered. |
| Script.Included | src/lib/script.ts:11 | The filter test: selected by name and available. It only computes; Script.ScriptLinesMembership, Script.ScriptLinesInCatalogOrder and Script.ScriptEmptyIffNothingIncluded state what it keeps. |
| Script.Wanted | src/lib/script.ts:11 | The filter test as a function value, unfolded to Script.Included. It only computes; the properties of the filter are stated by Script.ScriptLinesInCatalogOrder and Script.ScriptLinesMembership. |
| Script.Commands | src/lib/script.ts:12 | The `map` step, one command per kept tool. It only computes; Script.CommandsAppend and Script.ScriptLinesInCatalogOrder state its properties. |
| Script.CommandsAppend | src/lib/script.ts:12 | Mapping distributes over concatenation. |
| Script.CategoryLines | src/lib/script.ts:10-12 | One category's `.filter(...).map(...)`. It only computes; Script.ScriptLinesFlat and Script.ScriptLinesInCatalogOrder state what the categories' lines add up to. |
| Script.ScriptLines | src/lib/script.ts:8-13 | The `flatMap` of filter-then-map over the categories. It only computes; Script.ScriptLinesFlat, Script.ScriptLinesInCatalogOrder, Script.ScriptLinesMembership and Script.ScriptLinesTruthy state what it emits. |
| Script.Join | src/lib/script.ts:14 | `join("\n")`. It only computes; Script.JoinSingle, Script.SplitJoin and Script.JoinEmptyIffNoLines state that separators stand only between lines. |
| Script.GenerateScript | src/lib/script.ts:3-15 | `generateScript`. It only computes; Script.ScriptSplitsIntoLines, Script.ScriptEmptyIffNothingIncluded, Script.SameMembersSameScript, Script.PermutedSelectionSameScript and Script.EmptySelectionEmptyScript state its properties. |
| Script.ScriptLinesFlat | src/lib/script.ts:8-13 | Filtering per category and flattening equals filtering the whole flattened catalog. |
| Script.ScriptLinesInCatalogOrder | src/lib/script.ts:8-13 | Line k is the command of the k-th kept tool in catalog order, and there are as many lines as kept tools. |
| Script.ScriptLinesMembership | src/lib/script.ts:11-12 | A line is emitted exactly when some catalog tool is selected by name and has that line as its truthy command. |
| Script.ScriptLinesTruthy | src/lib/script.ts:11-12 | No emitted line is empty. |
| Script.SameInclusionSameScript | src/lib/script.ts:11 | Two selections that include the same catalog tools give the same lines and the same script. |
| Script.SameMembersSameScript | src/lib/script.ts:11 | Selections with the same names, whatever their order or repeats, give the same script. |
| Script.PermutedSelectionSameScript | src/lib/script.ts:11 | A permutation of the selection gives the same script. |
| Script.UnknownNameIgnored | src/lib/script.ts:11 | Selecting a name that no catalog tool carries does not change the script. |
| Script.UnavailableNameIgnored | src/lib/script.ts:11 | Selecting a name whose tools lack a command for the manager, or have an empty one, does not change the script. |
| Script.EmptySelectionEmptyScript | src/lib/script.ts:8-14 | With nothing selected there are no lines and the script is "". |
| Script.ScriptEmptyIffNothingIncluded | src/lib/script.ts:8-14 | The script is "" exactly when no catalog tool is both selected and has a truthy command for the manager. |
| Script.JoinSingle | src/lib/script.ts:14 | A single line is joined without a separator. |
| Script.SplitNoNewline | src/lib/script.ts:14 | Splitting on newlines leaves a line that holds no newline unchanged. |
| Script.SplitAfterLine | src/lib/script.ts:14 | A separator after a newline-free line ends that field. |
| Script.SplitJoin | src/lib/script.ts:14 | Splitting the joined text on newlines gives back the non-empty list of newline-free lines. |
| Script.JoinEmptyIffNoLines | src/lib/script.ts:14 | Joining non-empty lines gives "" exactly when there are no lines. |
| Script.ScriptSplitsIntoLines | src/lib/script.ts:8-14 | The script is "" exactly when no line is emitted; otherwise, when no command holds a newline, splitting it on newlines gives back the lines. |
| Script.DevToolsLines | tests/lib/script.test.ts:4-12 | For the catalog with `node` and `git`, the lines are node's command then git's, each only when selected and available. |
| Script.DevToolsNodeChoco | tests/lib/script.test.ts:15-19 | Selecting `node` under choco gives exactly "choco install node". |
| Script.DevToolsNodeApt | tests/lib/script.test.ts:26-29 | Selecting `node` under apt gives "". |
| Script.DevToolsBoth | src/lib/script.ts:8-14 | Selecting `git` then `node` under choco gives node's line first and git's second: catalog order, not selection order. |
| ToolCard.Render | src/components/ScriptGenerator/ToolCard.tsx:10-37 | The checkbox is disabled exactly when the manager has no command or an empty one; it shows the given checked state; the icon appears exactly when its source is non-empty; the caption is the tool's name. The card's `toggles` field records the name the grid binds to `onToggle` (ToolGrid.tsx line 39). |
| ToolCard.EnabledIffRendered | src/components/ScriptGenerator/ToolCard.tsx:11-21 | For a selected tool, the card is enabled exactly when the script includes that tool. |
| ToolCard.SelectedUnavailableStaysChecked | src/components/ScriptGenerator/ToolCard.tsx:21-22 | A selected tool with no command for the manager stays checked but disabled, and adds nothing to the script. |
| ToolGrid.Lower | src/components/ScriptGenerator/ToolGrid.tsx:23 | Lower-casing keeps the length, leaves no ASCII capital, turns each capital into its small letter and keeps every other character. |
| ToolGrid.LowerIdempotent | src/components/ScriptGenerator/ToolGrid.tsx:23 | Lower-casing twice is lower-casing once. |
| ToolGrid.Contains | src/components/ScriptGenerator/ToolGrid.tsx:23 | `includes`, as "a prefix of some suffix". It only computes; ToolGrid.ContainsIffOccurs ties it to an occurrence at an offset. |
| ToolGrid.OccursImpliesContains | src/components/ScriptGenerator/ToolGrid.tsx:23 | If the query occurs at some position of the name, `includes` holds. |
| ToolGrid.ContainsImpliesOccurs | src/components/ScriptGenerator/ToolGrid.tsx:23 | If `includes` holds, the query occurs at some position of the name. |
| ToolGrid.ContainsIffOccurs | src/components/ScriptGenerator/ToolGrid.tsx:23 | `includes` holds exactly when the query occurs at some position. |
| ToolGrid.Matches | src/components/ScriptGenerator/ToolGrid.tsx:23 | `tool.name.toLowerCase().includes(searchQuery.toLowerCase())`. It only computes; ToolGrid.VisibleIffNameContainsQuery and ToolGrid.SearchIgnoresCase state what it accepts. |
| ToolGrid.MatchesQuery | src/components/ScriptGenerator/ToolGrid.tsx:22-24 | The search test as a function value, unfolded to the name test. It only computes; ToolGrid.VisibleIffNameContainsQuery and ToolGrid.SearchIgnoresCase state what it keeps. |
| ToolGrid.VisibleTools | src/components/ScriptGenerator/ToolGrid.tsx:22-24 | `group.tools.filter(...)`. It only computes; ToolGrid.VisibleIffNameContainsQuery, ToolGrid.SearchIgnoresCase, ToolGrid.LoweredQuerySameTools and ToolGrid.EmptyQueryShowsAll state what stays visible. |
| ToolGrid.SearchIgnoresCase | src/components/ScriptGenerator/ToolGrid.tsx:22-24 | Two queries that lower-case alike leave the same tools visible, in the same order. |
| ToolGrid.LoweredQuerySameTools | src/components/ScriptGenerator/ToolGrid.tsx:22-24 | A query and its lower-cased form leave the same tools visible. |
| ToolGrid.Cards | src/components/ScriptGenerator/ToolGrid.tsx:33-40 | The card list of a section. It only computes; ToolGrid.Grid states that every card is checked exactly when the name it toggles is selected. |
| ToolGrid.Section | src/components/ScriptGenerator/ToolGrid.tsx:27-44 | One category's heading and cards. It only computes; ToolGrid.GridIsFilteredCatalog and ToolGrid.GridInCatalogOrder state which sections appear and in what order. |
| ToolGrid.Sections | src/components/ScriptGenerator/ToolGrid.tsx:21-45 | One section per category, each that category's heading and visible cards. |
| ToolGrid.Grid | src/components/ScriptGenerator/ToolGrid.tsx:21-45 | The grid has no more sections than categories; no section is empty; every card is checked exactly when the name it toggles is selected. |
| ToolGrid.HasVisible | src/components/ScriptGenerator/ToolGrid.tsx:22-25 | The `null` test as a function value. It only computes; ToolGrid.GridIsFilteredCatalog, ToolGrid.GridInCatalogOrder and ToolGrid.EmptyQueryShowsAll state which categories are shown. |
| ToolGrid.VisibleIffNameContainsQuery | src/components/ScriptGenerator/ToolGrid.tsx:22-24 | A tool is visible exactly when it is in its category and its lower-cased name contains the lower-cased query. |
| ToolGrid.GridIsFilteredCatalog | src/components/ScriptGenerator/ToolGrid.tsx:21-25 | The grid is the sections of exactly the categories with a visible tool, in catalog order. |
| ToolGrid.GridInCatalogOrder | src/components/ScriptGenerator/ToolGrid.tsx:21-30 | Section k is the section of the k-th category with a visible tool, under that category's heading. |
| ToolGrid.EmptyQueryShowsAll | src/components/ScriptGenerator/ToolGrid.tsx:22-25 | With an empty query every tool is visible and exactly the non-empty categories are shown. |
| ScriptGeneratorState.Without | src/hooks/useScriptGenerator.ts:25 | Removing a name keeps exactly the other names. |
| ScriptGeneratorState.Toggled | src/hooks/useScriptGenerator.ts:24-26 | After a toggle the name is selected exactly when it was not before, and every other name keeps its membership; an absent name is appended after the unchanged old list. |
| ScriptGeneratorState.ToggledKeepsOthers | src/hooks/useScriptGenerator.ts:25 | Apart from the toggled name, the selection list is unchanged, order included. |
| ScriptGeneratorState.ToggledNoDuplicates | src/hooks/useScriptGenerator.ts:24-26 | Toggling keeps a selection free of repeats. |
| ScriptGeneratorState.ToggleTwice | src/hooks/useScriptGenerator.ts:23-27 | Toggling twice restores membership. It restores the list when the name was absent, and moves the name to the end when it was present. |
| ScriptGeneratorState.ToggleTwiceReorders | src/hooks/useScriptGenerator.ts:25 | Toggling `node` twice in ["node", "git"] gives ["git", "node"]. |
| ScriptGeneratorState.ToggleTwiceSameScript | src/hooks/useScriptGenerator.ts:23-30 | Toggling any name twice leaves the generated script unchanged. |
| ScriptGeneratorState.GeneratorState.Valid | src/hooks/useScriptGenerator.ts:9 | The selection has no repeated name. It only computes; the constructors, ResetSelections, ChangePkg and ToggleTool ensure it, and SetSearchQuery keeps it. |
| ScriptGeneratorState.GeneratorState.PkgMatchesOS | src/hooks/useScriptGenerator.ts:7-8 | The manager is one of the OS's managers. It only computes; the constructors and ResetSelections ensure it, and ChangePkg states exactly when it survives. |
| ScriptGeneratorState.GeneratorState.constructor | src/hooks/useScriptGenerator.ts:6-10 | The initial state is the given OS, its first manager, no selection and an empty query. |
| ScriptGeneratorState.GeneratorState.Default | src/hooks/useScriptGenerator.ts:6-10 | By default the state is windows with choco, no selection and an empty query. |
| ScriptGeneratorState.GeneratorState.ResetSelections | src/hooks/useScriptGenerator.ts:12-16 | Switching OS takes that OS's first manager, clears the selection and keeps the query. |
| ScriptGeneratorState.GeneratorState.ChangePkg | src/hooks/useScriptGenerator.ts:18-21 | Changing manager clears the selection and keeps the OS and query. The manager matches the OS afterwards exactly when it is one of that OS's managers. |
| ScriptGeneratorState.GeneratorState.ToggleTool | src/hooks/useScriptGenerator.ts:23-27 | Only the selection changes: it becomes the toggled list and stays free of repeats. |
| ScriptGeneratorState.GeneratorState.SetSearchQuery | src/hooks/useScriptGenerator.ts:10 | Only the query changes, to the text as typed. |
| ScriptGeneratorState.HookToggleScenario | tests/hooks/useScriptGenerator.test.ts:21-34 | Asserts that after toggling `node` on windows the selection is ["node"] and the script is "choco install node" (over the catalog of Script.DevTools, which adds `git` to the test's one-tool catalog), and that a second toggle removes it. It has no contract; its asserts are proved. |
| ScriptGeneratorState.HookOsScenario | tests/hooks/useScriptGenerator.test.ts:36-42 | Asserts that switching to macos clears the selection and picks homebrew, and that choosing apt then leaves the manager unmatched to the OS. It has no contract; its asserts are proved. |
| ScriptGeneratorState.GeneratorState.BuildScript | src/hooks/useScriptGenerator.ts:29-30 | The script is `generateScript` of the current selection and manager, and "" when nothing is selected. |
| Converter.Cell | convertExcelToJson.js:25 | `row[pkg]` with empty cells read as "" (the `defval` of line 10). It only computes; Converter.InstallOf and Converter.BuildInstall state which cells reach the install map. |
| Converter.CategoryOf | convertExcelToJson.js:15 | The row's category, or "Uncategorized" when it is empty. It only computes; Converter.RowLandsInItsCategory and Converter.FiledUnder use it. |
| Converter.ToolOf | convertExcelToJson.js:30-34 | The tool pushed for a row. It only computes; Converter.InstallOf states its install map and Converter.ToolsForInRowOrder where it lands. |
| Converter.ManagerColumns | convertExcelToJson.js:24 | The converter visits seven manager columns, each once, covering every manager. |
| Converter.InstallOf | convertExcelToJson.js:21-28 | The install map has a manager exactly when its cell is non-empty, with that cell's text. |
| Converter.BuildInstall | convertExcelToJson.js:21-28 | The column loop builds exactly that install map. |
| Converter.Labels | convertExcelToJson.js:14-19 | The category headings have no repeats. |
| Converter.LabelsCover | convertExcelToJson.js:14-19 | A heading is listed exactly when some row is filed under it. |
| Converter.RowStep | convertExcelToJson.js:17-19 | A row adds its category at the end of the headings exactly when the category is new. |
| Converter.ToolsStep | convertExcelToJson.js:30-34 | A row appends its tool to its own category and to no other. |
| Converter.ToolsForAbsent | convertExcelToJson.js:17-18 | A heading no row carries has no tools. |
| Converter.ToolsFor | convertExcelToJson.js:30-34 | A record's `tools` array after the given rows. It only computes; Converter.ToolsStep, Converter.ToolsForAbsent and Converter.ToolsForInRowOrder state its contents. |
| Converter.GroupsFor | convertExcelToJson.js:30-38 | There is one record per heading, holding the heading and the tools of its rows. |
| Converter.GroupRows | convertExcelToJson.js:12-35 | With the own-record presence test (see Findings), the row loop leaves one record per category in first-appearance order, keyed by the category, each holding the tools of that category's rows. |
| Converter.ConvertRows | convertExcelToJson.js:12-38 | With the own-record presence test (see Findings), the converter's output is the grouped catalog. |
| Converter.Grouped | convertExcelToJson.js:38 | One record per heading in first-appearance order. It only computes; Converter.ConvertRows, Converter.GroupedCountsRows, Converter.GroupedHeadingsDistinct and Converter.RowLandsInItsCategory state its properties. |
| Converter.GroupsForAppend | convertExcelToJson.js:38 | Records for concatenated heading lists are the concatenated records. |
| Converter.TotalToolsAppend | convertExcelToJson.js:38 | Tool counts add up over concatenated catalogs. |
| Converter.TotalToolsStep | convertExcelToJson.js:30-34 | Over distinct headings, one more row adds one tool when its category is among them and none otherwise. |
| Converter.GroupedCountsRows | convertExcelToJson.js:14-38 | The catalog holds exactly one tool per row: none lost, none duplicated. |
| Converter.LabelsGrowAtEnd | convertExcelToJson.js:17-19 | The headings of a prefix of the rows are a prefix of the headings of a longer prefix, so categories keep first-appearance order. |
| Converter.FiledUnder | convertExcelToJson.js:15 | The "belongs to this category" test as a function value. It only computes; Converter.ToolsForInRowOrder states what it selects. |
| Converter.ToolsOf | convertExcelToJson.js:30-34 | The tools of some rows. It only computes; Converter.ToolsOfAppend and Converter.ToolsForInRowOrder state its properties. |
| Converter.ToolsOfAppend | convertExcelToJson.js:30-34 | Tools of concatenated rows are the concatenated tools. |
| Converter.ToolsForInRowOrder | convertExcelToJson.js:30-34 | A category's tools are those of the rows filed under it, in row order. |
| Converter.GroupedHeadingsDistinct | convertExcelToJson.js:17-19 | No two records of the catalog share a heading. |
| Converter.RowLandsInItsCategory | convertExcelToJson.js:15-34 | A row with an empty category is filed as "Uncategorized"; its category has a record, and that record holds the row's tool. |
| Converter.PresentAsWritten | convertExcelToJson.js:17 | The truthiness test on a plain object: an own record or an inherited name. It only computes; Converter.InheritedCategoryAlwaysThrows and Converter.AsWrittenAgreesOtherwise state its consequences. |
| Converter.StepAsWritten | convertExcelToJson.js:15-34 | One turn of the loop with the truthiness presence test as written. It only computes; Converter.StepAgrees states when it agrees with the grouping. |
| Converter.GroupAsWritten | convertExcelToJson.js:14-35 | The loop as written. It only computes; Converter.InheritedCategoryThrows and Converter.AsWrittenAgreesOtherwise state where it fails and where it agrees. |
| Converter.InheritedCategoryThrows | convertExcelToJson.js:17-19 | For a single row under "constructor", the loop as written fails, while the own-key grouping files the row under its own heading. |
| Converter.AsWrittenRecordsNotInherited | convertExcelToJson.js:17-18 | The loop as written never creates a record under an inherited name. |
| Converter.InheritedCategoryAlwaysThrows | convertExcelToJson.js:17-30 | If any row is filed under an inherited name, the loop as written fails, wherever that row stands. |
| Converter.StepAgrees | convertExcelToJson.js:15-34 | Away from inherited names, one turn of the loop as written keeps its records in step with the grouping. |
| Converter.AsWrittenAgreesOtherwise | convertExcelToJson.js:14-35 | When no row's category is an inherited name, the loop as written succeeds and gives the same headings and records as `GroupRows`. |

## Left out

- Loading the catalog (`useToolsData`, a network fetch), copying to the clipboard and downloading the script are I/O; they are not modelled.
- The light/dark theme (`useTheme`) is presentation state unrelated to the script.
- Header, selectors, search box, script output and action buttons are markup that only passes values to the modelled hook and components.
- `src/app/page.tsx` is not part of this model. It repeats inline the toggle handler, `generateScript`, the OS and manager handlers and the card's availability test. It has no search filter: it renders every category and tool.
- Reading and writing the spreadsheet and the JSON file, and the console message, are I/O. The model starts from the rows `sheet_to_json` yields and ends at the list `Object.values` returns.
- ToolGrid.Lower: lower-cases ASCII letters only, not full Unicode case mapping as `toLowerCase` does.
- Converter.Row: cells are modelled as strings. A spreadsheet cell read as the number 0 would be falsy in JavaScript and is not represented.
- Converter.ConvertRows: takes `Object.values` to list records in insertion order. JavaScript lists integer-like keys (a category named "1") first, in numeric order, and that ordering is not modelled.
- ToolCard.Render: the browser's refusal to fire change events on a disabled checkbox is not modelled. The card only reports `disabled`.
- ScriptGeneratorState.GeneratorState: React's deferred state updates and re-rendering are not modelled. Each action takes effect at once.

## Findings

| source | as written | input that shows it | evidently intended | confidence | as-written member | corrected member |
|---|---|---|---|---|---|---|
| convertExcelToJson.js:17-19 | Whether a category already has a record is tested by the truthiness of `categoriesMap[category]` on a plain object, so names inherited from `Object.prototype` look present. | One row whose category is "constructor": no record is created, and pushing onto the inherited function's `tools` throws. | Test for an own record, so that every category gets its own record. | not executed | Converter.GroupAsWritten (counterexample Converter.InheritedCategoryThrows; every such sheet: Converter.InheritedCategoryAlwaysThrows) | Converter.GroupRows |
