/** The row grouping of the offline converter (convertExcelToJson.js): each
    spreadsheet row becomes one tool, filed under its category (or
    "Uncategorized"), with an install map holding only the manager columns
    whose cell is non-empty. */
module Converter {
  import opened Types
  import opened Seqs

  /** One spreadsheet row as `sheet_to_json(..., { defval: "" })` yields it:
      the text columns, and the manager cells that are filled in. A manager
      missing from `cells` stands for an empty cell. */
  datatype Row = Row(category: string, name: string, iconsrc: string, cells: map<PkgManager, string>)

  /** The cell of column `p`, "" when empty. */
  function Cell(row: Row, p: PkgManager): string {
    if p in row.cells then row.cells[p] else ""
  }

  /** The heading used when a row's category is empty. */
  const Uncategorized: string := "Uncategorized"

  /** `row.category || "Uncategorized"` */
  function CategoryOf(row: Row): string {
    if row.category != "" then row.category else Uncategorized
  }

  /** The manager columns the converter copies, in the order it visits them. */
  function ManagerColumns(): (r: seq<PkgManager>)
    ensures |r| == 7 && NoDuplicates(r)
    ensures forall p :: p in r
  {
    var r := [Choco, Winget, Scoop, Apt, Dnf, Pacman, Homebrew];
    assert forall p :: p in r by {
      forall p ensures p in r {
        if p == Choco { assert r[0] == p; }
        else if p == Winget { assert r[1] == p; }
        else if p == Scoop { assert r[2] == p; }
        else if p == Apt { assert r[3] == p; }
        else if p == Dnf { assert r[4] == p; }
        else if p == Pacman { assert r[5] == p; }
        else { assert r[6] == p; }
      }
    }
    r
  }

  /** The install map of a row: the non-empty manager cells, verbatim. */
  function InstallOf(row: Row): (m: map<PkgManager, string>)
    ensures forall p :: p in m <==> Cell(row, p) != ""
    ensures forall p :: p in m ==> m[p] == Cell(row, p)
  {
    map p | p in ManagerColumns() && Cell(row, p) != "" :: Cell(row, p)
  }

  /** The tool a row becomes: name and icon copied unchanged. */
  function ToolOf(row: Row): Tool {
    Tool(row.name, row.iconsrc, InstallOf(row))
  }

  /** The category labels in order of first appearance, once each. */
  function Labels(rows: seq<Row>): (ls: seq<string>)
    ensures NoDuplicates(ls)
  {
    if rows == [] then []
    else
      var last := rows[|rows| - 1];
      var ls := Labels(rows[..|rows| - 1]);
      if CategoryOf(last) in ls then ls else ls + [CategoryOf(last)]
  }

  /** A heading is listed exactly when some row is filed under it. */
  lemma {:induction false} LabelsCover(rows: seq<Row>, category: string)
    ensures category in Labels(rows) <==> exists r :: r in rows && CategoryOf(r) == category
  {
    if rows != [] {
      var prefix := rows[..|rows| - 1];
      var last := rows[|rows| - 1];
      LabelsCover(prefix, category);
      assert rows == prefix + [last];
      assert forall r :: r in rows <==> r in prefix || r == last;
    }
  }

  /** The tools of the rows filed under `category`, in row order. */
  function ToolsFor(rows: seq<Row>, category: string): seq<Tool> {
    if rows == [] then []
    else
      var last := rows[|rows| - 1];
      ToolsFor(rows[..|rows| - 1], category) + (if CategoryOf(last) == category then [ToolOf(last)] else [])
  }

  /** One category record per heading, in the given order. */
  function GroupsFor(rows: seq<Row>, labels: seq<string>): (r: seq<ToolCategory>)
    ensures |r| == |labels|
    ensures forall k :: 0 <= k < |labels| ==> r[k] == ToolCategory(labels[k], ToolsFor(rows, labels[k]))
  {
    if labels == [] then []
    else [ToolCategory(labels[0], ToolsFor(rows, labels[0]))] + GroupsFor(rows, labels[1..])
  }

  /** The converter's output: `Object.values(categoriesMap)`. */
  function Grouped(rows: seq<Row>): seq<ToolCategory> {
    GroupsFor(rows, Labels(rows))
  }

  /** The number of tools in a catalog. */
  function TotalTools(data: seq<ToolCategory>): nat {
    if data == [] then 0 else |data[0].tools| + TotalTools(data[1..])
  }

  /** Processing one more row: its category joins the headings if new. */
  lemma RowStep(rows: seq<Row>, i: nat)
    requires i < |rows|
    ensures Labels(rows[..i + 1]) ==
      if CategoryOf(rows[i]) in Labels(rows[..i]) then Labels(rows[..i]) else Labels(rows[..i]) + [CategoryOf(rows[i])]
  {
    assert rows[..i + 1][..i] == rows[..i] && rows[..i + 1][i] == rows[i];
  }

  /** Processing one more row appends its tool to its own category only. */
  lemma ToolsStep(rows: seq<Row>, i: nat, category: string)
    requires i < |rows|
    ensures ToolsFor(rows[..i + 1], category) ==
      ToolsFor(rows[..i], category) + (if CategoryOf(rows[i]) == category then [ToolOf(rows[i])] else [])
  {
    assert rows[..i + 1][..i] == rows[..i] && rows[..i + 1][i] == rows[i];
  }

  /** Every record of `m` holds its heading and the tools of `rows` filed
      under it. */
  ghost predicate RecordsMatch(m: map<string, ToolCategory>, rows: seq<Row>) {
    forall l :: l in m ==> m[l] == ToolCategory(l, ToolsFor(rows, l))
  }

  /** A heading no row carries has no tools. */
  lemma {:induction false} ToolsForAbsent(rows: seq<Row>, category: string)
    requires category !in Labels(rows)
    ensures ToolsFor(rows, category) == []
  {
    if rows != [] {
      ToolsForAbsent(rows[..|rows| - 1], category);
    }
  }

  /** The inner `forEach`: copy each non-empty manager cell. */
  method BuildInstall(row: Row) returns (install: map<PkgManager, string>)
    ensures forall p :: p in install <==> Cell(row, p) != ""
    ensures forall p :: p in install ==> install[p] == Cell(row, p)
  {
    var columns := ManagerColumns();
    install := map[];
    for k := 0 to |columns|
      invariant forall p :: p in install <==> p in columns[..k] && Cell(row, p) != ""
      invariant forall p :: p in install ==> install[p] == Cell(row, p)
    {
      var pkg := columns[k];
      if Cell(row, pkg) != "" {
        install := install[pkg := Cell(row, pkg)];
      }
      assert columns[..k + 1] == columns[..k] + [pkg];
    }
    assert columns[..|columns|] == columns;
  }

  /** The row loop of `convertExcelToJson`: fill `categoriesMap`, creating a
      record on the first row of each category. `order` lists the map's keys
      in insertion order. */
  method GroupRows(rows: seq<Row>) returns (categoriesMap: map<string, ToolCategory>, order: seq<string>)
    ensures order == Labels(rows)
    ensures forall l :: l in categoriesMap <==> l in order
    ensures RecordsMatch(categoriesMap, rows)
  {
    categoriesMap := map[];
    order := [];
    var i := 0;
    while i < |rows|
      invariant 0 <= i <= |rows|
      invariant order == Labels(rows[..i])
      invariant forall l :: l in categoriesMap <==> l in order
      invariant RecordsMatch(categoriesMap, rows[..i])
    {
      var row := rows[i];
      var category := if row.category != "" then row.category else Uncategorized;
      assert category == CategoryOf(rows[i]);
      RowStep(rows, i);
      ghost var labelsNext := Labels(rows[..i + 1]);
      if category !in categoriesMap {
        ToolsForAbsent(rows[..i], category);
        categoriesMap := categoriesMap[category := ToolCategory(category, [])];
        order := order + [category];
      }
      var install := BuildInstall(row);
      assert install == InstallOf(row);
      var record := categoriesMap[category];
      assert record == ToolCategory(category, ToolsFor(rows[..i], category));
      ToolsStep(rows, i, category);
      assert order == labelsNext;
      ghost var before := categoriesMap;
      categoriesMap := categoriesMap[category := record.(tools := record.tools + [Tool(row.name, row.iconsrc, install)])];
      forall l | l in categoriesMap ensures categoriesMap[l] == ToolCategory(l, ToolsFor(rows[..i + 1], l)) {
        ToolsStep(rows, i, l);
        if l != category {
          assert categoriesMap[l] == before[l];
        }
      }
      assert RecordsMatch(categoriesMap, rows[..i + 1]);
      i := i + 1;
    }
    assert rows[..|rows|] == rows;
  }

  /** `convertExcelToJson` without the workbook read and the file write: the
      grouped rows as `Object.values(categoriesMap)`. */
  method ConvertRows(rows: seq<Row>) returns (catalog: seq<ToolCategory>)
    ensures catalog == Grouped(rows)
  {
    var categoriesMap, order := GroupRows(rows);
    catalog := [];
    for k := 0 to |order|
      invariant catalog == GroupsFor(rows, order[..k])
    {
      assert order[..k + 1] == order[..k] + [order[k]];
      GroupsForAppend(rows, order[..k], [order[k]]);
      catalog := catalog + [categoriesMap[order[k]]];
    }
    assert order[..|order|] == order;
  }

  /** Records for two runs of headings are the records of each run. */
  lemma {:induction false} GroupsForAppend(rows: seq<Row>, a: seq<string>, b: seq<string>)
    ensures GroupsFor(rows, a + b) == GroupsFor(rows, a) + GroupsFor(rows, b)
  {
  }

  // ---------------------------------------------------------------------
  // What the grouping promises

  /** The total tool count of records for two runs of headings adds up. */
  lemma {:induction false} TotalToolsAppend(a: seq<ToolCategory>, b: seq<ToolCategory>)
    ensures TotalTools(a + b) == TotalTools(a) + TotalTools(b)
  {
    if a == [] {
      assert a + b == b;
    } else {
      assert (a + b)[0] == a[0] && (a + b)[1..] == a[1..] + b;
      TotalToolsAppend(a[1..], b);
    }
  }

  /** One more row adds one tool to the records of distinct headings when
      its heading is among them, and none otherwise. */
  lemma {:induction false} TotalToolsStep(rows: seq<Row>, i: nat, headings: seq<string>)
    requires i < |rows| && NoDuplicates(headings)
    ensures TotalTools(GroupsFor(rows[..i + 1], headings)) ==
      TotalTools(GroupsFor(rows[..i], headings)) + (if CategoryOf(rows[i]) in headings then 1 else 0)
  {
    if headings != [] {
      ToolsStep(rows, i, headings[0]);
      assert NoDuplicates(headings[1..]) by {
        forall a, b | 0 <= a < b < |headings[1..]| ensures headings[1..][a] != headings[1..][b] {
          assert headings[1..][a] == headings[a + 1] && headings[1..][b] == headings[b + 1];
        }
      }
      assert headings[0] !in headings[1..];
      assert forall l :: l in headings <==> l == headings[0] || l in headings[1..];
      TotalToolsStep(rows, i, headings[1..]);
    }
  }

  /** Each row adds exactly one tool: the catalog holds as many tools as
      the sheet has rows. */
  lemma {:induction false} GroupedCountsRows(rows: seq<Row>)
    ensures TotalTools(Grouped(rows)) == |rows|
  {
    if rows != [] {
      var n := |rows| - 1;
      var prefix := rows[..n];
      assert rows[..n + 1] == rows;
      GroupedCountsRows(prefix);
      var c := CategoryOf(rows[n]);
      var ls := Labels(prefix);
      RowStep(rows, n);
      TotalToolsStep(rows, n, ls);
      if c !in ls {
        GroupsForAppend(rows, ls, [c]);
        TotalToolsAppend(GroupsFor(rows, ls), GroupsFor(rows, [c]));
        ToolsStep(rows, n, c);
        ToolsForAbsent(prefix, c);
      }
    }
  }

  /** Headings are emitted in order of first appearance: the headings seen
      after a prefix of the rows stay, in the same order, at the front of
      the headings of any longer prefix. */
  lemma {:induction false} LabelsGrowAtEnd(rows: seq<Row>, i: nat, j: nat)
    requires i <= j <= |rows|
    ensures Labels(rows[..i]) <= Labels(rows[..j])
    decreases j - i
  {
    if i < j {
      LabelsGrowAtEnd(rows, i + 1, j);
      RowStep(rows, i);
    }
  }

  /** The test "filed under `category`", as a value. */
  function FiledUnder(category: string): (r: Row -> bool)
    ensures forall row :: r(row) == (CategoryOf(row) == category)
  {
    row => CategoryOf(row) == category
  }

  /** The tools of some rows, one per row, in row order. */
  function ToolsOf(rows: seq<Row>): (r: seq<Tool>)
    ensures |r| == |rows|
    ensures forall k :: 0 <= k < |rows| ==> r[k] == ToolOf(rows[k])
  {
    seq(|rows|, k requires 0 <= k < |rows| => ToolOf(rows[k]))
  }

  /** A category's tools are those of its rows, in row order: position k of
      the record holds the tool of the k-th row filed under it. */
  lemma {:induction false} ToolsForInRowOrder(rows: seq<Row>, category: string)
    ensures ToolsFor(rows, category) == ToolsOf(Filter(rows, FiledUnder(category)))
  {
    if rows != [] {
      var n := |rows| - 1;
      var p := FiledUnder(category);
      var tail := if p(rows[n]) then [rows[n]] else [];
      calc {
        ToolsOf(Filter(rows, p));
        { assert rows == rows[..n] + [rows[n]]; }
        ToolsOf(Filter(rows[..n] + [rows[n]], p));
        { FilterSnoc(rows[..n], rows[n], p); }
        ToolsOf(Filter(rows[..n], p) + tail);
        { ToolsOfAppend(Filter(rows[..n], p), tail); }
        ToolsOf(Filter(rows[..n], p)) + ToolsOf(tail);
        { ToolsForInRowOrder(rows[..n], category); }
        ToolsFor(rows[..n], category) + ToolsOf(tail);
        { assert ToolsOf(tail) == if CategoryOf(rows[n]) == category then [ToolOf(rows[n])] else []; }
        ToolsFor(rows, category);
      }
    }
  }

  lemma ToolsOfAppend(a: seq<Row>, b: seq<Row>)
    ensures ToolsOf(a + b) == ToolsOf(a) + ToolsOf(b)
  {
  }

  /** One record per distinct category: no heading is emitted twice. */
  lemma GroupedHeadingsDistinct(rows: seq<Row>)
    ensures forall j, j' :: 0 <= j < j' < |Grouped(rows)| ==> Grouped(rows)[j].category != Grouped(rows)[j'].category
  {
  }

  /** Every row's tool lands in the record whose heading is the row's
      category; a row with an empty category lands under "Uncategorized". */
  lemma RowLandsInItsCategory(rows: seq<Row>, k: nat)
    requires k < |rows|
    ensures rows[k].category == "" ==> CategoryOf(rows[k]) == Uncategorized
    ensures exists j :: 0 <= j < |Grouped(rows)| && Grouped(rows)[j].category == CategoryOf(rows[k])
    ensures forall j :: 0 <= j < |Grouped(rows)| && Grouped(rows)[j].category == CategoryOf(rows[k]) ==>
                          ToolOf(rows[k]) in Grouped(rows)[j].tools
  {
    var c := CategoryOf(rows[k]);
    LabelsCover(rows, c);
    assert rows[k] in rows;
    var ls := Labels(rows);
    var j :| 0 <= j < |ls| && ls[j] == c;
    assert Grouped(rows)[j].category == c;
    ToolsForInRowOrder(rows, c);
    var kept := Filter(rows, FiledUnder(c));
    assert rows[k] in kept;
    var m :| 0 <= m < |kept| && kept[m] == rows[k];
    assert ToolsOf(kept)[m] == ToolOf(rows[k]);
  }

  // ---------------------------------------------------------------------
  // The presence test as written

  datatype Option<T> = None | Some(value: T)

  /** The records and their insertion order, as the row loop holds them. */
  datatype Grouping = Grouping(records: map<string, ToolCategory>, order: seq<string>)

  /** Names every plain JavaScript object inherits from `Object.prototype`;
      reading one of them from `{}` gives a truthy value. */
  const InheritedNames: set<string> := {
    "constructor", "__proto__", "hasOwnProperty", "isPrototypeOf", "propertyIsEnumerable",
    "toLocaleString", "toString", "valueOf",
    "__defineGetter__", "__defineSetter__", "__lookupGetter__", "__lookupSetter__"}

  /** `categoriesMap[category]` is truthy: an own record, or an inherited
      member of the plain object. */
  predicate PresentAsWritten(records: map<string, ToolCategory>, category: string) {
    category in records || category in InheritedNames
  }

  /** One turn of the row loop as written; `None` where
      `categoriesMap[category].tools.push(...)` throws because the inherited
      member has no `tools`. */
  function StepAsWritten(g: Grouping, row: Row): Option<Grouping> {
    var category := CategoryOf(row);
    var created :=
      if PresentAsWritten(g.records, category) then g
      else Grouping(g.records[category := ToolCategory(category, [])], g.order + [category]);
    if category !in created.records then None
    else
      var record := created.records[category];
      Some(created.(records := created.records[category := record.(tools := record.tools + [ToolOf(row)])]))
  }

  /** The row loop as written, over a prefix of the sheet. */
  function GroupAsWritten(rows: seq<Row>): Option<Grouping> {
    if rows == [] then Some(Grouping(map[], []))
    else
      match GroupAsWritten(rows[..|rows| - 1])
      case None => None
      case Some(g) => StepAsWritten(g, rows[|rows| - 1])
  }

  /** A sheet whose only row is filed under "constructor" makes the loop as
      written throw, while `GroupRows`, which tests for an own record, files
      the row as its own category. */
  lemma InheritedCategoryThrows()
    ensures GroupAsWritten([Row("constructor", "node", "", map[])]) == None
    ensures Grouped([Row("constructor", "node", "", map[])]) ==
      [ToolCategory("constructor", [Tool("node", "", map[])])]
  {
    var rows := [Row("constructor", "node", "", map[])];
    assert rows[..0] == [];
    assert CategoryOf(rows[0]) in InheritedNames;
    assert InstallOf(rows[0]) == map[];
    assert Labels(rows) == ["constructor"];
    assert ToolsFor(rows, "constructor") == [Tool("node", "", map[])];
  }

  /** The loop as written never files a record under an inherited name. */
  lemma {:induction false} AsWrittenRecordsNotInherited(rows: seq<Row>)
    ensures GroupAsWritten(rows).Some? ==>
      forall l :: l in GroupAsWritten(rows).value.records ==> l !in InheritedNames
  {
    if rows != [] {
      AsWrittenRecordsNotInherited(rows[..|rows| - 1]);
    }
  }

  /** Any sheet with a row filed under an inherited name makes the loop as
      written fail, wherever that row stands. */
  lemma {:induction false} InheritedCategoryAlwaysThrows(rows: seq<Row>, k: nat)
    requires k < |rows| && CategoryOf(rows[k]) in InheritedNames
    ensures GroupAsWritten(rows) == None
  {
    var n := |rows| - 1;
    if k < n {
      assert rows[..n][k] == rows[k];
      InheritedCategoryAlwaysThrows(rows[..n], k);
    } else {
      AsWrittenRecordsNotInherited(rows[..n]);
    }
  }

  /** Away from the inherited names one turn of the loop as written keeps
      the records in step with the rows seen so far. */
  lemma StepAgrees(prefix: seq<Row>, row: Row, g: Grouping)
    requires CategoryOf(row) !in InheritedNames
    requires g.order == Labels(prefix)
    requires forall l :: l in g.records <==> l in g.order
    requires RecordsMatch(g.records, prefix)
    ensures StepAsWritten(g, row).Some?
    ensures StepAsWritten(g, row).value.order == Labels(prefix + [row])
    ensures forall l :: l in StepAsWritten(g, row).value.records <==> l in Labels(prefix + [row])
    ensures RecordsMatch(StepAsWritten(g, row).value.records, prefix + [row])
  {
    var rows := prefix + [row];
    var n := |prefix|;
    var c := CategoryOf(row);
    assert rows[..n] == prefix && rows[..n + 1] == rows && rows[n] == row;
    RowStep(rows, n);
    var oldTools := ToolsFor(prefix, c);
    var created :=
      if c in g.records then g
      else Grouping(g.records[c := ToolCategory(c, [])], g.order + [c]);
    if c in g.records {
      assert created.records[c] == ToolCategory(c, oldTools);
    } else {
      ToolsForAbsent(prefix, c);
      assert created.records[c] == ToolCategory(c, oldTools);
    }
    var m' := created.records[c := ToolCategory(c, oldTools + [ToolOf(row)])];
    assert StepAsWritten(g, row) == Some(Grouping(m', created.order));
    forall l | l in m' ensures m'[l] == ToolCategory(l, ToolsFor(rows, l)) {
      ToolsStep(rows, n, l);
      if l != c {
        assert m'[l] == g.records[l];
      }
    }
  }

  /** Away from the inherited names the loop as written computes what
      `GroupRows` computes. */
  lemma {:induction false} AsWrittenAgreesOtherwise(rows: seq<Row>)
    requires forall r :: r in rows ==> CategoryOf(r) !in InheritedNames
    ensures GroupAsWritten(rows).Some?
    ensures GroupAsWritten(rows).value.order == Labels(rows)
    ensures forall l :: l in GroupAsWritten(rows).value.records <==> l in Labels(rows)
    ensures RecordsMatch(GroupAsWritten(rows).value.records, rows)
  {
    if rows != [] {
      var n := |rows| - 1;
      assert forall r :: r in rows[..n] ==> r in rows;
      AsWrittenAgreesOtherwise(rows[..n]);
      assert rows[n] in rows;
      assert rows == rows[..n] + [rows[n]];
      StepAgrees(rows[..n], rows[n], GroupAsWritten(rows[..n]).value);
    }
  }
}
