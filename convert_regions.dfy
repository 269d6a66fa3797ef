/**
 * The row loop of the region-table converter: one region record per
 * spreadsheet row, a three-level hierarchy of level names with
 * duplicate-free lists of level-4 names at the leaves, and a lookup table
 * from the printed region value to its record.
 */
module ConvertRegions {
  import opened Common
  import opened Text

  /**
   * One spreadsheet row as read: value and structure are None where the
   * column is absent; the other cells are already strings ("" for an absent column).
   */
  datatype Row = Row(
    value: Option<int>,
    structure: Option<string>,
    abbreviation: string,
    level1: string,
    level2: string,
    level3: string,
    level4: string)

  datatype Region = Region(
    id: int,
    name: string,
    abbreviation: string,
    level1: string,
    level2: string,
    level3: string,
    level4: string,
    value: int,
    parentId: Option<int>,
    children: seq<int>)

  /** level1 -> level2 -> level3 -> the level-4 names, in first-seen order. */
  type Hierarchy = map<string, map<string, map<string, seq<string>>>>

  /** The region dict built for the row at position index. */
  function BuildRegion(index: nat, row: Row): Region {
    var value := if row.value.Some? then row.value.value else index + 1;
    var name := if row.structure.Some? then row.structure.value else "Region_" + IntToStr(index + 1);
    Region(value, name, row.abbreviation, row.level1, row.level2, row.level3, row.level4, value, None, [])
  }

  /** The regions list: one region per row, in row order. */
  function RegionsOf(rows: seq<Row>): (regions: seq<Region>) {
    seq(|rows|, i requires 0 <= i < |rows| => BuildRegion(i, rows[i]))
  }

  /** One row's insertions into the hierarchy, each guarded by `not in`. */
  function AddRow(h: Hierarchy, l1: string, l2: string, l3: string, l4: string): Hierarchy {
    var h1 := if l1 != "" && l1 !in h then h[l1 := map[]] else h;
    if !(l2 != "" && l1 != "") then h1
    else
      var h2 := if l2 !in h1[l1] then h1[l1 := h1[l1][l2 := map[]]] else h1;
      if l3 == "" then h2
      else
        var h3 := if l3 !in h2[l1][l2] then h2[l1 := h2[l1][l2 := h2[l1][l2][l3 := []]]] else h2;
        if l4 != "" && l4 !in h3[l1][l2][l3]
        then h3[l1 := h3[l1][l2 := h3[l1][l2][l3 := h3[l1][l2][l3] + [l4]]]]
        else h3
  }

  /** The hierarchy after the given rows. */
  function HierarchyOf(rows: seq<Row>): Hierarchy
    decreases |rows|
  {
    if rows == [] then map[]
    else
      var last := rows[|rows| - 1];
      AddRow(HierarchyOf(rows[..|rows| - 1]), last.level1, last.level2, last.level3, last.level4)
  }

  /** {str(r["value"]): r for r in regions}: later regions overwrite earlier ones. */
  function LookupOf(regions: seq<Region>): map<string, Region>
    decreases |regions|
  {
    if regions == [] then map[]
    else
      var last := regions[|regions| - 1];
      LookupOf(regions[..|regions| - 1])[IntToStr(last.value) := last]
  }

  // ---------------------------------------------------------------------------
  // Views of the hierarchy by path

  predicate Has2(h: Hierarchy, a: string, b: string) {
    a in h && b in h[a]
  }

  predicate Has3(h: Hierarchy, a: string, b: string, c: string) {
    Has2(h, a, b) && c in h[a][b]
  }

  function Leaves(h: Hierarchy, a: string, b: string, c: string): seq<string> {
    if Has3(h, a, b, c) then h[a][b][c] else []
  }

  /** A leaf list without repeats and without empty names. */
  predicate CleanLeaves(s: seq<string>) {
    && (forall i, j :: 0 <= i < j < |s| ==> s[i] != s[j])
    && (forall i :: 0 <= i < |s| ==> s[i] != "")
  }

  /** What one row adds, path by path: keys only appear, and a leaf list only grows by the new name at its end. */
  lemma AddRowEffect(h: Hierarchy, l1: string, l2: string, l3: string, l4: string, a: string, b: string, c: string)
    ensures var h' := AddRow(h, l1, l2, l3, l4);
      && (a in h' <==> a in h || (a == l1 && l1 != ""))
      && (Has2(h', a, b) <==> Has2(h, a, b) || (a == l1 && b == l2 && l1 != "" && l2 != ""))
      && (Has3(h', a, b, c) <==> Has3(h, a, b, c) || (a == l1 && b == l2 && c == l3 && l1 != "" && l2 != "" && l3 != ""))
      && Leaves(h', a, b, c) ==
           if a == l1 && b == l2 && c == l3 && l1 != "" && l2 != "" && l3 != "" && l4 != "" && l4 !in Leaves(h, a, b, c)
           then Leaves(h, a, b, c) + [l4] else Leaves(h, a, b, c)
  {
  }

  /** A row matching a full path: every level named and equal to the path. */
  ghost predicate RowAt1(rows: seq<Row>, a: string) {
    exists i :: 0 <= i < |rows| && rows[i].level1 == a && a != ""
  }

  ghost predicate RowAt2(rows: seq<Row>, a: string, b: string) {
    exists i :: 0 <= i < |rows| && rows[i].level1 == a && rows[i].level2 == b && a != "" && b != ""
  }

  ghost predicate RowAt3(rows: seq<Row>, a: string, b: string, c: string) {
    exists i :: 0 <= i < |rows| && rows[i].level1 == a && rows[i].level2 == b && rows[i].level3 == c
      && a != "" && b != "" && c != ""
  }

  ghost predicate RowAt4(rows: seq<Row>, a: string, b: string, c: string, d: string) {
    exists i :: 0 <= i < |rows| && rows[i].level1 == a && rows[i].level2 == b && rows[i].level3 == c
      && rows[i].level4 == d && a != "" && b != "" && c != "" && d != ""
  }

  /** A level-1 key exists iff some row has that non-empty level 1. */
  lemma {:induction false} HierarchyLevel1(rows: seq<Row>, a: string)
    ensures a in HierarchyOf(rows) <==> RowAt1(rows, a)
    decreases |rows|
  {
    if rows != [] {
      var init, last := rows[..|rows| - 1], rows[|rows| - 1];
      HierarchyLevel1(init, a);
      AddRowEffect(HierarchyOf(init), last.level1, last.level2, last.level3, last.level4, a, "", "");
      if RowAt1(init, a) {
        var i :| 0 <= i < |init| && init[i].level1 == a && a != "";
        assert rows[i] == init[i];
      }
      if RowAt1(rows, a) && last.level1 != a {
        var i :| 0 <= i < |rows| && rows[i].level1 == a && a != "";
        assert init[i] == rows[i];
      }
    }
  }

  /** A level-2 key exists under a level 1 iff some row names both, non-empty. */
  lemma {:induction false} HierarchyLevel2(rows: seq<Row>, a: string, b: string)
    ensures Has2(HierarchyOf(rows), a, b) <==> RowAt2(rows, a, b)
    decreases |rows|
  {
    if rows != [] {
      var init, last := rows[..|rows| - 1], rows[|rows| - 1];
      HierarchyLevel2(init, a, b);
      AddRowEffect(HierarchyOf(init), last.level1, last.level2, last.level3, last.level4, a, b, "");
      if RowAt2(init, a, b) {
        var i :| 0 <= i < |init| && init[i].level1 == a && init[i].level2 == b && a != "" && b != "";
        assert rows[i] == init[i];
      }
      if RowAt2(rows, a, b) && !(last.level1 == a && last.level2 == b) {
        var i :| 0 <= i < |rows| && rows[i].level1 == a && rows[i].level2 == b && a != "" && b != "";
        assert init[i] == rows[i];
      }
    }
  }

  /** A level-3 list exists iff some row names all three levels, non-empty. */
  lemma {:induction false} HierarchyLevel3(rows: seq<Row>, a: string, b: string, c: string)
    ensures Has3(HierarchyOf(rows), a, b, c) <==> RowAt3(rows, a, b, c)
    decreases |rows|
  {
    if rows != [] {
      var init, last := rows[..|rows| - 1], rows[|rows| - 1];
      HierarchyLevel3(init, a, b, c);
      AddRowEffect(HierarchyOf(init), last.level1, last.level2, last.level3, last.level4, a, b, c);
      if RowAt3(init, a, b, c) {
        var i :| 0 <= i < |init| && init[i].level1 == a && init[i].level2 == b && init[i].level3 == c
          && a != "" && b != "" && c != "";
        assert rows[i] == init[i];
      }
      if RowAt3(rows, a, b, c) && !(last.level1 == a && last.level2 == b && last.level3 == c) {
        var i :| 0 <= i < |rows| && rows[i].level1 == a && rows[i].level2 == b && rows[i].level3 == c
          && a != "" && b != "" && c != "";
        assert init[i] == rows[i];
      }
    }
  }

  /** A level-4 name is listed iff some row names all four levels, non-empty. */
  lemma {:induction false} HierarchyLevel4(rows: seq<Row>, a: string, b: string, c: string, d: string)
    ensures d in Leaves(HierarchyOf(rows), a, b, c) <==> RowAt4(rows, a, b, c, d)
    decreases |rows|
  {
    if rows != [] {
      var init, last := rows[..|rows| - 1], rows[|rows| - 1];
      HierarchyLevel4(init, a, b, c, d);
      AddRowEffect(HierarchyOf(init), last.level1, last.level2, last.level3, last.level4, a, b, c);
      RowAt4Last(rows, a, b, c, d);
    }
  }

  lemma RowAt4Last(rows: seq<Row>, a: string, b: string, c: string, d: string)
    requires rows != []
    ensures var last := rows[|rows| - 1];
      RowAt4(rows, a, b, c, d) <==>
        (RowAt4(rows[..|rows| - 1], a, b, c, d) ||
         (last.level1 == a && last.level2 == b && last.level3 == c && last.level4 == d
          && a != "" && b != "" && c != "" && d != ""))
  {
    var init := rows[..|rows| - 1];
    if RowAt4(init, a, b, c, d) {
      var i :| 0 <= i < |init| && init[i].level1 == a && init[i].level2 == b && init[i].level3 == c
        && init[i].level4 == d && a != "" && b != "" && c != "" && d != "";
      assert rows[i] == init[i];
    }
    if RowAt4(rows, a, b, c, d) {
      var i :| 0 <= i < |rows| && rows[i].level1 == a && rows[i].level2 == b && rows[i].level3 == c
        && rows[i].level4 == d && a != "" && b != "" && c != "" && d != "";
      if i < |init| {
        assert init[i] == rows[i];
      }
    }
  }

  /** Every leaf list is free of repeats and of empty names. */
  lemma {:induction false} HierarchyLeavesClean(rows: seq<Row>, a: string, b: string, c: string)
    ensures CleanLeaves(Leaves(HierarchyOf(rows), a, b, c))
    decreases |rows|
  {
    if rows != [] {
      var init, last := rows[..|rows| - 1], rows[|rows| - 1];
      HierarchyLeavesClean(init, a, b, c);
      AddRowEffect(HierarchyOf(init), last.level1, last.level2, last.level3, last.level4, a, b, c);
    }
  }

  /**
   * Later rows never overwrite or remove what earlier rows put in: every key
   * stays, and each leaf list of a prefix of the rows is a prefix of the
   * final list.
   */
  lemma {:induction false} HierarchyGrows(rows: seq<Row>, n: nat, a: string, b: string, c: string)
    requires n <= |rows|
    ensures var early, h := HierarchyOf(rows[..n]), HierarchyOf(rows);
      && (a in early ==> a in h)
      && (Has2(early, a, b) ==> Has2(h, a, b))
      && (Has3(early, a, b, c) ==> Has3(h, a, b, c))
      && Leaves(early, a, b, c) <= Leaves(h, a, b, c)
    decreases |rows| - n
  {
    if n == |rows| {
      assert rows[..n] == rows;
    } else {
      HierarchyGrows(rows[..|rows| - 1], n, a, b, c);
      assert rows[..|rows| - 1][..n] == rows[..n];
      var last := rows[|rows| - 1];
      AddRowEffect(HierarchyOf(rows[..|rows| - 1]), last.level1, last.level2, last.level3, last.level4, a, b, c);
    }
  }

  /** One region per row, in row order; id and value come from the Value column or default to the row number. */
  lemma RegionsOfSpec(rows: seq<Row>, i: nat)
    requires i < |rows|
    ensures |RegionsOf(rows)| == |rows|
    ensures var r := RegionsOf(rows)[i];
      && r.id == r.value
      && r.value == (if rows[i].value.Some? then rows[i].value.value else i + 1)
      && (rows[i].structure.None? ==> r.name == "Region_" + IntToStr(i + 1))
      && r.level1 == rows[i].level1 && r.level2 == rows[i].level2
      && r.level3 == rows[i].level3 && r.level4 == rows[i].level4
      && r.parentId.None? && r.children == []
  {
  }

  /** The lookup has a key exactly for the printed value of each region. */
  lemma {:induction false} LookupOfKeys(regions: seq<Region>, v: int)
    ensures IntToStr(v) in LookupOf(regions) <==> exists j :: 0 <= j < |regions| && regions[j].value == v
    decreases |regions|
  {
    if regions != [] {
      var init, last := regions[..|regions| - 1], regions[|regions| - 1];
      LookupOfKeys(init, v);
      if IntToStr(last.value) == IntToStr(v) {
        IntToStrInjective(last.value, v);
      }
      if exists j :: 0 <= j < |init| && init[j].value == v {
        var j :| 0 <= j < |init| && init[j].value == v;
        assert regions[j] == init[j];
      }
      if exists j :: 0 <= j < |regions| && regions[j].value == v {
        var j :| 0 <= j < |regions| && regions[j].value == v;
        if j < |init| {
          assert init[j] == regions[j];
        }
      }
    }
  }

  /** On a repeated value the last region wins: the entry is the last region printed under that key. */
  lemma {:induction false} LookupOfLastWins(regions: seq<Region>, j: nat)
    requires j < |regions|
    requires forall k :: j < k < |regions| ==> regions[k].value != regions[j].value
    ensures IntToStr(regions[j].value) in LookupOf(regions)
    ensures LookupOf(regions)[IntToStr(regions[j].value)] == regions[j]
    decreases |regions|
  {
    var init, last := regions[..|regions| - 1], regions[|regions| - 1];
    if j < |init| {
      assert init[j] == regions[j];
      LookupOfLastWins(init, j);
      if IntToStr(last.value) == IntToStr(regions[j].value) {
        IntToStrInjective(last.value, regions[j].value);
      }
    }
  }

  /** The converter's output, without the timestamped metadata. */
  datatype Conversion = Conversion(totalRegions: nat, regions: seq<Region>, hierarchy: Hierarchy, regionLookup: map<string, Region>)

  /** One more row appends one more region. */
  lemma RegionsOfSnoc(rows: seq<Row>, index: nat)
    requires index < |rows|
    ensures RegionsOf(rows[..index + 1]) == RegionsOf(rows[..index]) + [BuildRegion(index, rows[index])]
  {
    var a, b := RegionsOf(rows[..index + 1]), RegionsOf(rows[..index]) + [BuildRegion(index, rows[index])];
    assert forall k :: 0 <= k < |a| ==> a[k] == b[k];
  }

  /** One more row adds its path to the hierarchy. */
  lemma HierarchyOfSnoc(rows: seq<Row>, index: nat)
    requires index < |rows|
    ensures HierarchyOf(rows[..index + 1])
      == AddRow(HierarchyOf(rows[..index]), rows[index].level1, rows[index].level2, rows[index].level3, rows[index].level4)
  {
    assert rows[..index + 1][..index] == rows[..index];
  }

  /** The hierarchy-building statements of the row loop for one row's four level names. */
  method InsertPath(hierarchy: Hierarchy, level1: string, level2: string, level3: string, level4: string)
    returns (h: Hierarchy)
    ensures h == AddRow(hierarchy, level1, level2, level3, level4)
  {
    h := hierarchy;
    if level1 != "" && level1 !in h {
      h := h[level1 := map[]];
    }
    if level2 != "" && level1 != "" {
      if level2 !in h[level1] {
        h := h[level1 := h[level1][level2 := map[]]];
      }
      if level3 != "" {
        if level3 !in h[level1][level2] {
          h := h[level1 := h[level1][level2 := h[level1][level2][level3 := []]]];
        }
        if level4 != "" && level4 !in h[level1][level2][level3] {
          var leaves := h[level1][level2][level3] + [level4];
          h := h[level1 := h[level1][level2 := h[level1][level2][level3 := leaves]]];
        }
      }
    }
  }

  /** The row loop and the final structure of convert_xlsx_to_json. */
  method ConvertRows(rows: seq<Row>) returns (out: Conversion)
    ensures out.totalRegions == |rows|
    ensures out.regions == RegionsOf(rows)
    ensures out.hierarchy == HierarchyOf(rows)
    ensures out.regionLookup == LookupOf(out.regions)
  {
    var regions: seq<Region> := [];
    var hierarchy: Hierarchy := map[];
    for index := 0 to |rows|
      invariant regions == RegionsOf(rows[..index])
      invariant hierarchy == HierarchyOf(rows[..index])
    {
      var row := rows[index];
      var region := BuildRegion(index, row);
      regions := regions + [region];
      RegionsOfSnoc(rows, index);
      HierarchyOfSnoc(rows, index);
      hierarchy := InsertPath(hierarchy, region.level1, region.level2, region.level3, region.level4);
    }
    assert rows[..|rows|] == rows;
    out := Conversion(|regions|, regions, hierarchy, LookupOf(regions));
  }
}
