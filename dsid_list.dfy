/** Writing the desired-DSID lists: for each label the groups are visited from the
    shortest list to the longest, and a group whose DSIDs have all been written
    already is skipped. Files become (name, lines) pairs; each line of a file is
    followed by a newline. */
module DsidList {
  import opened Wrappers
  import opened Strs
  import opened DsidGroups
  import opened Seqs

  /** The DSIDs of a list, as a set. */
  function Elems(lst: seq<string>): set<string>
  {
    set i | 0 <= i < |lst| :: lst[i]
  }

  lemma ElemsSnoc(lst: seq<string>, j: nat)
    requires j < |lst|
    ensures Elems(lst[..j + 1]) == Elems(lst[..j]) + {lst[j]}
  {
    assert forall k :: 0 <= k < j ==> lst[..j + 1][k] == lst[..j][k];
    assert lst[..j + 1][j] == lst[j];
  }

  /** The DSIDs of the groups named in `order`, together. */
  function UnionOf(groups: Table, order: seq<string>): set<string>
    requires forall i :: 0 <= i < |order| ==> order[i] in groups
  {
    if |order| == 0 then {} else UnionOf(groups, order[..|order| - 1]) + Elems(groups[order[|order| - 1]])
  }

  // ---------------------------------------------------------------------------
  // The visiting order

  predicate Distinct(s: seq<string>)
  {
    forall i, j :: 0 <= i < j < |s| ==> s[i] != s[j]
  }

  /** `sorted(groups, key=len)`: every group once, shorter lists first. */
  predicate BySize(groups: Table, order: seq<string>)
  {
    Distinct(order) &&
    (forall i :: 0 <= i < |order| ==> order[i] in groups) &&
    (forall g :: g in groups ==> g in order) &&
    (forall i, j :: 0 <= i < j < |order| ==> |groups[order[i]]| <= |groups[order[j]]|)
  }

  lemma {:induction false} ShortestExists(groups: Table, s: set<string>)
    requires s != {} && s <= groups.Keys
    ensures exists g :: g in s && forall h :: h in s ==> |groups[g]| <= |groups[h]|
    decreases |s|
  {
    var x :| x in s;
    if s != {x} {
      ShortestExists(groups, s - {x});
      var m :| m in s - {x} && forall h :: h in s - {x} ==> |groups[m]| <= |groups[h]|;
      if |groups[x]| <= |groups[m]| {
        assert forall h :: h in s ==> |groups[x]| <= |groups[h]|;
      } else {
        assert forall h :: h in s ==> |groups[m]| <= |groups[h]|;
      }
    } else {
      assert forall h :: h in s ==> h == x;
    }
  }

  /** Sorting the group names by list length; groups of equal length come in an
      arbitrary order, as a dict's keys do. */
  method SizeOrder(groups: Table) returns (order: seq<string>)
    ensures BySize(groups, order)
  {
    order := [];
    var todo := groups.Keys;
    while todo != {}
      invariant SortedSoFar(groups, order, todo)
      decreases |todo|
    {
      ShortestExists(groups, todo);
      var g :| g in todo && forall h :: h in todo ==> |groups[g]| <= |groups[h]|;
      SortedSoFarStep(groups, order, todo, g);
      order := order + [g];
      todo := todo - {g};
    }
  }

  /** The sorting loop's invariant: `order` is sorted by size, holds no group of
      `todo`, no longer list than any of them, and with `todo` covers every group. */
  predicate SortedSoFar(groups: Table, order: seq<string>, todo: set<string>)
  {
    todo <= groups.Keys && Distinct(order) &&
    (forall i :: 0 <= i < |order| ==> order[i] in groups && order[i] !in todo) &&
    (forall g :: g in groups ==> g in order || g in todo) &&
    (forall i, j :: 0 <= i < j < |order| ==> |groups[order[i]]| <= |groups[order[j]]|) &&
    (forall i, h :: 0 <= i < |order| && h in todo ==> |groups[order[i]]| <= |groups[h]|)
  }

  lemma SortedSoFarStep(groups: Table, order: seq<string>, todo: set<string>, g: string)
    requires SortedSoFar(groups, order, todo)
    requires g in todo && forall h :: h in todo ==> |groups[g]| <= |groups[h]|
    ensures SortedSoFar(groups, order + [g], todo - {g})
    ensures |todo - {g}| < |todo|
  {
    var o := order + [g];
    var t := todo - {g};
    assert forall i :: 0 <= i < |order| ==> o[i] == order[i];
    assert o[|order|] == g;
    assert Distinct(o) by {
      forall i, j | 0 <= i < j < |o| ensures o[i] != o[j] {
        if j < |order| { assert o[i] == order[i] && o[j] == order[j]; }
      }
    }
    forall i, j | 0 <= i < j < |o| ensures |groups[o[i]]| <= |groups[o[j]]| {
      if j < |order| { assert o[i] == order[i] && o[j] == order[j]; }
    }
    forall x | x in groups ensures x in o || x in t {
      if x in order {
        var i :| 0 <= i < |order| && order[i] == x;
        assert o[i] == x;
      }
    }
  }

  // ---------------------------------------------------------------------------
  // Writing one label's file

  /** `'===== %s (%d) ===== '` */
  function Header(name: string, n: nat): string
  {
    "===== " + name + " (" + NatToString(n) + ") ===== "
  }

  /** The names of the groups written, visiting `order` with `written` already written,
      and the DSIDs written at the end. */
  function Emit(groups: Table, order: seq<string>, written: set<string>): (r: (seq<string>, set<string>))
    requires forall i :: 0 <= i < |order| ==> order[i] in groups
    ensures forall i :: 0 <= i < |r.0| ==> r.0[i] in groups
    ensures written <= r.1
    decreases |order|
  {
    if |order| == 0 then ([], written)
    else if Elems(groups[order[0]]) <= written then Emit(groups, order[1..], written)
    else
      var rest := Emit(groups, order[1..], written + Elems(groups[order[0]]));
      ([order[0]] + rest.0, rest.1)
  }

  /** The lines of one written group: its header, its DSIDs in list order, a blank line. */
  function Block(groups: Table, name: string): seq<string>
    requires name in groups
  {
    [Header(name, |groups[name]|)] + groups[name] + [""]
  }

  function Render(groups: Table, names: seq<string>): seq<string>
    requires forall i :: 0 <= i < |names| ==> names[i] in groups
  {
    if |names| == 0 then [] else Render(groups, names[..|names| - 1]) + Block(groups, names[|names| - 1])
  }

  lemma UnionOfSnoc(groups: Table, order: seq<string>, g: string)
    requires forall i :: 0 <= i < |order| ==> order[i] in groups
    requires g in groups
    ensures UnionOf(groups, order + [g]) == UnionOf(groups, order) + Elems(groups[g])
  {
    assert (order + [g])[..|order|] == order;
  }

  lemma {:induction false} UnionOfCons(groups: Table, g: string, order: seq<string>)
    requires forall i :: 0 <= i < |order| ==> order[i] in groups
    requires g in groups
    ensures UnionOf(groups, [g] + order) == Elems(groups[g]) + UnionOf(groups, order)
    decreases |order|
  {
    if |order| > 0 {
      var init := order[..|order| - 1];
      UnionOfCons(groups, g, init);
      assert ([g] + order)[..|order|] == [g] + init;
    }
  }

  /** `written_dsids` ends as what was written before together with every group
      visited: each group is either written or already covered. */
  lemma {:induction false} EmitWritesUnion(groups: Table, order: seq<string>, written: set<string>)
    requires forall i :: 0 <= i < |order| ==> order[i] in groups
    ensures Emit(groups, order, written).1 == written + UnionOf(groups, order)
    decreases |order|
  {
    if |order| > 0 {
      var w2 := if Elems(groups[order[0]]) <= written then written else written + Elems(groups[order[0]]);
      EmitWritesUnion(groups, order[1..], w2);
      assert order == [order[0]] + order[1..];
      UnionOfCons(groups, order[0], order[1..]);
    }
  }

  /** A group is written exactly when its DSIDs are not all among those written before it. */
  lemma {:induction false} EmitSkipsCovered(groups: Table, order: seq<string>, written: set<string>, i: nat)
    requires forall k :: 0 <= k < |order| ==> order[k] in groups
    requires Distinct(order) && i < |order|
    ensures order[i] in Emit(groups, order, written).0 <==>
      !(Elems(groups[order[i]]) <= written + UnionOf(groups, order[..i]))
    decreases |order|
  {
    var g := order[0];
    var w2 := if Elems(groups[g]) <= written then written else written + Elems(groups[g]);
    assert written + Elems(groups[g]) == w2 + Elems(groups[g]);
    if i == 0 {
      EmitNames(groups, order[1..], w2);
      assert g !in order[1..] by {
        forall k | 0 <= k < |order| - 1 ensures order[1..][k] != g {
          assert order[1..][k] == order[k + 1];
        }
      }
      assert order[..0] == [];
    } else {
      EmitSkipsCovered(groups, order[1..], w2, i - 1);
      assert order[1..][i - 1] == order[i];
      assert order[..i] == [g] + order[1..][..i - 1];
      UnionOfCons(groups, g, order[1..][..i - 1]);
    }
  }

  /** Only names from `order` are written. */
  lemma {:induction false} EmitNames(groups: Table, order: seq<string>, written: set<string>)
    requires forall i :: 0 <= i < |order| ==> order[i] in groups
    ensures forall n :: n in Emit(groups, order, written).0 ==> n in order
    decreases |order|
  {
    if |order| > 0 {
      var w2 := if Elems(groups[order[0]]) <= written then written else written + Elems(groups[order[0]]);
      EmitNames(groups, order[1..], w2);
    }
  }

  /** A group with an empty list is never written. */
  lemma EmptyGroupNotWritten(groups: Table, order: seq<string>, i: nat)
    requires forall k :: 0 <= k < |order| ==> order[k] in groups
    requires Distinct(order) && i < |order| && groups[order[i]] == []
    ensures order[i] !in Emit(groups, order, {}).0
  {
    EmitSkipsCovered(groups, order, {}, i);
  }

  /** The loop of lines 52-60 for one label: the file's lines and `written_dsids`. */
  method WriteGroups(groups: Table, order: seq<string>) returns (lines: seq<string>, written: set<string>)
    requires forall i :: 0 <= i < |order| ==> order[i] in groups
    ensures lines == Render(groups, Emit(groups, order, {}).0)
    ensures written == Emit(groups, order, {}).1
  {
    lines := [];
    written := {};
    ghost var names: seq<string> := [];
    for i := 0 to |order|
      invariant forall k :: 0 <= k < |names| ==> names[k] in groups
      invariant lines == Render(groups, names)
      invariant names + Emit(groups, order[i..], written).0 == Emit(groups, order, {}).0
      invariant Emit(groups, order[i..], written).1 == Emit(groups, order, {}).1
    {
      var g := order[i];
      var lst := groups[g];
      EmitAt(groups, order, i, written);
      if Elems(lst) <= written {
        continue;
      }
      var w0 := written;
      lines := lines + [Header(g, |lst|)];
      ghost var head := lines;
      for j := 0 to |lst|
        invariant lines == head + lst[..j]
        invariant written == w0 + Elems(lst[..j])
      {
        ElemsSnoc(lst, j);
        TakeSnoc(lst, j);
        JoinAssoc(head, lst[..j], [lst[j]]);
        lines := lines + [lst[j]];
        written := written + {lst[j]};
      }
      TakeAll(lst);
      BlockAppended(groups, names, g, lines);
      lines := lines + [""];
      JoinAssoc(names, [g], Emit(groups, order[i + 1..], written).0);
      names := names + [g];
    }
    EmitAtEnd(groups, order, written);
    JoinEmpty(names);
  }

  /** One visit of the loop over `order`: a covered group is skipped, any other is
      written and its DSIDs join those written. */
  lemma EmitAt(groups: Table, order: seq<string>, i: nat, written: set<string>)
    requires forall k :: 0 <= k < |order| ==> order[k] in groups
    requires i < |order|
    ensures var g := order[i];
      var e := Emit(groups, order[i..], written);
      if Elems(groups[g]) <= written then e == Emit(groups, order[i + 1..], written)
      else e.0 == [g] + Emit(groups, order[i + 1..], written + Elems(groups[g])).0 &&
           e.1 == Emit(groups, order[i + 1..], written + Elems(groups[g])).1
  {
    assert order[i..][0] == order[i];
    assert order[i..][1..] == order[i + 1..];
  }

  lemma EmitAtEnd(groups: Table, order: seq<string>, written: set<string>)
    ensures Emit(groups, order[|order|..], written) == ([], written)
  {
    assert order[|order|..] == [];
  }

  /** A written group's header and DSIDs, closed by the blank line, extend the rendering
      by that group's block. */
  lemma BlockAppended(groups: Table, names: seq<string>, g: string, lines: seq<string>)
    requires forall k :: 0 <= k < |names| ==> names[k] in groups
    requires g in groups && lines == Render(groups, names) + [Header(g, |groups[g]|)] + groups[g]
    ensures lines + [""] == Render(groups, names + [g])
  {
    var r, h, b := Render(groups, names), [Header(g, |groups[g]|)], groups[g];
    JoinAssoc(r, h, b);
    JoinAssoc(r, h + b, [""]);
    RenderSnoc(groups, names, g);
  }

  lemma RenderSnoc(groups: Table, names: seq<string>, g: string)
    requires forall k :: 0 <= k < |names| ==> names[k] in groups
    requires g in groups
    ensures Render(groups, names + [g]) == Render(groups, names) + Block(groups, g)
  {
    assert (names + [g])[..|names|] == names;
  }

  // ---------------------------------------------------------------------------
  // Every DSID of the label reaches its file

  /** A DSID written by `Emit` comes from one of the groups it writes. */
  lemma {:induction false} EmitSources(groups: Table, order: seq<string>, written: set<string>, d: string)
    requires forall i :: 0 <= i < |order| ==> order[i] in groups
    requires d in Emit(groups, order, written).1 && d !in written
    ensures exists n :: n in Emit(groups, order, written).0 && d in Elems(groups[n])
    decreases |order|
  {
    var g := order[0];
    if Elems(groups[g]) <= written {
      EmitSources(groups, order[1..], written, d);
    } else if d !in Elems(groups[g]) {
      EmitSources(groups, order[1..], written + Elems(groups[g]), d);
    } else {
      assert g in Emit(groups, order, written).0;
    }
  }

  /** Every DSID of a rendered group is a line of the rendering. */
  lemma {:induction false} RenderHolds(groups: Table, names: seq<string>, n: string, d: string)
    requires forall i :: 0 <= i < |names| ==> names[i] in groups
    requires n in names && d in Elems(groups[n])
    ensures d in Render(groups, names)
    decreases |names|
  {
    var last := names[|names| - 1];
    if n == last {
      var k :| 0 <= k < |groups[n]| && groups[n][k] == d;
      assert Block(groups, n)[k + 1] == d;
    } else {
      assert n in names[..|names| - 1] by {
        var k :| 0 <= k < |names| && names[k] == n;
        assert k < |names| - 1 && names[..|names| - 1][k] == n;
      }
      RenderHolds(groups, names[..|names| - 1], n, d);
    }
  }

  lemma {:induction false} UnionOfHas(groups: Table, order: seq<string>, i: nat, d: string)
    requires forall k :: 0 <= k < |order| ==> order[k] in groups
    requires i < |order| && d in Elems(groups[order[i]])
    ensures d in UnionOf(groups, order)
    decreases |order|
  {
    if i < |order| - 1 {
      UnionOfHas(groups, order[..|order| - 1], i, d);
    }
  }

  /** Whatever the subset skipping drops, every DSID of every group of the label is
      listed in its file. */
  lemma EveryDsidListed(groups: Table, order: seq<string>, g: string, d: string)
    requires BySize(groups, order)
    requires g in groups && d in groups[g]
    ensures d in Render(groups, Emit(groups, order, {}).0)
  {
    var i :| 0 <= i < |order| && order[i] == g;
    assert d in Elems(groups[g]);
    UnionOfHas(groups, order, i, d);
    EmitWritesUnion(groups, order, {});
    EmitSources(groups, order, {}, d);
    var n :| n in Emit(groups, order, {}).0 && d in Elems(groups[n]);
    RenderHolds(groups, Emit(groups, order, {}).0, n, d);
  }

  // ---------------------------------------------------------------------------
  // main

  /** The command-line flags `--all`, `--data` and `--mc`. */
  datatype Flags = Flags(all: bool, data: bool, mc: bool)

  function FlagCount(f: Flags): nat
  {
    (if f.all then 1 else 0) + (if f.data then 1 else 0) + (if f.mc then 1 else 0)
  }

  /** `groups_list`: the four data years when data is asked for, then MC. */
  function GroupsList(table: Table, f: Flags): (r: seq<(string, Table)>)
    ensures |r| == (if f.data || f.all then 4 else 0) + (if f.mc || f.all then 1 else 0)
  {
    (if f.data || f.all then DataYears(table) else []) +
    (if f.mc || f.all then [("mc16", McGroups(table))] else [])
  }

  /** The data part of `groups_list`, one entry per year 2015-2018. */
  function DataYears(table: Table): (r: seq<(string, Table)>)
    ensures |r| == 4
  {
    [("data15", DataGroups(table, 15)), ("data16", DataGroups(table, 16)),
     ("data17", DataGroups(table, 17)), ("data18", DataGroups(table, 18))]
  }

  lemma DataYearEntry(table: Table, k: nat)
    requires k < 4
    ensures DataYears(table)[k].0 == "data" + NatToString(15 + k)
    ensures DataYears(table)[k].1 == DataGroups(table, 15 + k)
  {
    var years := [15, 16, 17, 18];
    assert 15 + k == years[k];
    if k == 0 {
      assert NatToString(15) == "15" && "data" + "15" == "data15";
    } else if k == 1 {
      assert NatToString(16) == "16" && "data" + "16" == "data16";
    } else if k == 2 {
      assert NatToString(17) == "17" && "data" + "17" == "data17";
    } else {
      assert NatToString(18) == "18" && "data" + "18" == "data18";
    }
  }

  /** The labels come in the order data15, data16, data17, data18, mc16 and each names
      the part of the table it writes. */
  lemma GroupsListLabels(table: Table, f: Flags, k: nat)
    requires k < |GroupsList(table, f)|
    ensures GroupsList(table, f)[k].0 in ["data15", "data16", "data17", "data18", "mc16"]
    ensures GroupsList(table, f)[k].0 == "mc16" <==> (f.mc || f.all) && k == |GroupsList(table, f)| - 1
    ensures GroupsList(table, f)[k].0 == "mc16" ==> GroupsList(table, f)[k].1 == McGroups(table)
    ensures GroupsList(table, f)[k].0 != "mc16" ==>
      GroupsList(table, f)[k].1 == DataGroups(table, 15 + k) && GroupsList(table, f)[k].0 == "data" + NatToString(15 + k)
  {
    var d := if f.data || f.all then DataYears(table) else [];
    var m := if f.mc || f.all then [("mc16", McGroups(table))] else [];
    assert GroupsList(table, f) == d + m;
    if k < |d| {
      DataYearEntry(table, k);
      assert GroupsList(table, f)[k] == d[k];
      assert d[k].0[0] == 'd';
    } else {
      assert GroupsList(table, f)[k] == m[k - |d|];
    }
  }

  function FileName(output: string, name: string): string
  {
    output + "/desired_" + name + "_DSIDs.txt"
  }

  /** One label's file as the script writes it, for a visiting order `order`. */
  predicate WrittenAs(groups: Table, order: seq<string>, file: seq<string>)
  {
    BySize(groups, order) && file == Render(groups, Emit(groups, order, {}).0)
  }

  /** `main`: more than one flag stops the script before anything is written;
      otherwise one file per label of `groups_list`, in order. */
  method MakeDsidLists(table: Table, f: Flags, output: string) returns (r: Option<seq<(string, seq<string>)>>)
    ensures r.None? <==> FlagCount(f) > 1
    ensures r.Some? ==> |r.value| == |GroupsList(table, f)|
    ensures r.Some? ==> forall k :: 0 <= k < |r.value| ==>
      r.value[k].0 == FileName(output, GroupsList(table, f)[k].0) &&
      exists order :: WrittenAs(GroupsList(table, f)[k].1, order, r.value[k].1)
  {
    if FlagCount(f) > 1 {
      return None;
    }
    var groupsList := GroupsList(table, f);
    var files: seq<(string, seq<string>)> := [];
    for k := 0 to |groupsList|
      invariant |files| == k && FilesFor(output, groupsList, files)
    {
      var (name, groups) := groupsList[k];
      var order := SizeOrder(groups);
      var lines, _ := WriteGroups(groups, order);
      FilesGrow(output, groupsList, files, order, lines);
      files := files + [(FileName(output, name), lines)];
    }
    return Some(files);
  }

  /** Each file so far is named after its label and written from its groups. */
  ghost predicate FilesFor(output: string, groupsList: seq<(string, Table)>, files: seq<(string, seq<string>)>)
  {
    |files| <= |groupsList| &&
    forall m :: 0 <= m < |files| ==>
      files[m].0 == FileName(output, groupsList[m].0) &&
      exists order :: WrittenAs(groupsList[m].1, order, files[m].1)
  }

  lemma FilesGrow(output: string, groupsList: seq<(string, Table)>, files: seq<(string, seq<string>)>,
                  order: seq<string>, lines: seq<string>)
    requires |files| < |groupsList| && FilesFor(output, groupsList, files)
    requires WrittenAs(groupsList[|files|].1, order, lines)
    ensures FilesFor(output, groupsList, files + [(FileName(output, groupsList[|files|].0), lines)])
  {
  }
}
