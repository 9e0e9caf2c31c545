// The tool palette: the constant table of tools, its grouping into four
// sections, and which button is highlighted.
module ToolPalette {
  import opened Basics
  import opened Elements
  import opened ToolStore

  datatype Group = General | Hydroblox | Water | Existing

  /** One palette button (the icon is left out). */
  datatype PaletteTool = PaletteTool(toolType: ToolType, caption: string, group: Group)

  /** The palette's table of tools, in display order. */
  const Tools: seq<PaletteTool> := [
    PaletteTool(Select, "Select", General),
    PaletteTool(HydrobloxRun, "HydroBlox Run", Hydroblox),
    PaletteTool(ParallelRow, "Parallel Row", Hydroblox),
    PaletteTool(TransitionBox, "Transition Box", Hydroblox),
    PaletteTool(StormwaterBox, "Stormwater Box", Hydroblox),
    PaletteTool(FlowArrow, "Flow Arrow", Water),
    PaletteTool(StandingWater, "Standing Water", Water),
    PaletteTool(ProblemArea, "Problem Area", Water),
    PaletteTool(ExistingSwale, "Existing Swale", Existing),
    PaletteTool(ExistingFrenchDrain, "French Drain", Existing),
    PaletteTool(ExistingPipe, "Pipe", Existing),
    PaletteTool(Downspout, "Downspout", Existing)
  ]

  const GroupOrder: seq<Group> := [General, Hydroblox, Water, Existing]

  function GroupLabel(g: Group): string {
    match g
    case General => "General"
    case Hydroblox => "HydroBlox"
    case Water => "Water Flow"
    case Existing => "Existing Features"
  }

  /** One section of the palette: its group, its heading and its buttons. */
  datatype Section = Section(group: Group, heading: string, tools: seq<PaletteTool>)

  function InGroup(g: Group): PaletteTool -> bool {
    (t: PaletteTool) => t.group == g
  }

  /** A section's buttons: `tools.filter((t) => t.group === group)`. */
  function ToolsOf(g: Group): seq<PaletteTool> {
    Filter(Tools, InGroup(g))
  }

  /** `groupedTools`: one section per group, in `groupOrder`. */
  function GroupedTools(): (r: seq<Section>)
    ensures |r| == |GroupOrder|
    ensures forall k :: 0 <= k < |r| ==> r[k].group == GroupOrder[k] && r[k].heading == GroupLabel(GroupOrder[k])
  {
    seq(|GroupOrder|, k requires 0 <= k < |GroupOrder| =>
      Section(GroupOrder[k], GroupLabel(GroupOrder[k]), ToolsOf(GroupOrder[k])))
  }

  /** The button of `tool` is highlighted when it is the active tool. */
  predicate IsActive(activeTool: ToolType, tool: PaletteTool) {
    activeTool == tool.toolType
  }

  /** The position of a group in `groupOrder`. */
  function Rank(g: Group): (r: nat)
    ensures r < |GroupOrder| && GroupOrder[r] == g
  {
    match g
    case General => 0
    case Hydroblox => 1
    case Water => 2
    case Existing => 3
  }

  /** A table whose tools appear group by group, in `groupOrder`. */
  predicate GroupedInOrder(ts: seq<PaletteTool>) {
    forall i, j :: 0 <= i < j < |ts| ==> Rank(ts[i].group) <= Rank(ts[j].group)
  }

  /** The sections' tools, one group after another. */
  function Flatten(ts: seq<PaletteTool>): seq<PaletteTool> {
    Filter(ts, InGroup(General)) + Filter(ts, InGroup(Hydroblox))
    + Filter(ts, InGroup(Water)) + Filter(ts, InGroup(Existing))
  }

  /** The first tool goes to its own group's section, ahead of the rest of that section. */
  lemma SectionCons(ts: seq<PaletteTool>, g: Group)
    requires ts != []
    ensures Filter(ts, InGroup(g)) == (if ts[0].group == g then [ts[0]] else []) + Filter(ts[1..], InGroup(g))
  {
  }

  /** In a grouped table, no tool after the first belongs to an earlier group. */
  lemma EarlierSectionsEmpty(ts: seq<PaletteTool>, g: Group)
    requires ts != [] && GroupedInOrder(ts) && Rank(g) < Rank(ts[0].group)
    ensures Filter(ts[1..], InGroup(g)) == []
  {
    var rest := ts[1..];
    forall i | 0 <= i < |rest| ensures !InGroup(g)(rest[i]) {
      assert rest[i] == ts[i + 1];
    }
    FilterKeepsNone(rest, InGroup(g));
  }

  /** The sequence algebra of one step: the head goes in front of its own section, earlier sections are empty. */
  lemma AssembleSections(x: PaletteTool, a: seq<PaletteTool>, b: seq<PaletteTool>, c: seq<PaletteTool>, d: seq<PaletteTool>,
                         gen: seq<PaletteTool>, hyd: seq<PaletteTool>, wat: seq<PaletteTool>, ext: seq<PaletteTool>)
    requires a == (if x.group == General then [x] else []) + gen
    requires b == (if x.group == Hydroblox then [x] else []) + hyd
    requires c == (if x.group == Water then [x] else []) + wat
    requires d == (if x.group == Existing then [x] else []) + ext
    requires Rank(x.group) > 0 ==> gen == []
    requires Rank(x.group) > 1 ==> hyd == []
    requires Rank(x.group) > 2 ==> wat == []
    ensures a + b + c + d == [x] + (gen + hyd + wat + ext)
  {
    var all := [x] + (gen + hyd + wat + ext);
    match x.group
    case General =>
      assert a + b + c + d == all by {
        assert a == [x] + gen && b == hyd && c == wat && d == ext;
        ConcatAssoc4([x], gen, hyd, wat, ext);
      }
    case Hydroblox =>
      assert a + b + c + d == all by {
        assert a == [] && b == [x] + hyd && c == wat && d == ext;
        ConcatAssoc3([x], hyd, wat, ext);
      }
    case Water =>
      assert a + b + c + d == all by {
        assert a == [] && b == [] && c == [x] + wat && d == ext;
      }
    case Existing =>
      assert a + b + c + d == all by {
        assert a == [] && b == [] && c == [] && d == [x] + ext;
      }
  }

  lemma ConcatAssoc4(x: seq<PaletteTool>, p: seq<PaletteTool>, q: seq<PaletteTool>, r: seq<PaletteTool>, s: seq<PaletteTool>)
    ensures x + p + q + r + s == x + (p + q + r + s)
  {
  }

  /** The tail of a grouped table is grouped. */
  lemma GroupedTail(ts: seq<PaletteTool>)
    requires ts != [] && GroupedInOrder(ts)
    ensures GroupedInOrder(ts[1..])
  {
    var rest := ts[1..];
    forall i, j | 0 <= i < j < |rest| ensures Rank(rest[i].group) <= Rank(rest[j].group) {
      assert rest[i] == ts[i + 1] && rest[j] == ts[j + 1];
    }
  }

  /** In a grouped table the first tool heads the concatenated sections. */
  lemma FlattenCons(ts: seq<PaletteTool>)
    requires ts != [] && GroupedInOrder(ts)
    ensures Flatten(ts) == [ts[0]] + Flatten(ts[1..])
  {
    var x, rest := ts[0], ts[1..];
    SectionCons(ts, General);
    SectionCons(ts, Hydroblox);
    SectionCons(ts, Water);
    SectionCons(ts, Existing);
    if Rank(x.group) > 0 {
      EarlierSectionsEmpty(ts, General);
    }
    if Rank(x.group) > 1 {
      EarlierSectionsEmpty(ts, Hydroblox);
    }
    if Rank(x.group) > 2 {
      EarlierSectionsEmpty(ts, Water);
    }
    AssembleSections(x, Filter(ts, InGroup(General)), Filter(ts, InGroup(Hydroblox)),
                     Filter(ts, InGroup(Water)), Filter(ts, InGroup(Existing)),
                     Filter(rest, InGroup(General)), Filter(rest, InGroup(Hydroblox)),
                     Filter(rest, InGroup(Water)), Filter(rest, InGroup(Existing)));
  }

  /** When the table is listed group by group, concatenating its sections gives the table back. */
  lemma {:induction false} FlattenGroupedTable(ts: seq<PaletteTool>)
    requires GroupedInOrder(ts)
    ensures Flatten(ts) == ts
  {
    if ts != [] {
      GroupedTail(ts);
      FlattenGroupedTable(ts[1..]);
      FlattenCons(ts);
      assert ts == [ts[0]] + ts[1..];
    }
  }

  /** A tool is in a group's section exactly when that is its own group; so each tool is in exactly one section. */
  lemma InOwnSectionOnly(ts: seq<PaletteTool>, i: nat, g: Group)
    requires i < |ts|
    ensures ts[i] in Filter(ts, InGroup(g)) <==> ts[i].group == g
  {
    var r := Filter(ts, InGroup(g));
    if ts[i] in r {
      var k :| 0 <= k < |r| && r[k] == ts[i];
      assert InGroup(g)(r[k]);
    }
  }

  /** The palette's table is listed group by group. */
  lemma ToolsGroupedInOrder()
    ensures GroupedInOrder(Tools)
  {
  }

  /** Concatenating the sections in order gives back the whole table. */
  lemma SectionsConcatenateToTools()
    ensures GroupedTools()[0].tools + GroupedTools()[1].tools + GroupedTools()[2].tools + GroupedTools()[3].tools == Tools
  {
    ToolsGroupedInOrder();
    FlattenGroupedTable(Tools);
  }

  /** Every tool appears in the section of its own group and in no other. */
  lemma EachToolInOneSection(i: nat, k: nat)
    requires i < |Tools| && k < |GroupOrder|
    ensures Tools[i] in GroupedTools()[k].tools <==> GroupOrder[k] == Tools[i].group
  {
    InOwnSectionOnly(Tools, i, GroupOrder[k]);
  }

  /** Each section holds, in table order, exactly the tools of its group. */
  lemma SectionIsOrderedFilter(k: nat)
    requires k < |GroupOrder|
    ensures IsSubsequence(GroupedTools()[k].tools, Tools)
    ensures forall j :: 0 <= j < |GroupedTools()[k].tools| ==> GroupedTools()[k].tools[j].group == GroupOrder[k]
  {
    FilterIsSubsequence(Tools, InGroup(GroupOrder[k]));
    var sec := GroupedTools()[k].tools;
    forall j | 0 <= j < |sec| ensures sec[j].group == GroupOrder[k] {
      assert InGroup(GroupOrder[k])(sec[j]);
    }
  }

  /** The table lists each tool type once, in the tool type's declaration order. */
  lemma ToolTableMatchesCensus()
    ensures |Tools| == |AllToolTypes|
    ensures forall i :: 0 <= i < |Tools| ==> Tools[i].toolType == AllToolTypes[i]
  {
  }

  /** Whatever the active tool, exactly one button is highlighted. */
  lemma ExactlyOneActive(activeTool: ToolType)
    ensures exists i :: 0 <= i < |Tools| && IsActive(activeTool, Tools[i])
    ensures forall i, j ::
              0 <= i < |Tools| && 0 <= j < |Tools| && IsActive(activeTool, Tools[i]) && IsActive(activeTool, Tools[j])
              ==> i == j
  {
    ToolTypeCensus();
    ToolTableMatchesCensus();
    assert activeTool in AllToolTypes;
    var i :| 0 <= i < |AllToolTypes| && AllToolTypes[i] == activeTool;
    assert IsActive(activeTool, Tools[i]);
  }

  /** Clicking the button at `i` makes its tool the active one. */
  method ClickTool(store: ToolStore, i: nat)
    requires i < |Tools|
    modifies store
    ensures store.activeTool == Tools[i].toolType
    ensures IsActive(store.activeTool, Tools[i])
  {
    store.SetActiveTool(Tools[i].toolType);
  }
}
