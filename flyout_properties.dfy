/**
 * What the "Variables" palette looks like, run by run: where the two
 * buttons are, the reporters in name order carrying their records, which
 * operation templates appear and in which order, their gaps, the default
 * values of their inputs, and which element gets the wide gap.
 *
 * Together with `DataFlyout.BuildFlyout` (the palette is `Flyout` of some
 * sorted permutation of the variables) these are the promises of
 * `Blockly.DataFlyout`.
 */
module FlyoutProperties {
  import opened VariableModels
  import opened Descriptors
  import opened DataFlyout

  /** Index of the create-list button in the palette. */
  function ListButtonIndex(ss: seq<VariableModel>, registered: set<BlockType>): nat {
    1 + |ReporterRun(ss, registered)| + |ScalarBlocks(ss, registered)|
  }

  /** The records the blocks of `ds` refer to, in order (an element that
      refers to no record stands as an empty record; the lemmas below show
      that no reporter is such an element). */
  function RecordsOf(ds: seq<Descriptor>): seq<VariableModel> {
    seq(|ds|, k requires 0 <= k < |ds| =>
      match Referenced(ds[k]) case Some(v) => v case None => VariableModel("", "", ""))
  }

  /** Slicing a sequence made of an element, two runs, an element and two
      more runs gives back each part. */
  lemma SliceRuns(r: seq<Descriptor>, x: Descriptor, a: seq<Descriptor>, b: seq<Descriptor>,
                  y: Descriptor, c: seq<Descriptor>, d: seq<Descriptor>, p: int)
    requires r == [x] + a + b + [y] + c + d && p == 1 + |a| + |b|
    ensures
      && |r| == p + 1 + |c| + |d|
      && r[0] == x && r[1..1 + |a|] == a && r[1 + |a|..p] == b
      && r[p] == y && r[p + 1..p + 1 + |c|] == c && r[p + 1 + |c|..] == d
  {
    var front := [x] + a + b;
    var back := front + [y] + c;
    assert r[..|back|] == back && r[|back|..] == d;
    assert back[..p] == front && back[p] == y && back[p + 1..] == c;
    assert front[1..1 + |a|] == a && front[1 + |a|..] == b;
    assert r[1..1 + |a|] == front[1..1 + |a|];
    assert r[1 + |a|..p] == front[1 + |a|..];
    assert r[p + 1..p + 1 + |c|] == back[p + 1..];
  }

  /** Where each run of the palette sits. */
  lemma FlyoutSlices(ss: seq<VariableModel>, ls: seq<VariableModel>, registered: set<BlockType>, msg: Messages)
    ensures var r := Flyout(ss, ls, registered, msg);
      var n := |ReporterRun(ss, registered)|;
      var p := ListButtonIndex(ss, registered);
      var m := |ReporterRun(ls, registered)|;
      && |r| == p + 1 + m + |ListBlocks(ls, registered)|
      && r[0] == NewVariableButton(msg)
      && r[1..1 + n] == ReporterRun(ss, registered)
      && r[1 + n..p] == ScalarBlocks(ss, registered)
      && r[p] == ListButton(ls, registered, msg)
      && r[p + 1..p + 1 + m] == ReporterRun(ls, registered)
      && r[p + 1 + m..] == ListBlocks(ls, registered)
  {
    var r := Flyout(ss, ls, registered, msg);
    var x, a, b := NewVariableButton(msg), ReporterRun(ss, registered), ScalarBlocks(ss, registered);
    var y, c, d := ListButton(ls, registered, msg), ReporterRun(ls, registered), ListBlocks(ls, registered);
    FlyoutParts(ss, ls, registered, msg);
    assert r == [x] + a + b + [y] + c + d;
    SliceRuns(r, x, a, b, y, c, d, ListButtonIndex(ss, registered));
  }

  /** Element `k` of a reporter run: a `data_variable` block with id
      "VAR_" + name and a VARIABLE field copied from the `k`-th record; its
      gap is 24 for the last reporter of the run and 8 for every other one. */
  lemma ReporterRunAt(vs: seq<VariableModel>, registered: set<BlockType>, k: nat)
    requires DataVariable in registered && k < |vs|
    ensures |ReporterRun(vs, registered)| == |vs|
    ensures var d := ReporterRun(vs, registered)[k];
      && d.Block? && d.blockType == DataVariable
      && d.id == Some("VAR_" + vs[k].name)
      && d.children == [Field("VARIABLE", vs[k].vtype, vs[k].id, vs[k].name)]
      && d.gap == (if k == |vs| - 1 then Some(24) else Some(8))
      && Referenced(d) == Some(vs[k])
  {
    var rs := Reporters(vs, registered);
    assert rs[k] == Reporter(vs[k]);
  }

  /** A reporter run carries exactly the records of its loop, in loop order;
      without `data_variable` there is no run at all. */
  lemma ReporterRunRecords(vs: seq<VariableModel>, registered: set<BlockType>)
    ensures DataVariable !in registered ==> ReporterRun(vs, registered) == []
    ensures forall d :: d in ReporterRun(vs, registered) ==> Referenced(d).Some?
    ensures DataVariable in registered ==> RecordsOf(ReporterRun(vs, registered)) == vs
  {
    if DataVariable in registered {
      forall k | 0 <= k < |vs|
        ensures Referenced(ReporterRun(vs, registered)[k]) == Some(vs[k])
      {
        ReporterRunAt(vs, registered, k);
      }
    }
  }

  /** Given that the loops run over sorted permutations of the variables (as
      `BuildFlyout` ensures), the scalar and list reporters of the palette
      refer to the variables of their type, each as often, in non-decreasing
      name order. */
  lemma ReportersSortedByName(ss: seq<VariableModel>, ls: seq<VariableModel>, registered: set<BlockType>,
                              msg: Messages, scalarVariables: seq<VariableModel>,
                              listVariables: seq<VariableModel>, le: (string, string) -> bool)
    requires IsSortedPermutation(ss, scalarVariables, le) && IsSortedPermutation(ls, listVariables, le)
    requires DataVariable in registered
    ensures var r := Flyout(ss, ls, registered, msg);
      var p := ListButtonIndex(ss, registered);
      && |ss| < p < |r| && p + 1 + |ls| <= |r|
      && (forall d :: d in r[1..1 + |ss|] ==> Referenced(d).Some?)
      && (forall d :: d in r[p + 1..p + 1 + |ls|] ==> Referenced(d).Some?)
      && IsSortedPermutation(RecordsOf(r[1..1 + |ss|]), scalarVariables, le)
      && IsSortedPermutation(RecordsOf(r[p + 1..p + 1 + |ls|]), listVariables, le)
  {
    var r, p := Flyout(ss, ls, registered, msg), ListButtonIndex(ss, registered);
    var a, c := ReporterRun(ss, registered), ReporterRun(ls, registered);
    FlyoutSlices(ss, ls, registered, msg);
    ReporterRunRecords(ss, registered);
    ReporterRunRecords(ls, registered);
    assert |a| == |RecordsOf(a)| == |ss| && |c| == |RecordsOf(c)| == |ls|;
    assert r[1..1 + |ss|] == a && r[p + 1..p + 1 + |ls|] == c;
  }

  /** The palette holds exactly two buttons: the create-variable button
      first and the create-list button at ListButtonIndex, after all scalar
      content and before all list content. The create-list button carries
      the wide gap exactly when list variables exist but no list reporter
      follows it. */
  lemma FlyoutButtons(ss: seq<VariableModel>, ls: seq<VariableModel>, registered: set<BlockType>, msg: Messages)
    ensures var r := Flyout(ss, ls, registered, msg);
      var p := ListButtonIndex(ss, registered);
      && 0 < p < |r|
      && r[0] == Button(msg.newVariable, CreateVariable, None)
      && r[p].Button? && r[p].text == msg.newList && r[p].callbackKey == CreateList
      && r[p].gap == (if |ls| > 0 && DataVariable !in registered then Some(24) else None)
      && (forall i :: 0 <= i < |r| && r[i].Button? ==> i == 0 || i == p)
  {
    var r := Flyout(ss, ls, registered, msg);
    var x, a, b := NewVariableButton(msg), ReporterRun(ss, registered), ScalarBlocks(ss, registered);
    var y, c, d := ListButton(ls, registered, msg), ReporterRun(ls, registered), ListBlocks(ls, registered);
    FlyoutSlices(ss, ls, registered, msg);
    FlyoutParts(ss, ls, registered, msg);
    ReporterRunRecords(ss, registered);
    ReporterRunRecords(ls, registered);
    if |ss| > 0 {
      GatedReferTo(ScalarTemplates, ss[0], registered);
    }
    if |ls| > 0 {
      GatedReferTo(ListTemplates, ls[0], registered);
    }
    ButtonsAt(r, x, a, b, y, c, d, ListButtonIndex(ss, registered));
  }

  /** Every element of `ds` is a block. */
  ghost predicate AllBlocks(ds: seq<Descriptor>) {
    forall d :: d in ds ==> d.Block?
  }

  /** In a sequence made of an element, two runs of blocks, an element and
      two more runs of blocks, only the two single elements can be buttons. */
  lemma ButtonsAt(r: seq<Descriptor>, x: Descriptor, a: seq<Descriptor>, b: seq<Descriptor>,
                  y: Descriptor, c: seq<Descriptor>, d: seq<Descriptor>, p: int)
    requires r == [x] + a + b + [y] + c + d && p == 1 + |a| + |b|
    requires AllBlocks(a) && AllBlocks(b) && AllBlocks(c) && AllBlocks(d)
    ensures forall i :: 0 <= i < |r| && r[i].Button? ==> i == 0 || i == p
  {
    forall i | 0 <= i < |r| && i != 0 && i != p
      ensures r[i].Block?
    {
      if i < 1 + |a| {
        assert r[i] == a[i - 1];
      } else if i < p {
        assert r[i] == b[i - 1 - |a|];
      } else if i < p + 1 + |c| {
        assert r[i] == c[i - p - 1];
      } else {
        assert r[i] == d[i - p - 1 - |c|];
      }
    }
  }

  /** Length: the two buttons, one reporter per variable when `data_variable`
      is registered, and the templates that appear (at most four scalar and
      nine list ones). */
  lemma FlyoutLength(ss: seq<VariableModel>, ls: seq<VariableModel>, registered: set<BlockType>, msg: Messages)
    ensures |Flyout(ss, ls, registered, msg)|
         == 2 + (if DataVariable in registered then |ss| + |ls| else 0)
              + |ScalarBlocks(ss, registered)| + |ListBlocks(ls, registered)|
    ensures |ScalarBlocks(ss, registered)| <= 4 && |ListBlocks(ls, registered)| <= 9
  {
    FlyoutSlices(ss, ls, registered, msg);
    if |ss| > 0 {
      GatedLength(ScalarTemplates, ss[0], registered);
    }
    if |ls| > 0 {
      GatedLength(ListTemplates, ls[0], registered);
    }
  }

  /** Without `data_variable` the palette is the two buttons and the list
      templates: no reporter, and no scalar template even when scalar
      variables exist, since the scalar templates wait for a reporter. */
  lemma UnregisteredVariableBlock(ss: seq<VariableModel>, ls: seq<VariableModel>, registered: set<BlockType>,
                                  msg: Messages)
    requires DataVariable !in registered
    ensures Flyout(ss, ls, registered, msg)
         == [NewVariableButton(msg), ListButton(ls, registered, msg)] + ListBlocks(ls, registered)
  {
    FlyoutParts(ss, ls, registered, msg);
    ReporterRunRecords(ss, registered);
    ReporterRunRecords(ls, registered);
  }

  /** The last scalar reporter, the element just before the scalar
      templates, carries gap 24 and refers to the last sorted scalar
      variable. */
  lemma ScalarWideGap(ss: seq<VariableModel>, ls: seq<VariableModel>, registered: set<BlockType>, msg: Messages)
    requires DataVariable in registered && |ss| > 0
    ensures var r := Flyout(ss, ls, registered, msg);
      |ss| < |r| && r[|ss|].gap == Some(24) && Referenced(r[|ss|]) == Some(ss[|ss| - 1])
  {
    var r := Flyout(ss, ls, registered, msg);
    var a := ReporterRun(ss, registered);
    ScalarReportersSlice(ss, ls, registered, msg);
    ReporterRunAt(ss, registered, |ss| - 1);
    RunElement(r, a, 1, |ss| - 1, |ss|);
  }

  /** The scalar reporter run sits right after the create-variable button. */
  lemma ScalarReportersSlice(ss: seq<VariableModel>, ls: seq<VariableModel>, registered: set<BlockType>,
                             msg: Messages)
    ensures var r := Flyout(ss, ls, registered, msg);
      1 + |ReporterRun(ss, registered)| <= |r| && r[1..1 + |ReporterRun(ss, registered)|] == ReporterRun(ss, registered)
  {
    FlyoutSlices(ss, ls, registered, msg);
  }

  /** With list variables, the element just before the list templates
      carries gap 24: the last list reporter, referring to the last sorted
      list variable, or, without `data_variable`, the create-list button. */
  lemma ListWideGap(ss: seq<VariableModel>, ls: seq<VariableModel>, registered: set<BlockType>, msg: Messages)
    requires |ls| > 0
    ensures var r := Flyout(ss, ls, registered, msg);
      var p := ListButtonIndex(ss, registered);
      var q := |r| - |ListBlocks(ls, registered)| - 1;
      && p <= q < |r| && r[q].gap == Some(24)
      && (DataVariable in registered ==> q == p + |ls| && Referenced(r[q]) == Some(ls[|ls| - 1]))
      && (DataVariable !in registered ==> q == p)
  {
    var r := Flyout(ss, ls, registered, msg);
    var p := ListButtonIndex(ss, registered);
    var c := ReporterRun(ls, registered);
    FlyoutSlices(ss, ls, registered, msg);
    if DataVariable in registered {
      ReporterRunAt(ls, registered, |ls| - 1);
      RunElement(r, c, p + 1, |ls| - 1, p + |ls|);
    } else {
      ReporterRunRecords(ls, registered);
    }
  }

  /** An element of a run sits at the run's offset in the whole sequence. */
  lemma RunElement(r: seq<Descriptor>, a: seq<Descriptor>, lo: nat, i: nat, j: nat)
    requires lo + |a| <= |r| && r[lo..lo + |a|] == a && i < |a| && j == lo + i
    ensures j < |r| && r[j] == a[i]
  {
    assert r[lo..lo + |a|][i] == r[j];
  }

  /** The value inputs each scalar operation block carries after its
      variable field: a text value for "set", a number value for "change". */
  function ScalarInputs(b: BlockType): seq<Child> {
    match b
    case DataSetVariableTo => [TextDom]
    case DataChangeVariableBy => [MathNumberDom]
    case _ => []
  }

  /** The value inputs each list operation block carries after its variable
      field: INDEX (a `math_integer` shadow holding 1) and/or ITEM (a `text`
      shadow holding "thing"). */
  function ListInputs(b: BlockType): seq<Child> {
    match b
    case DataInsertAtList => [IndexInput, ItemInput]
    case DataReplaceItemOfList => [IndexInput, ItemInput]
    case DataDeleteOfList => [IndexInput]
    case DataItemOfList => [IndexInput]
    case DataAddToList => [ItemInput]
    case DataListContainsItem => [ItemInput]
    case _ => []
  }

  /** The scalar operation block types: set, change, show and hide. */
  predicate IsScalarOperation(b: BlockType) {
    b == DataSetVariableTo || b == DataChangeVariableBy || b == DataShowVariable || b == DataHideVariable
  }

  /** The list operation block types. */
  predicate IsListOperation(b: BlockType) {
    || b == DataAddToList || b == DataDeleteOfList || b == DataInsertAtList || b == DataReplaceItemOfList
    || b == DataItemOfList || b == DataLengthOfList || b == DataListContainsItem || b == DataShowList
    || b == DataHideList
  }

  /** Each scalar operation block: a registered scalar operation type, gap 8
      except "hide", which has none, no id, the first sorted scalar variable
      as its field, then its value inputs. Without `data_variable` or without
      scalar variables there are none. */
  lemma ScalarBlocksShape(ss: seq<VariableModel>, registered: set<BlockType>)
    ensures DataVariable !in registered || |ss| == 0 ==> ScalarBlocks(ss, registered) == []
    ensures forall d :: |ss| > 0 && d in ScalarBlocks(ss, registered) ==>
      && d.Block? && IsScalarOperation(d.blockType) && d.blockType in registered
      && d.gap == (if d.blockType == DataHideVariable then None else Some(8))
      && d.id == None
      && d.children == [VariableRef(ss[0])] + ScalarInputs(d.blockType)
  {
    if DataVariable in registered && |ss| > 0 {
      GatedMembers(ScalarTemplates, ss[0], registered);
      forall d | d in ScalarBlocks(ss, registered)
        ensures && d.Block? && IsScalarOperation(d.blockType) && d.blockType in registered
                && d.gap == (if d.blockType == DataHideVariable then None else Some(8))
                && d.id == None
                && d.children == [VariableRef(ss[0])] + ScalarInputs(d.blockType)
      {
        var t :| t in ScalarTemplates && t.blockType in registered && d == Instantiate(t, ss[0]);
        ScalarTemplateRow(t);
      }
    }
  }

  /** Each row of the scalar table: a scalar operation with gap 8, or none
      for "hide", and the inputs ScalarInputs gives for its type. */
  lemma ScalarTemplateRow(t: Template)
    requires t in ScalarTemplates
    ensures IsScalarOperation(t.blockType)
    ensures t.gap == (if t.blockType == DataHideVariable then None else Some(8))
    ensures t.values == ScalarInputs(t.blockType)
  {
    assert t == SetVariableTo || t == ChangeVariableBy || t == ShowVariable || t == HideVariable;
  }

  /** The block of each scalar template appears exactly when `data_variable`
      and the template's own block type are registered. */
  lemma ScalarBlocksGating(ss: seq<VariableModel>, registered: set<BlockType>)
    requires |ss| > 0
    ensures forall t :: t in ScalarTemplates ==>
      (Instantiate(t, ss[0]) in ScalarBlocks(ss, registered) <==> DataVariable in registered && t.blockType in registered)
  {
    GatedContains(ScalarTemplates, ss[0], registered);
  }

  /** No block type occurs twice in the scalar table. */
  lemma ScalarTemplatesDistinct()
    ensures DistinctTypes(ScalarTemplates)
  {
    forall i, j | 0 <= i < j < |ScalarTemplates|
      ensures ScalarTemplates[i].blockType != ScalarTemplates[j].blockType
    {
    }
  }

  /** The scalar operation blocks keep the order set, change, show, hide. */
  lemma ScalarBlocksInOrder(ss: seq<VariableModel>, registered: set<BlockType>)
    ensures InTableOrder(ScalarBlocks(ss, registered), ScalarTemplates)
  {
    if DataVariable in registered && |ss| > 0 {
      ScalarTemplatesDistinct();
      GatedInTableOrder(ScalarTemplates, ss[0], registered);
    }
  }

  /** Every scalar operation block refers to a scalar variable whose name is
      least under the comparator. */
  lemma ScalarBlocksReferToLeast(ss: seq<VariableModel>, registered: set<BlockType>,
                                 scalarVariables: seq<VariableModel>, le: (string, string) -> bool)
    requires TotalPreorder(le) && IsSortedPermutation(ss, scalarVariables, le)
    ensures forall d :: d in ScalarBlocks(ss, registered) ==>
      && Referenced(d).Some? && Referenced(d).value in scalarVariables
      && (forall v :: v in scalarVariables ==> le(Referenced(d).value.name, v.name))
  {
    if DataVariable in registered && |ss| > 0 {
      GatedReferTo(ScalarTemplates, ss[0], registered);
      FirstIsLeast(ss, scalarVariables, le);
    }
  }

  /** Each list operation block: a registered list operation type, gap 8,
      no id, the first sorted list variable as its field, then its value
      inputs with their default shadows. Without list variables there are
      none, whether or not `data_variable` is registered. */
  lemma ListBlocksShape(ls: seq<VariableModel>, registered: set<BlockType>)
    ensures |ls| == 0 ==> ListBlocks(ls, registered) == []
    ensures forall d :: |ls| > 0 && d in ListBlocks(ls, registered) ==>
      && d.Block? && IsListOperation(d.blockType) && d.blockType in registered
      && d.gap == Some(8) && d.id == None
      && d.children == [VariableRef(ls[0])] + ListInputs(d.blockType)
  {
    if |ls| > 0 {
      forall d | d in ListBlocks(ls, registered)
        ensures && d.Block? && IsListOperation(d.blockType) && d.blockType in registered
                && d.gap == Some(8) && d.id == None
                && d.children == [VariableRef(ls[0])] + ListInputs(d.blockType)
      {
        ListBlockOf(ls[0], registered, d);
      }
    }
  }

  /** One emitted list block, traced back to its row of the list table. */
  lemma ListBlockOf(v: VariableModel, registered: set<BlockType>, d: Descriptor)
    requires d in Gated(ListTemplates, v, registered)
    ensures && d.Block? && IsListOperation(d.blockType) && d.blockType in registered
            && d.gap == Some(8) && d.id == None
            && d.children == [VariableRef(v)] + ListInputs(d.blockType)
  {
    GatedMembers(ListTemplates, v, registered);
    var t :| t in ListTemplates && t.blockType in registered && d == Instantiate(t, v);
    var k :| 0 <= k < |ListTemplates| && ListTemplates[k] == t;
    ListTemplateRow(k);
  }

  /** Each row of the list table: a list operation with gap 8 and the inputs
      ListInputs gives for its type. */
  lemma ListTemplateRow(k: nat)
    requires k < |ListTemplates|
    ensures var t := ListTemplates[k];
      IsListOperation(t.blockType) && t.gap == Some(8) && t.values == ListInputs(t.blockType)
  {
  }

  /** The block of each list template appears exactly when its own block type
      is registered. */
  lemma ListBlocksGating(ls: seq<VariableModel>, registered: set<BlockType>)
    requires |ls| > 0
    ensures forall t :: t in ListTemplates ==>
      (Instantiate(t, ls[0]) in ListBlocks(ls, registered) <==> t.blockType in registered)
  {
    GatedContains(ListTemplates, ls[0], registered);
  }

  /** No block type occurs twice in the list table. */
  lemma ListTemplatesDistinct()
    ensures DistinctTypes(ListTemplates)
  {
    forall i, j | 0 <= i < j < |ListTemplates|
      ensures ListTemplates[i].blockType != ListTemplates[j].blockType
    {
    }
  }

  /** The list operation blocks keep the order add, delete, insert, replace,
      item, length, contains, show, hide. */
  lemma ListBlocksInOrder(ls: seq<VariableModel>, registered: set<BlockType>)
    ensures InTableOrder(ListBlocks(ls, registered), ListTemplates)
  {
    if |ls| > 0 {
      ListTemplatesDistinct();
      GatedInTableOrder(ListTemplates, ls[0], registered);
    }
  }

  /** Every list operation block refers to a list variable whose name is
      least under the comparator. */
  lemma ListBlocksReferToLeast(ls: seq<VariableModel>, registered: set<BlockType>,
                               listVariables: seq<VariableModel>, le: (string, string) -> bool)
    requires TotalPreorder(le) && IsSortedPermutation(ls, listVariables, le)
    ensures forall d :: d in ListBlocks(ls, registered) ==>
      && Referenced(d).Some? && Referenced(d).value in listVariables
      && (forall v :: v in listVariables ==> le(Referenced(d).value.name, v.name))
  {
    if |ls| > 0 {
      GatedReferTo(ListTemplates, ls[0], registered);
      FirstIsLeast(ls, listVariables, le);
    }
  }
}
