/**
 * `Blockly.DataFlyout(workspace)`: the contents of the "Variables" category
 * flyout, built from the workspace's scalar and list variables.
 *
 * `Flyout` says what the palette is for lists that are already sorted;
 * `BuildFlyout` is the JavaScript function itself (sort in place, push,
 * rewrite the gap of the last element) and is proved to return `Flyout` of
 * some sorted permutation of its inputs. `FlyoutParts` splits the palette
 * into its named runs; the module FlyoutProperties states what each run
 * holds.
 */
module DataFlyout {
  import opened VariableModels
  import opened Descriptors

  /** The localized button labels (`Blockly.Msg.NEW_VARIABLE`, `NEW_LIST`). */
  datatype Messages = Messages(newVariable: string, newList: string)

  function NewVariableButton(msg: Messages): Descriptor {
    Button(msg.newVariable, CreateVariable, None)
  }

  function NewListButton(msg: Messages): Descriptor {
    Button(msg.newList, CreateList, None)
  }

  // Scalar operation templates, in the order they are pushed. The value
  // children of "set" and "change" come from helpers outside this model.
  const SetVariableTo := Template(DataSetVariableTo, Some(8), [TextDom])
  const ChangeVariableBy := Template(DataChangeVariableBy, Some(8), [MathNumberDom])
  const ShowVariable := Template(DataShowVariable, Some(8), [])
  /** Created without a gap attribute. */
  const HideVariable := Template(DataHideVariable, None, [])
  const ScalarTemplates := [SetVariableTo, ChangeVariableBy, ShowVariable, HideVariable]

  /** `<value name="INDEX">` holding a `math_integer` shadow with NUM 1. */
  const IndexInput := Value("INDEX", Shadow("math_integer", "NUM", "1"))
  /** `<value name="ITEM">` holding a `text` shadow with TEXT "thing". */
  const ItemInput := Value("ITEM", Shadow("text", "TEXT", "thing"))

  // List operation templates, in the order they are pushed; all with gap 8.
  const AddToList := Template(DataAddToList, Some(8), [ItemInput])
  const DeleteOfList := Template(DataDeleteOfList, Some(8), [IndexInput])
  const InsertAtList := Template(DataInsertAtList, Some(8), [IndexInput, ItemInput])
  const ReplaceItemOfList := Template(DataReplaceItemOfList, Some(8), [IndexInput, ItemInput])
  const ItemOfList := Template(DataItemOfList, Some(8), [IndexInput])
  const LengthOfList := Template(DataLengthOfList, Some(8), [])
  const ListContainsItem := Template(DataListContainsItem, Some(8), [ItemInput])
  const ShowList := Template(DataShowList, Some(8), [])
  const HideList := Template(DataHideList, Some(8), [])
  const ListTemplates := [AddToList, DeleteOfList, InsertAtList, ReplaceItemOfList, ItemOfList,
                          LengthOfList, ListContainsItem, ShowList, HideList]

  /** The reporters one variable loop pushes: one per record, in list order,
      when `data_variable` is registered, and none otherwise. */
  function Reporters(vs: seq<VariableModel>, registered: set<BlockType>): seq<Descriptor> {
    if DataVariable in registered then seq(|vs|, k requires 0 <= k < |vs| => Reporter(vs[k])) else []
  }

  /** `xs[xs.length - 1].setAttribute('gap', g)`. */
  function LastGap(xs: seq<Descriptor>, g: int): seq<Descriptor>
    requires |xs| > 0
  {
    xs[|xs| - 1 := WithGap(xs[|xs| - 1], g)]
  }

  /** Everything pushed up to and including the scalar templates: the
      create-variable button, the scalar reporters, and, when the list holds
      more than the button, the gap-24 rewrite of its last element and the
      scalar templates for the first record. */
  function ScalarSection(ss: seq<VariableModel>, registered: set<BlockType>, msg: Messages): seq<Descriptor> {
    var pushed := [NewVariableButton(msg)] + Reporters(ss, registered);
    if |pushed| > 1 then LastGap(pushed, 24) + Gated(ScalarTemplates, ss[0], registered)
    else pushed
  }

  /** `xs` followed by what is pushed from the create-list button on: the
      button, the list reporters, and, when there is a list variable, the
      gap-24 rewrite of the then last element and the list templates. */
  function ListSection(xs: seq<Descriptor>, ls: seq<VariableModel>, registered: set<BlockType>,
                       msg: Messages): seq<Descriptor>
  {
    var pushed := xs + [NewListButton(msg)] + Reporters(ls, registered);
    if |ls| > 0 then LastGap(pushed, 24) + Gated(ListTemplates, ls[0], registered)
    else pushed
  }

  /** The palette for the scalar variables `ss` and the list variables `ls`,
      both already sorted. */
  function Flyout(ss: seq<VariableModel>, ls: seq<VariableModel>, registered: set<BlockType>,
                  msg: Messages): seq<Descriptor>
  {
    ListSection(ScalarSection(ss, registered, msg), ls, registered, msg)
  }

  /** `Blockly.DataFlyout`. `scalarVariables` and `listVariables` are what
      `workspace.getVariablesOfType('')` and `('list')` return; `registered`
      holds the block types present in `Blockly.Blocks`; `le` is the name
      comparator. The result is the palette of some sorted permutation of
      each list, whichever order the sort leaves names that compare equal in. */
  method BuildFlyout(scalarVariables: seq<VariableModel>, listVariables: seq<VariableModel>,
                     registered: set<BlockType>, msg: Messages, le: (string, string) -> bool)
    returns (xmlList: seq<Descriptor>)
    requires TotalPreorder(le)
    ensures exists ss, ls :: && IsSortedPermutation(ss, scalarVariables, le)
                             && IsSortedPermutation(ls, listVariables, le)
                             && xmlList == Flyout(ss, ls, registered, msg)
  {
    ghost var ss, ls;
    xmlList, ss := BuildScalarSection(scalarVariables, registered, msg, le);
    xmlList, ls := PushListSection(xmlList, listVariables, registered, msg, le);
    assert IsSortedPermutation(ss, scalarVariables, le) && IsSortedPermutation(ls, listVariables, le)
        && xmlList == Flyout(ss, ls, registered, msg);
  }

  /** Lines 44-139: sort the scalar records, push the create-variable button
      and one reporter per record, then, if anything follows the button,
      widen the gap after the last reporter and push the scalar templates.
      `ss` is the sorted order the sort produced. */
  method BuildScalarSection(scalarVariables: seq<VariableModel>, registered: set<BlockType>,
                            msg: Messages, le: (string, string) -> bool)
    returns (xmlList: seq<Descriptor>, ghost ss: seq<VariableModel>)
    requires TotalPreorder(le)
    ensures IsSortedPermutation(ss, scalarVariables, le)
    ensures xmlList == ScalarSection(ss, registered, msg)
  {
    var variableModelList := SortedVariables(scalarVariables, le);
    ss := variableModelList[..];
    xmlList := [NewVariableButton(msg)];
    xmlList := PushReporters(xmlList, variableModelList, registered);
    if |xmlList| > 1 {  // the button is always there
      ghost var reported := xmlList;
      xmlList := xmlList[|xmlList| - 1 := WithGap(xmlList[|xmlList| - 1], 24)];
      xmlList := PushScalarTemplates(xmlList, variableModelList[0], registered);
      ScalarPushesAreGated(LastGap(reported, 24), variableModelList[0], registered);
    }
  }

  /** Lines 142-376: push the create-list button, sort the list records,
      push one reporter per record, then, if there is a list record, widen
      the gap after the last element and push the list templates. */
  method PushListSection(xmlList: seq<Descriptor>, listVariables: seq<VariableModel>,
                         registered: set<BlockType>, msg: Messages, le: (string, string) -> bool)
    returns (pushed: seq<Descriptor>, ghost ls: seq<VariableModel>)
    requires TotalPreorder(le)
    ensures IsSortedPermutation(ls, listVariables, le)
    ensures pushed == ListSection(xmlList, ls, registered, msg)
  {
    pushed := xmlList + [NewListButton(msg)];
    var variableModelList := SortedVariables(listVariables, le);
    ls := variableModelList[..];
    pushed := PushReporters(pushed, variableModelList, registered);
    ghost var reported := pushed;
    assert reported == xmlList + [NewListButton(msg)] + Reporters(ls, registered);
    if variableModelList.Length > 0 {
      pushed := pushed[|pushed| - 1 := WithGap(pushed[|pushed| - 1], 24)];
      assert pushed == LastGap(reported, 24);
      pushed := PushListTemplates(pushed, variableModelList[0], registered);
      ListPushesAreGated(LastGap(reported, 24), variableModelList[0], registered);
    }
  }

  /** Lines 44-45 and 154-155: the records of one type, in a fresh array
      sorted in place by name. */
  method SortedVariables(variables: seq<VariableModel>, le: (string, string) -> bool)
    returns (variableModelList: array<VariableModel>)
    requires TotalPreorder(le)
    ensures fresh(variableModelList)
    ensures IsSortedPermutation(variableModelList[..], variables, le)
  {
    variableModelList := ToArray(variables);
    SortByName(variableModelList, le);
  }

  /** The loop over the sorted records (lines 58-76 and 156-174): one
      reporter per record, in array order, when `data_variable` is registered. */
  method PushReporters(xmlList: seq<Descriptor>, variableModelList: array<VariableModel>,
                       registered: set<BlockType>)
    returns (pushed: seq<Descriptor>)
    ensures pushed == xmlList + Reporters(variableModelList[..], registered)
  {
    pushed := xmlList;
    for i := 0 to variableModelList.Length
      invariant pushed == xmlList + Reporters(variableModelList[..i], registered)
    {
      if DataVariable in registered {
        pushed := pushed + [Reporter(variableModelList[i])];
      }
      assert variableModelList[..i + 1] == variableModelList[..i] + [variableModelList[i]];
    }
    assert variableModelList[..variableModelList.Length] == variableModelList[..];
  }

  /** One guarded template push: when the template's block type is
      registered, its block for `first` is built and pushed. */
  method PushTemplate(xmlList: seq<Descriptor>, t: Template, first: VariableModel, registered: set<BlockType>)
    returns (pushed: seq<Descriptor>)
    ensures pushed == xmlList + Emit(t, first, registered)
  {
    pushed := xmlList;
    if t.blockType in registered {
      pushed := pushed + [Instantiate(t, first)];
    }
  }

  /** The scalar templates (lines 81-139), each pushed only when its block
      type is registered, all for the first sorted record. */
  method PushScalarTemplates(xmlList: seq<Descriptor>, first: VariableModel, registered: set<BlockType>)
    returns (pushed: seq<Descriptor>)
    ensures pushed == xmlList
                      + Emit(SetVariableTo, first, registered)
                      + Emit(ChangeVariableBy, first, registered)
                      + Emit(ShowVariable, first, registered)
                      + Emit(HideVariable, first, registered)
  {
    pushed := PushTemplate(xmlList, SetVariableTo, first, registered);
    pushed := PushTemplate(pushed, ChangeVariableBy, first, registered);
    pushed := PushTemplate(pushed, ShowVariable, first, registered);
    pushed := PushTemplate(pushed, HideVariable, first, registered);
  }

  /** The list templates (lines 179-375), each pushed only when its block
      type is registered, all for the first sorted record. */
  method PushListTemplates(xmlList: seq<Descriptor>, first: VariableModel, registered: set<BlockType>)
    returns (pushed: seq<Descriptor>)
    ensures pushed == xmlList
                      + Emit(AddToList, first, registered)
                      + Emit(DeleteOfList, first, registered)
                      + Emit(InsertAtList, first, registered)
                      + Emit(ReplaceItemOfList, first, registered)
                      + Emit(ItemOfList, first, registered)
                      + Emit(LengthOfList, first, registered)
                      + Emit(ListContainsItem, first, registered)
                      + Emit(ShowList, first, registered)
                      + Emit(HideList, first, registered)
  {
    pushed := PushTemplate(xmlList, AddToList, first, registered);
    pushed := PushTemplate(pushed, DeleteOfList, first, registered);
    pushed := PushTemplate(pushed, InsertAtList, first, registered);
    pushed := PushTemplate(pushed, ReplaceItemOfList, first, registered);
    pushed := PushTemplate(pushed, ItemOfList, first, registered);
    pushed := PushTemplate(pushed, LengthOfList, first, registered);
    pushed := PushTemplate(pushed, ListContainsItem, first, registered);
    pushed := PushTemplate(pushed, ShowList, first, registered);
    pushed := PushTemplate(pushed, HideList, first, registered);
  }

  /** The four guarded scalar pushes append exactly the gated scalar table. */
  lemma ScalarPushesAreGated(xs: seq<Descriptor>, v: VariableModel, registered: set<BlockType>)
    ensures xs
            + Emit(SetVariableTo, v, registered)
            + Emit(ChangeVariableBy, v, registered)
            + Emit(ShowVariable, v, registered)
            + Emit(HideVariable, v, registered)
         == xs + Gated(ScalarTemplates, v, registered)
  {
    var ts := ScalarTemplates;
    assert ts[..0] == [] && xs + Gated(ts[..0], v, registered) == xs;
    AppendFour(xs, ts, 0, v, registered);
    assert ts[..4] == ts;
  }

  /** The nine guarded list pushes append exactly the gated list table. */
  lemma ListPushesAreGated(xs: seq<Descriptor>, v: VariableModel, registered: set<BlockType>)
    ensures xs
            + Emit(AddToList, v, registered)
            + Emit(DeleteOfList, v, registered)
            + Emit(InsertAtList, v, registered)
            + Emit(ReplaceItemOfList, v, registered)
            + Emit(ItemOfList, v, registered)
            + Emit(LengthOfList, v, registered)
            + Emit(ListContainsItem, v, registered)
            + Emit(ShowList, v, registered)
            + Emit(HideList, v, registered)
         == xs + Gated(ListTemplates, v, registered)
  {
    AppendNine(xs, ListTemplates, v, registered);
  }

  /** A run of reporters as it ends up in the palette: the last one has had
      its gap widened to 24. */
  function ReporterRun(vs: seq<VariableModel>, registered: set<BlockType>): seq<Descriptor> {
    var rs := Reporters(vs, registered);
    if |rs| > 0 then LastGap(rs, 24) else []
  }

  /** The scalar operation templates that appear: only after at least one
      scalar reporter, all for the first sorted scalar variable. */
  function ScalarBlocks(ss: seq<VariableModel>, registered: set<BlockType>): seq<Descriptor> {
    if DataVariable in registered && |ss| > 0 then Gated(ScalarTemplates, ss[0], registered) else []
  }

  /** The create-list button as it ends up in the palette: it takes the
      gap-24 rewrite when list variables exist but no list reporter was
      pushed after it. */
  function ListButton(ls: seq<VariableModel>, registered: set<BlockType>, msg: Messages): Descriptor {
    if |ls| > 0 && DataVariable !in registered then WithGap(NewListButton(msg), 24) else NewListButton(msg)
  }

  /** The list operation templates that appear: only when a list variable
      exists, all for the first sorted list variable. */
  function ListBlocks(ls: seq<VariableModel>, registered: set<BlockType>): seq<Descriptor> {
    if |ls| > 0 then Gated(ListTemplates, ls[0], registered) else []
  }

  /** The gap rewrite removes and reorders nothing: it changes only the gap
      of the current last element. */
  lemma LastGapChangesOnlyLast(xs: seq<Descriptor>, g: int)
    requires |xs| > 0
    ensures |LastGap(xs, g)| == |xs|
    ensures LastGap(xs, g)[..|xs| - 1] == xs[..|xs| - 1]
    ensures LastGap(xs, g)[|xs| - 1] == xs[|xs| - 1].(gap := Some(g))
  {
  }

  /** Rewriting the gap of the last element of a concatenation rewrites the
      last element of its second part. */
  lemma LastGapOfAppend(xs: seq<Descriptor>, ys: seq<Descriptor>, g: int)
    requires |ys| > 0
    ensures LastGap(xs + ys, g) == xs + LastGap(ys, g)
  {
    assert |LastGap(xs + ys, g)| == |xs + LastGap(ys, g)|;
    forall k | 0 <= k < |xs + ys|
      ensures LastGap(xs + ys, g)[k] == (xs + LastGap(ys, g))[k]
    {
      if k < |xs| {
        assert LastGap(xs + ys, g)[k] == xs[k];
      }
    }
  }

  /** Everything before the create-list button: the create-variable button,
      the scalar reporter run and the scalar templates. The gap-24 rewrite
      lands on the last scalar reporter, never on the button. */
  lemma ScalarSectionParts(ss: seq<VariableModel>, registered: set<BlockType>, msg: Messages)
    ensures ScalarSection(ss, registered, msg)
         == [NewVariableButton(msg)] + ReporterRun(ss, registered) + ScalarBlocks(ss, registered)
  {
    var rs := Reporters(ss, registered);
    if |rs| > 0 {
      LastGapOfAppend([NewVariableButton(msg)], rs, 24);
      assert DataVariable in registered && |ss| > 0;
    } else {
      assert ScalarBlocks(ss, registered) == [];
    }
  }

  /** What the list section appends: the create-list button, the list
      reporter run and the list templates. The gap-24 rewrite lands on the
      last list reporter, or on the button when there is none. */
  lemma ListSectionParts(xs: seq<Descriptor>, ls: seq<VariableModel>, registered: set<BlockType>, msg: Messages)
    ensures ListSection(xs, ls, registered, msg)
         == xs + [ListButton(ls, registered, msg)] + ReporterRun(ls, registered) + ListBlocks(ls, registered)
  {
    var rs := Reporters(ls, registered);
    var head := xs + [NewListButton(msg)];
    if |ls| > 0 {
      if |rs| > 0 {
        LastGapOfAppend(head, rs, 24);
      } else {
        assert head + rs == head;
        LastGapOfAppend(xs, [NewListButton(msg)], 24);
      }
    } else {
      assert rs == [] && head + rs == head;
    }
  }

  /** The whole palette as its named runs. */
  lemma FlyoutParts(ss: seq<VariableModel>, ls: seq<VariableModel>, registered: set<BlockType>, msg: Messages)
    ensures Flyout(ss, ls, registered, msg)
         == [NewVariableButton(msg)] + ReporterRun(ss, registered) + ScalarBlocks(ss, registered)
            + [ListButton(ls, registered, msg)] + ReporterRun(ls, registered) + ListBlocks(ls, registered)
  {
    ScalarSectionParts(ss, registered, msg);
    ListSectionParts(ScalarSection(ss, registered, msg), ls, registered, msg);
  }
}
