/**
 * The palette descriptors the "Variables" flyout returns, as values instead
 * of DOM elements: buttons and blocks, the children of a block, and the
 * fixed operation templates that are instantiated for one variable.
 */
module Descriptors {
  import opened VariableModels

  datatype Option<T> = None | Some(value: T)

  /** `<shadow type=shadowType><field name=fieldName>text</field></shadow>`:
      the default value held by a value input. */
  datatype Shadow = Shadow(shadowType: string, fieldName: string, text: string)

  /** A child element of a block. */
  datatype Child =
      /** `<field name=name variableType=.. id=..>text</field>`, written out
          inline by the reporter loops. */
    | Field(name: string, variableType: string, id: string, text: string)
      /** The variable-reference field built from a record by the helpers
          `createVariableDom_` and `generateVariableFieldXml_`, whose bodies
          are not part of this model. */
    | VariableRef(variable: VariableModel)
      /** `<value name=name>` wrapping a shadow block. */
    | Value(name: string, shadow: Shadow)
      /** What `createTextDom_` returns (body not part of this model). */
    | TextDom
      /** What `createMathNumberDom_` returns (body not part of this model). */
    | MathNumberDom

  /** The block types the flyout emits, i.e. the keys of `Blockly.Blocks` it
      looks up. `TypeName` gives the string each one stands for. */
  datatype BlockType =
    | DataVariable
    | DataSetVariableTo | DataChangeVariableBy | DataShowVariable | DataHideVariable
    | DataAddToList | DataDeleteOfList | DataInsertAtList | DataReplaceItemOfList
    | DataItemOfList | DataLengthOfList | DataListContainsItem | DataShowList | DataHideList

  function TypeName(b: BlockType): string {
    match b
    case DataVariable => "data_variable"
    case DataSetVariableTo => "data_setvariableto"
    case DataChangeVariableBy => "data_changevariableby"
    case DataShowVariable => "data_showvariable"
    case DataHideVariable => "data_hidevariable"
    case DataAddToList => "data_addtolist"
    case DataDeleteOfList => "data_deleteoflist"
    case DataInsertAtList => "data_insertatlist"
    case DataReplaceItemOfList => "data_replaceitemoflist"
    case DataItemOfList => "data_itemoflist"
    case DataLengthOfList => "data_lengthoflist"
    case DataListContainsItem => "data_listcontainsitem"
    case DataShowList => "data_showlist"
    case DataHideList => "data_hidelist"
  }

  /** Distinct block types stand for distinct `Blockly.Blocks` keys. */
  lemma TypeNameInjective(a: BlockType, b: BlockType)
    ensures TypeName(a) == TypeName(b) ==> a == b
  {
  }

  /** The `callbackKey` of a button. */
  datatype CallbackKey = CreateVariable | CreateList

  /** One palette element. `gap` is absent until something sets it. */
  datatype Descriptor =
    | Button(text: string, callbackKey: CallbackKey, gap: Option<int>)
    | Block(blockType: BlockType, gap: Option<int>, id: Option<string>, children: seq<Child>)

  /** `element.setAttribute('gap', g)`: works on buttons and blocks alike. */
  function WithGap(d: Descriptor, g: int): (r: Descriptor)
    ensures r.gap == Some(g)
    ensures r.Button? == d.Button?
    ensures r.Button? ==> r.text == d.text && r.callbackKey == d.callbackKey
    ensures r.Block? ==> r.blockType == d.blockType && r.id == d.id && r.children == d.children
  {
    d.(gap := Some(g))
  }

  /** The record a block refers to: the one named by its first child, which is
      the variable field of every block the flyout emits. */
  function Referenced(d: Descriptor): Option<VariableModel> {
    if d.Block? && |d.children| > 0 then
      match d.children[0]
      case Field(_, t, id, text) => Some(VariableModel(text, t, id))
      case VariableRef(v) => Some(v)
      case _ => None
    else None
  }

  /** The reporter the variable loops emit for one record: type `data_variable`,
      gap 8, id "VAR_" + name, and a VARIABLE field carrying the record. */
  function Reporter(v: VariableModel): (r: Descriptor)
    ensures r.Block? && r.blockType == DataVariable && r.gap == Some(8)
    ensures r.id == Some("VAR_" + v.name)
    ensures Referenced(r) == Some(v)
  {
    Block(DataVariable, Some(8), Some("VAR_" + v.name), [Field("VARIABLE", v.vtype, v.id, v.name)])
  }

  /** A fixed operation template: its block type, the gap it is created with,
      and the value inputs that follow its variable field. */
  datatype Template = Template(blockType: BlockType, gap: Option<int>, values: seq<Child>)

  /** A template instantiated for one variable: the variable field comes first. */
  function Instantiate(t: Template, v: VariableModel): (r: Descriptor)
    ensures r.Block? && r.blockType == t.blockType && r.gap == t.gap && r.id == None
    ensures Referenced(r) == Some(v) && r.children[1..] == t.values
  {
    Block(t.blockType, t.gap, None, [VariableRef(v)] + t.values)
  }

  /** The block types of a template table are pairwise distinct. */
  ghost predicate DistinctTypes(ts: seq<Template>) {
    forall i, j :: 0 <= i < j < |ts| ==> ts[i].blockType != ts[j].blockType
  }

  /** Position of the first template of type `blockType` (|ts| if none). */
  function Rank(ts: seq<Template>, blockType: BlockType): (k: nat)
    ensures k <= |ts|
    ensures forall i :: 0 <= i < k ==> ts[i].blockType != blockType
    ensures k < |ts| ==> ts[k].blockType == blockType
  {
    if ts == [] then 0
    else if ts[0].blockType == blockType then 0
    else 1 + Rank(ts[1..], blockType)
  }

  /** One guarded template: emitted only when its block type is registered. */
  function Emit(t: Template, v: VariableModel, registered: set<BlockType>): seq<Descriptor> {
    if t.blockType in registered then [Instantiate(t, v)] else []
  }

  /** A table of templates, each guarded by its own registration, in table
      order, all referring to `v`. */
  function Gated(ts: seq<Template>, v: VariableModel, registered: set<BlockType>): seq<Descriptor> {
    if ts == [] then [] else Emit(ts[0], v, registered) + Gated(ts[1..], v, registered)
  }

  /** Guarding one more template at the end of a table appends its block. */
  lemma {:induction false} GatedAppend(ts: seq<Template>, t: Template, v: VariableModel, registered: set<BlockType>)
    ensures Gated(ts + [t], v, registered) == Gated(ts, v, registered) + Emit(t, v, registered)
  {
    if ts == [] {
      assert ([] + [t])[1..] == [];
    } else {
      assert (ts + [t])[1..] == ts[1..] + [t];
      GatedAppend(ts[1..], t, v, registered);
    }
  }

  /** Guarding the templates of a table one by one, in order. */
  lemma GatedPrefixStep(ts: seq<Template>, k: nat, v: VariableModel, registered: set<BlockType>)
    requires k < |ts|
    ensures Gated(ts[..k + 1], v, registered) == Gated(ts[..k], v, registered) + Emit(ts[k], v, registered)
  {
    assert ts[..k + 1] == ts[..k] + [ts[k]];
    GatedAppend(ts[..k], ts[k], v, registered);
  }

  /** Appending the block of the next template of a table to `xs` followed
      by the blocks of the templates before it. */
  lemma AppendStep(xs: seq<Descriptor>, ts: seq<Template>, k: nat, v: VariableModel, registered: set<BlockType>)
    requires k < |ts|
    ensures xs + Gated(ts[..k], v, registered) + Emit(ts[k], v, registered) == xs + Gated(ts[..k + 1], v, registered)
  {
    GatedPrefixStep(ts, k, v, registered);
  }

  /** Four steps of AppendStep at once. */
  lemma AppendFour(xs: seq<Descriptor>, ts: seq<Template>, k: nat, v: VariableModel, registered: set<BlockType>)
    requires k + 4 <= |ts|
    ensures xs + Gated(ts[..k], v, registered) + Emit(ts[k], v, registered) + Emit(ts[k + 1], v, registered)
               + Emit(ts[k + 2], v, registered) + Emit(ts[k + 3], v, registered)
         == xs + Gated(ts[..k + 4], v, registered)
  {
    AppendStep(xs, ts, k, v, registered);
    AppendStep(xs, ts, k + 1, v, registered);
    AppendStep(xs, ts, k + 2, v, registered);
    AppendStep(xs, ts, k + 3, v, registered);
  }

  /** Nine guarded pushes, one per row of a nine-row table, append exactly
      the gated table. */
  lemma AppendNine(xs: seq<Descriptor>, ts: seq<Template>, v: VariableModel, registered: set<BlockType>)
    requires |ts| == 9
    ensures xs + Emit(ts[0], v, registered) + Emit(ts[1], v, registered) + Emit(ts[2], v, registered)
               + Emit(ts[3], v, registered) + Emit(ts[4], v, registered) + Emit(ts[5], v, registered)
               + Emit(ts[6], v, registered) + Emit(ts[7], v, registered) + Emit(ts[8], v, registered)
         == xs + Gated(ts, v, registered)
  {
    var front := xs + Gated(ts[..4], v, registered);
    assert ts[..0] == [] && xs + Gated(ts[..0], v, registered) == xs;
    AppendFour(xs, ts, 0, v, registered);
    assert xs + Emit(ts[0], v, registered) + Emit(ts[1], v, registered) + Emit(ts[2], v, registered)
              + Emit(ts[3], v, registered) == front;
    AppendFive(xs, ts, 4, v, registered);
    assert ts[..9] == ts;
    assert front + Emit(ts[4], v, registered) + Emit(ts[5], v, registered) + Emit(ts[6], v, registered)
                 + Emit(ts[7], v, registered) + Emit(ts[8], v, registered) == xs + Gated(ts, v, registered);
  }

  /** Five consecutive guarded pushes extend the gated prefix by five rows. */
  lemma AppendFive(xs: seq<Descriptor>, ts: seq<Template>, k: nat, v: VariableModel, registered: set<BlockType>)
    requires k + 5 <= |ts|
    ensures xs + Gated(ts[..k], v, registered) + Emit(ts[k], v, registered) + Emit(ts[k + 1], v, registered)
               + Emit(ts[k + 2], v, registered) + Emit(ts[k + 3], v, registered) + Emit(ts[k + 4], v, registered)
         == xs + Gated(ts[..k + 5], v, registered)
  {
    AppendStep(xs, ts, k, v, registered);
    AppendFour(xs, ts, k + 1, v, registered);
  }

  /** At most one block per template. */
  lemma {:induction false} GatedLength(ts: seq<Template>, v: VariableModel, registered: set<BlockType>)
    ensures |Gated(ts, v, registered)| <= |ts|
  {
    if ts != [] {
      GatedLength(ts[1..], v, registered);
    }
  }

  /** A block is emitted exactly when it instantiates a registered template of
      the table for `v`. */
  lemma {:induction false} GatedMembers(ts: seq<Template>, v: VariableModel, registered: set<BlockType>)
    ensures forall d :: d in Gated(ts, v, registered) ==>
      exists t :: t in ts && t.blockType in registered && d == Instantiate(t, v)
    ensures forall t :: t in ts && t.blockType in registered ==> Instantiate(t, v) in Gated(ts, v, registered)
  {
    if ts != [] {
      GatedMembers(ts[1..], v, registered);
      assert forall t :: t in ts ==> t == ts[0] || t in ts[1..];
    }
  }

  /** The block of a template of the table appears exactly when the
      template's block type is registered. */
  lemma GatedContains(ts: seq<Template>, v: VariableModel, registered: set<BlockType>)
    ensures forall t :: t in ts ==> (Instantiate(t, v) in Gated(ts, v, registered) <==> t.blockType in registered)
  {
    GatedMembers(ts, v, registered);
    GatedOmitsUnregistered(ts, v, registered);
  }

  /** Blocks of unregistered templates never appear. */
  lemma {:induction false} GatedOmitsUnregistered(ts: seq<Template>, v: VariableModel, registered: set<BlockType>)
    ensures forall d :: d in Gated(ts, v, registered) ==> d.Block? && d.blockType in registered
  {
    if ts != [] {
      GatedOmitsUnregistered(ts[1..], v, registered);
    }
  }

  /** In a table with distinct types, a template of the tail ranks one
      further in the whole table than in the tail, hence never first. */
  lemma RankInTail(ts: seq<Template>, t: Template)
    requires DistinctTypes(ts) && |ts| > 0 && t in ts[1..]
    ensures 0 < Rank(ts, t.blockType) == 1 + Rank(ts[1..], t.blockType) < |ts|
  {
    var k :| 0 <= k < |ts[1..]| && ts[1..][k] == t;
    assert ts[k + 1].blockType != ts[0].blockType;
    assert Rank(ts[1..], t.blockType) <= k;
  }

  /** The blocks emitted for the tail of a table rank after its head. */
  lemma GatedTailRanks(ts: seq<Template>, v: VariableModel, registered: set<BlockType>)
    requires DistinctTypes(ts) && |ts| > 0
    ensures forall d :: d in Gated(ts[1..], v, registered) ==>
      d.Block? && 0 < Rank(ts, d.blockType) == 1 + Rank(ts[1..], d.blockType) < |ts|
  {
    GatedMembers(ts[1..], v, registered);
    forall d | d in Gated(ts[1..], v, registered)
      ensures d.Block? && 0 < Rank(ts, d.blockType) == 1 + Rank(ts[1..], d.blockType) < |ts|
    {
      var t :| t in ts[1..] && t.blockType in registered && d == Instantiate(t, v);
      RankInTail(ts, t);
    }
  }

  /** Every element of `ds` is a block, and their block types come in
      strictly increasing table position. */
  ghost predicate InTableOrder(ds: seq<Descriptor>, ts: seq<Template>) {
    forall i, j :: 0 <= i < j < |ds| ==>
      ds[i].Block? && ds[j].Block? && Rank(ts, ds[i].blockType) < Rank(ts, ds[j].blockType)
  }

  /** The emitted blocks keep the table order: their ranks strictly increase.
      Together with GatedMembers this fixes the output exactly. */
  lemma {:induction false} GatedInTableOrder(ts: seq<Template>, v: VariableModel, registered: set<BlockType>)
    requires DistinctTypes(ts)
    ensures InTableOrder(Gated(ts, v, registered), ts)
  {
    var g := Gated(ts, v, registered);
    if ts != [] {
      var rest := Gated(ts[1..], v, registered);
      var e := Emit(ts[0], v, registered);
      assert DistinctTypes(ts[1..]);
      GatedInTableOrder(ts[1..], v, registered);
      GatedTailRanks(ts, v, registered);
      assert g == e + rest;
      forall i, j | 0 <= i < j < |g|
        ensures g[i].Block? && g[j].Block? && Rank(ts, g[i].blockType) < Rank(ts, g[j].blockType)
      {
        assert g[j] == rest[j - |e|] && g[j] in rest;
        if i < |e| {
          assert g[i] == Instantiate(ts[0], v) && Rank(ts, g[i].blockType) == 0;
        } else {
          assert g[i] == rest[i - |e|] && g[i] in rest;
          assert Rank(ts[1..], rest[i - |e|].blockType) < Rank(ts[1..], rest[j - |e|].blockType);
        }
      }
    }
  }

  /** Every emitted template block refers to `v` and has no id. */
  lemma GatedReferTo(ts: seq<Template>, v: VariableModel, registered: set<BlockType>)
    ensures forall d :: d in Gated(ts, v, registered) ==> Referenced(d) == Some(v)
    ensures forall d :: d in Gated(ts, v, registered) ==> d.Block? && d.id == None
  {
    GatedMembers(ts, v, registered);
  }
}
