# The "Variables" flyout of scratch-blocks, in Dafny

`Blockly.DataFlyout(workspace)` builds the contents of the "Variables"
palette category. It lists the palette from top to bottom:

- the create-variable button;
- one `data_variable` reporter per scalar variable, in name order;
- the scalar operation blocks (set, change, show, hide) for the first
  variable;
- the create-list button;
- one reporter per list variable;
- the nine list operation blocks for the first list variable.

Each block is pushed only when its type is registered in `Blockly.Blocks`.
Before each group of template guards, the element pushed last gets gap 24.
It is either the last reporter, previously at gap 8, or, for lists without
`data_variable`, the create-list button, which had no gap before. This
happens whether or not any template follows.

The model has four modules:

- `VariableModels` (variable_models.dfy) covers the variable records and the
  name ordering. The ordering is a parameter `le` that is only assumed to be
  a total preorder. It also holds the in-place sort of the record array.
- `Descriptors` (descriptors.dfy) holds the palette elements as values:
  buttons, blocks and their children. `BlockType` enumerates the block types
  the flyout looks up, and `TypeName` maps each one to the key it stands
  for. It also defines the template tables and `Gated`, which keeps only the
  templates whose block type is registered, with lemmas about it.
- `DataFlyout` (data_flyout.dfy) is the function itself, as imperative
  methods:
  - `BuildFlyout` and its two phases;
  - the reporter loop `PushReporters`;
  - the guarded pushes.

  Pushing is appending to a sequence, the sort works in place on a fresh
  array, and the gap rewrite updates the sequence's last element. The
  methods are proved against the functions `ScalarSection`, `ListSection`
  and `Flyout`. `FlyoutParts` splits the palette into its six runs.
- `FlyoutProperties` (flyout_properties.dfy) states what each run holds: the
  buttons, the reporters, the operation blocks, their order, gaps and
  inputs, the wide gaps, and the length.

`BuildFlyout` promises that its result is `Flyout(ss, ls, ...)` for some
sorted permutation `ss` of the scalar variables and some sorted permutation
`ls` of the list variables. The lemmas of `FlyoutProperties` hold for every
such `ss` and `ls`, so they hold of whatever `BuildFlyout` returns.

Some points where a reader might expect otherwise, and where the source's
own comments mislead:
- the comment at line 82 shows `gap="20"` for the set block, but the code
  sets 8;
- the comment at line 130 names `data_showvariable` on the hide block;
- the comment at line 176 reads "The button is always there." on the list
  guard.

The model follows the code:

- **Scalar templates.** They appear when the list holds more than the
  button (line 78). That requires `data_variable` to be registered, not
  merely one scalar variable to exist. Without `data_variable` there are no
  scalar operation blocks at all (`UnregisteredVariableBlock`).
- **Where the list gap-24 lands.** The list rewrite (line 177) goes to
  whatever element is last. When no list reporter was pushed, that element
  is the create-list button (`ListWideGap`, `FlyoutButtons`).
- **When the gap-24 rewrite happens.** Both rewrites happen whether or not
  any operation block follows.
- **`data_hidevariable`.** It gets no gap attribute (lines 129-138).
- **Sort stability.** The sort is `Array.prototype.sort` with
  `compareByName`, and its stability is not assumed. Records whose names
  compare equal may come out in either order.

## Model

| member | source | states |
|---|---|---|
| `DataFlyout.BuildFlyout` | core/data_flyout.js:43-379 | The result is the palette `Flyout(ss, ls, registered, msg)` for some sorted permutation `ss` of the scalar variables and some sorted permutation `ls` of the list variables. |
| `DataFlyout.BuildScalarSection` | core/data_flyout.js:44-139 | It returns the sorted order `ss` of the scalar records, and the list equals `ScalarSection(ss)`: the button, the reporters, then the last element rewritten to gap 24 and the scalar templates, but only if more than the button was pushed. |
| `DataFlyout.PushListSection` | core/data_flyout.js:142-376 | It returns the input list followed by `ListSection`: the create-list button and the list reporters in a sorted order `ls`, then, if `ls` is non-empty, the last element rewritten to gap 24 and the list templates. |
| `DataFlyout.SortedVariables` | core/data_flyout.js:44-45 | A fresh array holding a sorted permutation of the records of one type (also lines 154-155). |
| `VariableModels.SortByName` | core/data_flyout.js:45 | The in-place sort leaves the array sorted by name under `le` and a permutation of its old contents. |
| `VariableModels.ToArray` | core/data_flyout.js:44 | A fresh array holding exactly the given records. |
| `VariableModels.FirstIsLeast` | core/data_flyout.js:45 | The first record of a sorted permutation is one of the records, and its name is least under the comparator. |
| `DataFlyout.PushReporters` | core/data_flyout.js:58-76 | The loop appends one reporter per array element, in array order, when `data_variable` is registered, and nothing otherwise (also lines 156-174). |
| `Descriptors.Reporter` | core/data_flyout.js:59-74 | A reporter has type `data_variable`, gap 8 and id `"VAR_" + name`, and its field refers back to the record. |
| `DataFlyout.PushTemplate` | core/data_flyout.js:81-97 | One guarded push appends the template's block for the first record exactly when its type is registered. |
| `DataFlyout.PushScalarTemplates` | core/data_flyout.js:81-139 | The four guarded scalar pushes, in source order, each appending its block or nothing. |
| `DataFlyout.PushListTemplates` | core/data_flyout.js:179-375 | The nine guarded list pushes, in source order, each appending its block or nothing. |
| `DataFlyout.ScalarPushesAreGated` | core/data_flyout.js:81-139 | The four guarded pushes append exactly `Gated(ScalarTemplates, v, registered)`: the blocks of the registered rows of the scalar table, in table order. |
| `DataFlyout.ListPushesAreGated` | core/data_flyout.js:179-375 | The nine guarded pushes append exactly `Gated(ListTemplates, v, registered)`. |
| `Descriptors.Instantiate` | core/data_flyout.js:179-200 | A template's block has the template's type and gap and no id. Its first child refers to the variable, and the rest are the template's value inputs. |
| `Descriptors.WithGap` | core/data_flyout.js:79 | Setting the gap attribute changes the gap and keeps kind, text, callback key, type, id and children. |
| `DataFlyout.LastGapChangesOnlyLast` | core/data_flyout.js:177 | The gap rewrite keeps the length and every element but the last, and only sets the last element's gap. Nothing is removed or reordered (also line 79). |
| `DataFlyout.ScalarSectionParts` | core/data_flyout.js:47-139 | Everything before the create-list button is the create-variable button, then the scalar reporter run (last reporter at gap 24), then the scalar operation blocks. The button itself is never rewritten. |
| `DataFlyout.ListSectionParts` | core/data_flyout.js:142-376 | The list section is the create-list button (at gap 24 when list variables exist but no reporter was pushed), then the list reporter run, then the list operation blocks. |
| `DataFlyout.FlyoutParts` | core/data_flyout.js:43-379 | The whole palette is the concatenation of its six runs, in this order. |
| `FlyoutProperties.FlyoutSlices` | core/data_flyout.js:56-378 | Gives the index range of each run in the returned list, with the create-list button at `ListButtonIndex`. |
| `FlyoutProperties.FlyoutButtons` | core/data_flyout.js:47-149 | Element 0 is the create-variable button (`CREATE_VARIABLE`, no gap). The element at `ListButtonIndex` is the create-list button (`CREATE_LIST`). No other element is a button, so that button sits after all scalar content and before all list content. |
| `FlyoutProperties.FlyoutLength` | core/data_flyout.js:56-378 | The length is 2, plus one reporter per variable when `data_variable` is registered, plus the operation blocks emitted (at most 4 scalar and 9 list). |
| `FlyoutProperties.ReporterRunAt` | core/data_flyout.js:58-79 | Reporter `k` of a run has type `data_variable`, id `"VAR_" + name`, and a VARIABLE field with the record's name, type and id. Its gap is 24 if it is the last reporter of the run, else 8. |
| `FlyoutProperties.ReporterRunRecords` | core/data_flyout.js:58-76 | The reporters refer to exactly the loop's records, in loop order. Without `data_variable` there are none. |
| `FlyoutProperties.ReportersSortedByName` | core/data_flyout.js:44-76 | The records of the scalar reporters, and of the list reporters, are a sorted permutation of the variables of that type (also lines 154-174). |
| `FlyoutProperties.UnregisteredVariableBlock` | core/data_flyout.js:58-78 | Without `data_variable`, the palette is the two buttons followed by the list blocks. No reporter and no scalar operation block appears. |
| `FlyoutProperties.ScalarWideGap` | core/data_flyout.js:78-79 | When `data_variable` is registered and scalar variables exist, the last scalar reporter (the element just before the scalar templates) has gap 24 and refers to the last sorted scalar variable. |
| `FlyoutProperties.ListWideGap` | core/data_flyout.js:176-177 | With list variables, the element just before the list blocks has gap 24. It is the last list reporter, referring to the last sorted list variable, or the create-list button when `data_variable` is unregistered. |
| `FlyoutProperties.ScalarBlocksShape` | core/data_flyout.js:81-139 | Every scalar operation block has a registered scalar type and gap 8, except hide, which has no gap. It has no id, refers to the first sorted scalar variable, and has the type's inputs. There are none without `data_variable` or without scalar variables. |
| `FlyoutProperties.ScalarTemplateRow` | core/data_flyout.js:129-138 | Rows of the scalar table: hide has no gap, the others gap 8. "set" carries the text input and "change" the number input. |
| `FlyoutProperties.ScalarBlocksGating` | core/data_flyout.js:78-139 | A scalar template's block appears if and only if `data_variable` and the template's own type are registered. |
| `FlyoutProperties.ScalarBlocksInOrder` | core/data_flyout.js:81-139 | The scalar operation blocks appear in the order set, change, show, hide: their types take strictly increasing positions in the scalar table (`InTableOrder`). |
| `FlyoutProperties.ScalarBlocksReferToLeast` | core/data_flyout.js:95 | Each scalar operation block refers to a scalar variable whose name is least under the comparator. |
| `FlyoutProperties.ListBlocksShape` | core/data_flyout.js:179-375 | Every list operation block has a registered list type, gap 8 and no id. It refers to the first sorted list variable, followed by its value inputs. There are none without list variables. |
| `FlyoutProperties.ListTemplateRow` | core/data_flyout.js:179-375 | Each row of the list table has gap 8 and the inputs its type calls for:<br>• INDEX then ITEM for insert and replace;<br>• INDEX for delete and item;<br>• ITEM for add and contains;<br>• none for length, show and hide. |
| `FlyoutProperties.ListBlocksGating` | core/data_flyout.js:176-375 | With a list variable, a list template's block appears if and only if its own type is registered, whether or not `data_variable` is. |
| `FlyoutProperties.ListBlocksInOrder` | core/data_flyout.js:179-375 | The list operation blocks appear in table order: add, delete, insert, replace, item, length, contains, show, hide. |
| `FlyoutProperties.ListBlocksReferToLeast` | core/data_flyout.js:191 | Each list operation block refers to a list variable whose name is least under the comparator. |
| `Descriptors.GatedMembers` | core/data_flyout.js:179-375 | A block is emitted if and only if it instantiates a registered template of the table. |
| `Descriptors.GatedContains` | core/data_flyout.js:179-375 | The block of a table row appears exactly when the row's type is registered. |
| `Descriptors.GatedOmitsUnregistered` | core/data_flyout.js:179-375 | No block of an unregistered type is ever emitted. |
| `Descriptors.GatedInTableOrder` | core/data_flyout.js:179-375 | The emitted blocks keep table order: their types take strictly increasing positions in the table (`InTableOrder`). |
| `Descriptors.GatedReferTo` | core/data_flyout.js:179-375 | Every emitted template block refers to the given variable and has no id. |
| `Descriptors.AppendNine` | core/data_flyout.js:179-375 | Nine guarded pushes, one for each row of a nine-row table in order, append exactly the gated table. |
| `Descriptors.GatedLength` | core/data_flyout.js:179-375 | At most one block per table row. |
| `Descriptors.TypeNameInjective` | core/data_flyout.js:59 | Distinct block types stand for distinct `Blockly.Blocks` keys. |

## Left out

- DOM and XML construction:
  - `goog.dom.createDom` and `setAttribute`;
  - the list blocks' string-built XML and its `Blockly.Xml.textToDom` round trip;
  - the escaping of names.

  Elements are modelled as values, and a gap is an integer rather than the attribute string.
- Button callback registration and variable creation, lines 52-54 and 145-147. They are side effects on the workspace's UI state and do not affect the returned list.
- The labels `Blockly.Msg.NEW_VARIABLE` and `NEW_LIST`. They are a localization lookup and are passed in as `Messages`.
- `workspace.getVariablesOfType`. Its results are passed in as two sequences of records and copied into fresh arrays. The workspace itself is not modelled.
- `ToArray`: that the array `getVariablesOfType` returns is a fresh copy is an assumption; the source does not show it. If the array is the workspace's own list, the in-place sorts at lines 45 and 155 also reorder workspace state. That effect, and any aliasing between the sorted array and the workspace, is not modelled.
- The internals of `Blockly.VariableModel.compareByName`, such as case and locale rules. Only a total preorder `le` on names is assumed.
- `SortByName`: it is an insertion sort standing in for `Array.prototype.sort`. Only its promise, a sorted permutation, is used. Stability is neither assumed nor provided.
- `createVariableDom_`, `generateVariableFieldXml_`, `createTextDom_` and `createMathNumberDom_` are not part of this model.
  - The variable field they build is the abstract child `VariableRef(record)`.
  - The value inputs of "set" and "change" are the abstract children `TextDom` and `MathNumberDom`.
  - The text `"0"` and number `0` defaults that their comments mention are therefore not modelled.
- `Blockly.Blocks` is modelled as the set of the fourteen block types the flyout looks up. Other keys cannot affect the result.
