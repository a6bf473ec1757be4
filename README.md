# Design-pattern samples, modelled and proved in Dafny

This project models the behaviour of a C# collection of design-pattern samples and proves
properties of the model. The main part is the Command sample, a small text editor:
- `AdvancedTextEditor` holds a content string and a selection.
- `ClipboardService` holds one string.
- `CommandHistory` is a bounded stack.
- The Copy, Cut, Paste, Undo and Macro commands act on these.
- An application runs the commands by name.

The smaller samples modelled beside it are:
- the Composite order trees and the iterators over them;
- the SQL query builder;
- the Observer event manager;
- the Bridge remotes and devices;
- the car Builder;
- the Decorator string wrapping;
- the Prototype deep clone.

## Files and modules

- `optional.dfy` (`Optional`): `Option`, standing for C# `null`.
- `lists.dfy` (`Lists`): `List<T>.Remove` (first occurrence, reference equality) and
  sequence facts.
- `text_editor.dfy` (`TextEditing`): the editor state as a value, `Doc`, with its pure
  operations. The `TextEditor` class updates content and selection in place and is
  proved to follow `Doc`.
- `text_editor_properties.dfy` (`TextEditingProperties`): how insert, delete and replace
  relate.
- `editor_commands.dfy` (`EditorCommands`): the command behaviour, stated twice.
  - On values: `World`, `Executable`, `Undoable`, `Execution`, `Reversal` and `Dispatch`.
  - As classes that change the heap step by step, as the C# code does: `Clipboard`,
    `CommandHistory`, `Command` and `EditorApplication`. Each class method is proved to
    produce exactly what the value-level function says.
- `editor_command_properties.dfy` (`EditorCommandProperties`): properties of the commands,
  proved on the value level. They cover:
  - history eviction;
  - undo changing only the document;
  - Cut and Paste round trips;
  - macro undo;
  - the sample session.
- `order_composite.dfy` (`OrderComposite`): products and bundles, `Add`, `Remove` and
  `CalculateTotal`.
- `order_iterators.dfy` (`OrderIterators`): the list, null, composite, depth-first and
  breadth-first iterators, and `GetAllProducts` / `GetTotalPrice`.
- `sql_query_builder.dfy` (`SqlQueryBuilder`): `StandardQueryBuilder`, `SQLQuery` and
  `QueryDirector`.
- `file_events.dfy` (`FileEvents`): `EventManager`, `Editor`, and the logging and e-mail
  listeners.
- `bridge_devices.dfy` (`BridgeDevices`): TV and Radio as `Device`, and `Remote` /
  `AdvancedRemote` as `Remote`.
- `car_builder.dfy` (`CarBuilding`): `Car`, the sports and mini builders, and `Director`.
- `decorator.dfy` (`Decorators`): `ConcreteComponent`, the decorators, and `SetComponent`.
- `prototype.dfy` (`Prototype`): `Person.Clone` and `IdInfo.Clone`.

## How the Command sample is modelled

- **Commands.** Each command is a `Command` object with a `variant`. Its backup fields
  are one `Snapshot` field. A macro's sub-command list is a field.
- **Shared references.** The history holds references to the same command objects the
  application registered. Re-running a Cut therefore overwrites the backup that every
  earlier history entry for that Cut will use.
- **Value-level state.** The value level keeps every command's backup in one map of the
  `World`. Macro structure is a separate map, so the shared backup is visible there too.
  - `MacroWithRepeatedCutDoesNotRestore` shows one consequence. A macro holding the same
    Cut object twice does not undo back to where it started.
- **Exceptions are values.** `Outcome.Faulted` is `Substring` on a stale selection, a
  null backup in an undo, or a negative length in `ReplaceText`. The exception
  propagates, so no history push and no `CommandExecuted` follow.
- **The sample session.** After the cut, the editor keeps the stale selection (7, 5) on
  "Hello, !". The paste then replaces only the "!", so the text becomes "Hello, World",
  without the final "!": the paste does not put back "Hello, World!".
  - `DemoSession` proves "Hello, World", with history count 2.
  - An undo after that pops the paste and restores "Hello, !" with the selection clamped
    to (7, 1).
- **Paste into an empty document.** Such a paste cannot be undone. `CanUndo` rejects an
  empty backup (`PasteEffect`).

## Model

| member | source | states |
|---|---|---|
| Lists.RemoveFirst | Composite_Concrete/Program.cs:42-44 | `List.Remove` takes away exactly one copy of the element when present: the multiset shrinks by it, no element is invented, and every other element stays |
| Lists.RemoveAbsent | Observer_Concrete/Program.cs:28-34 | removing a listener or component that is not in the list leaves the list unchanged |
| Lists.RemoveJustAppended | Observer_Concrete/Program.cs:18-34 | removing an element just appended to a list that did not hold it gives back the original list |
| Lists.RemoveFirstSplits | Composite_Concrete/Program.cs:42-44 | only the first occurrence goes: the elements before it and the ones after it stay, in order |
| TextEditing.Clamp | Command_Concrete/Program.cs:98-102 | `Math.Max(0, Math.Min(x, hi))` lands in 0..hi, keeps an in-range x, and sends values below to 0 and above to hi |
| TextEditing.Doc.SelectedText | Command_Concrete/Program.cs:90-91 | defined exactly when the selection is empty or inside the content (otherwise `Substring` throws); then it has the selection's length and the content is the text before it, it, and the text after it |
| TextEditing.Doc.Select | Command_Concrete/Program.cs:98-102 | content unchanged; the new selection is always inside the content; in-range arguments are kept exactly; a start at or past the end gives an empty selection at the end |
| TextEditing.Doc.Insert | Command_Concrete/Program.cs:104-113 | selection untouched; length grows by the text's length; empty text is a no-op and non-empty text changes the content |
| TextEditing.Doc.DeletedCount | Command_Concrete/Program.cs:115-126 | DeleteText removes nothing for length <= 0, exactly length characters for an in-range request, and never runs past the end |
| TextEditing.Doc.Delete | Command_Concrete/Program.cs:115-126 | selection untouched; the content shrinks by the number of characters removed; length <= 0 is a no-op |
| TextEditing.Doc.Replace | Command_Concrete/Program.cs:128-137 | throws exactly when length is negative (length is clamped only from above); selection untouched; an in-range replace changes the length by `|text| - length` |
| TextEditing.TextEditor.constructor | Command_Concrete/Program.cs:71-73 | a new editor is empty with selection (0, 0) and has raised nothing |
| TextEditing.TextEditor.SetContent | Command_Concrete/Program.cs:76-88 | the Content setter stores the value and raises ContentChanged exactly when the value differs |
| TextEditing.TextEditor.Select | Command_Concrete/Program.cs:98-102 | the editor's state becomes `Doc.Select` of the old state; no notification |
| TextEditing.TextEditor.InsertText | Command_Concrete/Program.cs:104-113 | the state becomes `Doc.Insert` of the old state; for non-empty text, the setter's ContentChanged (if the text changed) then Insert are raised |
| TextEditing.TextEditor.DeleteText | Command_Concrete/Program.cs:115-126 | the state becomes `Doc.Delete` of the old state; for a positive length, ContentChanged (if changed) then Delete are raised |
| TextEditing.TextEditor.ReplaceText | Command_Concrete/Program.cs:128-137 | throws ArgumentOutOfRange with no change exactly when `Doc.Replace` fails; otherwise the state becomes `Doc.Replace` and Replace is raised |
| TextEditingProperties.InsertThenDelete | Command_Concrete/Program.cs:104-126 | deleting, at the clamped position, as many characters as were inserted restores the document |
| TextEditingProperties.DeleteThenInsert | Command_Concrete/Program.cs:104-126 | inserting the removed characters back at the clamped start restores the document |
| TextEditingProperties.ReplaceIsDeleteThenInsert | Command_Concrete/Program.cs:115-137 | for length >= 0, ReplaceText is DeleteText followed by InsertText at the clamped start |
| TextEditingProperties.ReplaceWholeContent | Command_Concrete/Program.cs:128-137 | replacing from 0 over the whole length (what the undos do) never throws and leaves exactly the new text |
| TextEditingProperties.SelectionStaleAfterDelete | Command_Concrete/Program.cs:90-126 | after deleting a non-empty in-range selection, SelectedText throws exactly when start + 2 * length exceeds the old content's length |
| EditorCommands.Reverse | Command_Concrete/Program.cs:187-190 | reversal keeps the length |
| EditorCommands.ReverseInvolutive | Command_Concrete/Program.cs:187-190 | `ToArray().Reverse()` of the stack gives it back oldest first: reversing twice is the identity |
| EditorCommands.ReverseAppend | Command_Concrete/Program.cs:155-165 | reversal turns a concatenation around, which is how the temporary stack of Push reverses and restores the entries |
| EditorCommands.Evicted | Command_Concrete/Program.cs:155-165 | evicting drops exactly one entry from a non-empty stack and none from an empty one |
| EditorCommands.PushedElements | Command_Concrete/Program.cs:153-169 | a push adds no command other than the pushed one |
| EditorCommands.DropOldest | Command_Concrete/Program.cs:155-165 | the two loops through the temporary stack leave the stack without its oldest entry, the rest in order |
| EditorCommands.Clipboard.constructor | Command_Concrete/Program.cs:418 | the clipboard starts empty |
| EditorCommands.Clipboard.GetText | Command_Concrete/Program.cs:420 | returns the stored text |
| EditorCommands.Clipboard.SetText | Command_Concrete/Program.cs:421-425 | stores the given text |
| EditorCommands.CommandHistory.constructor | Command_Concrete/Program.cs:146-149 | an empty history with the given bound |
| EditorCommands.CommandHistory.Push | Command_Concrete/Program.cs:153-169 | at Count >= maxSize the oldest entry is evicted, then the command goes on top |
| EditorCommands.CommandHistory.Pop | Command_Concrete/Program.cs:171-174 | null on an empty history; otherwise the newest entry, which is removed |
| EditorCommands.CommandHistory.Peek | Command_Concrete/Program.cs:176-179 | null on an empty history, otherwise the newest entry |
| EditorCommands.CommandHistory.Clear | Command_Concrete/Program.cs:181-185 | the history becomes empty |
| EditorCommands.CommandHistory.GetHistory | Command_Concrete/Program.cs:187-190 | the entries oldest first |
| EditorCommands.CommandHistory.GetUndoableCommands | Command_Concrete/Program.cs:192-195 | the entries, oldest first, whose CanUndo holds in the current state |
| EditorCommands.Command.CopyCommand | Command_Concrete/Program.cs:241-244 | a Copy on the given editor and clipboard, with no backup |
| EditorCommands.Command.CutCommand | Command_Concrete/Program.cs:268-271 | a Cut on the given editor and clipboard, with no backup |
| EditorCommands.Command.PasteCommand | Command_Concrete/Program.cs:299-302 | a Paste on the given editor and clipboard, with no backup |
| EditorCommands.Command.UndoCommand | Command_Concrete/Program.cs:339-342 | an Undo on the given editor and history, with no backup |
| EditorCommands.Command.MacroCommand | Command_Concrete/Program.cs:367 | an empty macro on the given editor |
| EditorCommands.Command.AddCommand | Command_Concrete/Program.cs:369-372 | appends the sub-command at the end of the list |
| EditorCommands.Command.SaveBackup | Command_Concrete/Program.cs:215-220 | the backup becomes the editor's current content and selection |
| EditorCommands.Command.CanUndo | Command_Concrete/Program.cs:231 | the answer is `Undoable`: never for Copy and Undo; for Cut and Paste when the backup is neither null nor empty; for a macro when every sub-command can undo |
| EditorCommands.Command.CanExecute | Command_Concrete/Program.cs:230 | the answer is `Executable`: a non-empty selection for Copy (which throws on a stale selection), a non-empty history for Undo, true for Cut and Paste, and every sub-command in order for a macro |
| EditorCommands.Command.Execute | Command_Concrete/Program.cs:246-389 | the outcome and the new editor, clipboard, history and backups are those of `Execution`, and the macro structure is unchanged |
| EditorCommands.Command.ExecuteCopy | Command_Concrete/Program.cs:246-253 | an empty selection returns false with no change; otherwise the selection goes to the clipboard |
| EditorCommands.Command.ExecuteCut | Command_Concrete/Program.cs:273-282 | an empty selection returns false with no change; otherwise back up, copy the selection to the clipboard and delete it |
| EditorCommands.Command.ExecutePaste | Command_Concrete/Program.cs:304-322 | an empty clipboard returns false with no change; otherwise back up, then replace a non-empty selection or insert at the caret |
| EditorCommands.Command.ExecuteUndo | Command_Concrete/Program.cs:344-352 | pops the newest entry and undoes it if it can; false on an empty history or an entry that cannot undo |
| EditorCommands.Command.PopHistory | Command_Concrete/Program.cs:346 | the newest history entry is removed and returned, or null on an empty history |
| EditorCommands.Command.ExecuteMacro | Command_Concrete/Program.cs:374-389 | the macro backs itself up and runs its sub-commands as `Execution` says |
| EditorCommands.Command.RunCommands | Command_Concrete/Program.cs:377-388 | the sub-commands run in list order, stopping at the first that does not return true |
| EditorCommands.Command.Undo | Command_Concrete/Program.cs:255-405 | the outcome and the new state are those of `Reversal` |
| EditorCommands.Command.RestoreBackupInEditor | Command_Concrete/Program.cs:284-289 | Cut and Paste undo: replace the whole content by the backup and select the backup's range again; a null backup throws |
| EditorCommands.Command.UndoMacro | Command_Concrete/Program.cs:391-405 | undoes the sub-commands last to first, skipping those that cannot undo and stopping at the first failed undo |
| EditorCommands.EditorApplication.constructor | Command_Concrete/Program.cs:438-453 | one shared editor, clipboard and history (bound 100), with "copy", "cut", "paste" and "undo" registered to new commands on them |
| EditorCommands.EditorApplication.ExecuteCommand | Command_Concrete/Program.cs:455-475 | the outcome, the new state and the notifications raised are those of `Dispatch` on the registered table |
| EditorCommands.EditorApplication.Run | Command_Concrete/Program.cs:460-474 | asks CanExecute, then executes and concludes, as `Ran` says |
| EditorCommands.EditorApplication.Conclude | Command_Concrete/Program.cs:468-473 | pushes the command after a success unless its name is "undo" or "copy", then raises one CommandExecuted; after an exception, neither |
| EditorCommands.EditorApplication.PushHistory | Command_Concrete/Program.cs:470 | the history becomes `Pushed` of the old one |
| EditorCommands.EditorApplication.RegisterCommand | Command_Concrete/Program.cs:477-480 | the name maps to the new command, overwriting any earlier one; the command and the sub-commands it brings along become known to the application |
| EditorCommandProperties.NewestOfNewest | Command_Concrete/Program.cs:153-169 | keeping the newest k, then appending, then keeping the newest k again, equals appending and then keeping the newest k |
| EditorCommandProperties.PushKeepsNewest | Command_Concrete/Program.cs:153-169 | a push keeps exactly the newest max(maxSize, 1) commands, in order |
| EditorCommandProperties.PushAllKeepsNewest | Command_Concrete/Program.cs:153-169 | after any sequence of pushes, the history is the newest max(maxSize, 1) commands ever pushed, so Count never exceeds that |
| EditorCommandProperties.ReversalChangesOnlyDoc | Command_Concrete/Program.cs:255-405 | UndoAsync of any command, a macro included, changes nothing but the document |
| EditorCommandProperties.ReversalFromChangesOnlyDoc | Command_Concrete/Program.cs:391-405 | the macro's undo loop changes nothing but the document |
| EditorCommandProperties.UndoCommandPops | Command_Concrete/Program.cs:344-352 | on an empty history, false with no change; otherwise the newest entry is popped even when it cannot undo (then false, document unchanged), and only the document changes besides |
| EditorCommandProperties.UndoableDependsOnBackups | Command_Concrete/Program.cs:231 | CanUndo looks only at the backups |
| EditorCommandProperties.RestoredIgnoresDoc | Command_Concrete/Program.cs:284-289 | the document an undo restores depends only on the backup, not on edits made since |
| EditorCommandProperties.NothingToMove | Command_Concrete/Program.cs:246-308 | Copy and Cut with nothing selected, and Paste with an empty clipboard, return false and change nothing |
| EditorCommandProperties.UndoCommandGates | Command_Concrete/Program.cs:354-357 | UndoCommand can execute exactly when the history is non-empty; its own CanUndo and UndoAsync are false |
| EditorCommandProperties.CutThenUndo | Command_Concrete/Program.cs:273-289 | a Cut of a non-empty selection succeeds, puts the selected text on the clipboard and removes it; while its backup is intact, its undo restores content and selection exactly, whatever happened in between |
| EditorCommandProperties.PasteEffect | Command_Concrete/Program.cs:304-322 | Paste replaces a non-empty in-range selection by the clipboard text, or inserts it at the caret; it can be undone exactly when the document was not empty |
| EditorCommandProperties.PasteThenUndo | Command_Concrete/Program.cs:324-329 | undoing a paste restores the content, and the selection exactly when it was in range |
| EditorCommandProperties.ExecutionFromKeepsOtherBackups | Command_Concrete/Program.cs:379-386 | running a macro's remaining Cuts and Pastes leaves the backup of every other command alone |
| EditorCommandProperties.FirstBackupIsStart | Command_Concrete/Program.cs:374-389 | after a successful macro run, its first sub-command (if it does not recur) holds the document as the run found it |
| EditorCommandProperties.ReversalFromEndsWithFirst | Command_Concrete/Program.cs:391-405 | undoing a macro of Cuts and Pastes ends with the document restored from the first sub-command's backup |
| EditorCommandProperties.MacroUndoRestores | Command_Concrete/Program.cs:374-405 | a macro of Cuts and Pastes whose first sub-command does not recur, run to success on a non-empty document, undoes back to that content, and to its selection exactly when the selection was in range |
| EditorCommandProperties.MacroWithRepeatedCutDoesNotRestore | Command_Concrete/Program.cs:374-405 | with the same Cut object twice in a macro, cutting "ab" of "abcd" twice and undoing the macro leaves "cd", not "abcd": the shared backup was overwritten |
| EditorCommandProperties.EmptyMacro | Command_Concrete/Program.cs:407-408 | an empty macro can execute and undo; running it only records its backup and undoing it changes nothing |
| EditorCommandProperties.DispatchRules | Command_Concrete/Program.cs:455-480 | unknown name, or CanExecute not true: the result, no change and no event; otherwise exactly one CommandExecuted unless the command throws, and a push exactly when it succeeded and the name is neither "undo" nor "copy" |
| EditorCommandProperties.DemoSession | Command_Concrete/Program.cs:489-517 | the sample session gives clipboard "World", then "Hello, !", then "Hello, World" with the Cut and the Paste in the history; an undo then gives "Hello, !" with the selection (7, 1) |
| EditorCommandProperties.DemoCopy | Command_Concrete/Program.cs:502 | the sample's copy puts "World" on the clipboard and changes nothing else |
| EditorCommandProperties.DemoCut | Command_Concrete/Program.cs:504 | the sample's cut leaves "Hello, !" with the stale selection (7, 5) and the Cut in the history |
| EditorCommandProperties.DemoPaste | Command_Concrete/Program.cs:506 | the sample's paste replaces only "!" and gives "Hello, World" |
| EditorCommandProperties.DemoUndo | Command_Concrete/Program.cs:344-352 | an undo after the sample pops the Paste and restores "Hello, !" with the selection clamped to (7, 1) |
| OrderComposite.Component.Product | Composite_Concrete/Program.cs:19-23 | a product with its name and price and no children |
| OrderComposite.Component.Bundle | Composite_Concrete/Program.cs:35 | an empty bundle with its name |
| OrderComposite.Component.Add | Composite_Concrete/Program.cs:37-40 | a product throws NotImplementedException and is unchanged; a bundle appends the component, and its total grows by the component's total |
| OrderComposite.Component.Remove | Composite_Concrete/Program.cs:42-44 | a product throws; a bundle drops the first occurrence, and its total falls by the component's total, or not at all when it was absent |
| OrderComposite.SumOfTotalsAppend | Composite_Concrete/Program.cs:46-47 | the sum of the children's totals grows by the total of a child appended |
| OrderComposite.SumOfTotalsRemoveFirst | Composite_Concrete/Program.cs:46-47 | removing the first occurrence of a child takes its total off the sum once, and nothing when it is absent |
| OrderComposite.ComputerSetDemo | Composite_Concrete/Program.cs:62-76 | the sample computer set totals 2500 + 99 + 149 |
| OrderComposite.ComputerSetTotal | Composite_Concrete/Program.cs:62-76 | the sample's five components form a tree whose root totals 2500 + 99 + 149 |
| OrderIterators.Preorder | Iterator_with_Composite_Concrete/Program.cs:99-110 | FlattenComponents yields only components of the tree |
| OrderIterators.PreorderFrom | Iterator_with_Composite_Concrete/Program.cs:103-109 | the flattening of a bundle's remaining children holds only components of the tree |
| OrderIterators.FlattenAppend | Iterator_with_Composite_Concrete/Program.cs:99-110 | flattening a list is flattening its parts one after the other |
| OrderIterators.FlattenChildren | Iterator_with_Composite_Concrete/Program.cs:103-109 | flattening a bundle's children from index i is what FlattenComponents yields for them |
| OrderIterators.LevelStep | Iterator_with_Composite_Concrete/Program.cs:126-138 | one dequeue moves the head out of the pending flattening and its subtree behind the rest of the queue |
| OrderIterators.LevelOrderPermutesFlatten | Iterator_with_Composite_Concrete/Program.cs:126-138 | the breadth-first order of a queue is a permutation of its depth-first flattening |
| OrderIterators.BreadthFirstPermutesDepthFirst | Iterator_with_Composite_Concrete/Program.cs:83-138 | from one root, breadth-first and depth-first visit the same components equally often, and both start at the root |
| OrderIterators.ProductsOf | Iterator_with_Composite_Concrete/Program.cs:227 | `OfType<Product>` keeps only products that were in the list |
| OrderIterators.ProductsOfAppend | Iterator_with_Composite_Concrete/Program.cs:227 | `OfType<Product>` distributes over concatenation |
| OrderIterators.PricesAppend | Iterator_with_Composite_Concrete/Program.cs:236 | the sum of prices distributes over concatenation |
| OrderIterators.ProductsInShown | Iterator_with_Composite_Concrete/Program.cs:223-229 | the products among what the iterator shows are the products among the components it passes |
| OrderIterators.ProductsInCons | Iterator_with_Composite_Concrete/Program.cs:227 | `OfType<Product>` keeps a shown element exactly when it is a non-null product |
| OrderIterators.KeepIfProduct | Iterator_with_Composite_Concrete/Program.cs:227 | one step of `OfType<Product>` keeps the element exactly when it is a product |
| OrderIterators.ShownAllAppend | Iterator_with_Composite_Concrete/Program.cs:48-69 | what is shown for a concatenation is what is shown for each part |
| OrderIterators.TotalIsPriceOfProducts | Iterator_with_Composite_Concrete/Program.cs:159-178 | CalculateTotal is the sum of the prices of the products in the component's pre-order flattening |
| OrderIterators.SumIsPriceOfProducts | Iterator_with_Composite_Concrete/Program.cs:177-178 | a bundle's sum over its children from index i is the price of the products in their flattening |
| OrderIterators.CurrentOf | Iterator_with_Composite_Concrete/Program.cs:48 | Current is null or a component of the tree |
| OrderIterators.MoveNextOf | Iterator_with_Composite_Concrete/Program.cs:50-69 | MoveNext keeps the iterator reading only the tree |
| OrderIterators.MoveNextStack | Iterator_with_Composite_Concrete/Program.cs:50-69 | a composite MoveNext that fails leaves the stack empty |
| OrderIterators.MoveNextStackPending | Iterator_with_Composite_Concrete/Program.cs:50-69 | a composite MoveNext succeeds exactly when something is pending; then Current is the first pending element, never a bundle, and the rest is what is pending after it |
| OrderIterators.ListTopPending | Iterator_with_Composite_Concrete/Program.cs:54-60 | the same when the top of the stack is a list iterator |
| OrderIterators.ListTopMoves | Iterator_with_Composite_Concrete/Program.cs:62-68 | the same when the top list iterator reaches its next child |
| OrderIterators.ListTopUnfolds | Iterator_with_Composite_Concrete/Program.cs:62-68 | under a list iterator about to reach child x, what is pending is x, then x's subtree, then what remains after x |
| OrderIterators.ListTopReachesBundle | Iterator_with_Composite_Concrete/Program.cs:63-66 | reaching a bundle pushes its iterator, Current is null, and the bundle's subtree becomes pending first |
| OrderIterators.CompositeTopPending | Iterator_with_Composite_Concrete/Program.cs:54-60 | the same when the top of the stack is a nested composite iterator |
| OrderIterators.CompositeIteratorShowsDescendants | Iterator_with_Composite_Concrete/Program.cs:180-181 | a bundle's iterator shows the bundle's pre-order without the bundle: each product, and null at each nested bundle |
| OrderIterators.ListIterator.constructor | Iterator_with_Composite_Concrete/Program.cs:195-198 | starts before the first element over the bundle's live child list |
| OrderIterators.ListIterator.MoveNext | Iterator_with_Composite_Concrete/Program.cs:203-207 | the k-th MoveNext succeeds exactly when k <= Count, and then Current is element k-1; otherwise Current is null |
| OrderIterators.ListIterator.Reset | Iterator_with_Composite_Concrete/Program.cs:209 | restarts before the first element |
| OrderIterators.NullIterator.MoveNext | Iterator_with_Composite_Concrete/Program.cs:34 | always false |
| OrderIterators.NullIterator.Reset | Iterator_with_Composite_Concrete/Program.cs:35 | nothing to rewind: Current stays null |
| OrderIterators.CompositeIterator.constructor | Iterator_with_Composite_Concrete/Program.cs:43-46 | the stack holds the given iterator |
| OrderIterators.CompositeIterator.MoveNext | Iterator_with_Composite_Concrete/Program.cs:50-69 | the stack steps as `MoveNextStack` says, so the pending elements are shown in order (`MoveNextStackPending`); a failed MoveNext leaves it empty |
| OrderIterators.CompositeIterator.Reset | Iterator_with_Composite_Concrete/Program.cs:71-74 | empties the stack, so nothing is pending and MoveNext then fails |
| OrderIterators.DepthFirstIterator.constructor | Iterator_with_Composite_Concrete/Program.cs:83-86 | the iterator walks the pre-order flattening of the component |
| OrderIterators.DepthFirstIterator.MoveNext | Iterator_with_Composite_Concrete/Program.cs:91-95 | the k-th MoveNext succeeds exactly when k is at most the number of components, and then Current is the k-th in pre-order |
| OrderIterators.DepthFirstIterator.Reset | Iterator_with_Composite_Concrete/Program.cs:97 | restarts before the first component |
| OrderIterators.BreadthFirstIterator.constructor | Iterator_with_Composite_Concrete/Program.cs:119-122 | the queue holds the component and Current is null |
| OrderIterators.BreadthFirstIterator.MoveNext | Iterator_with_Composite_Concrete/Program.cs:126-138 | succeeds exactly when the queue is non-empty; dequeues the head as Current and enqueues its children in order, so it walks the level order |
| OrderIterators.BreadthFirstIterator.Reset | Iterator_with_Composite_Concrete/Program.cs:140-144 | empties the queue and Current, so nothing is pending |
| OrderIterators.GetAllProducts | Iterator_with_Composite_Concrete/Program.cs:223-229 | the products below the component, left to right in pre-order; for a bundle, all products of its tree |
| OrderIterators.GetTotalPrice | Iterator_with_Composite_Concrete/Program.cs:231-237 | for a bundle, its CalculateTotal; for a product, 0, because its iterator reaches nothing |
| SqlQueryBuilder.ConcatAppend | BuilderSQLQuery/Program.cs:39 | appending to the StringBuilder keeps the earlier text |
| SqlQueryBuilder.RenderAppend | BuilderSQLQuery/Program.cs:51-92 | one more call extends the text by that call's fragment |
| SqlQueryBuilder.WhereKeywords | BuilderSQLQuery/Program.cs:63-72 | the first Where appends "WHERE c " and every later one "AND c " |
| SqlQueryBuilder.OrderByKeywords | BuilderSQLQuery/Program.cs:74-86 | the first OrderBy appends "ORDER BY c " and every later one ", c" with no trailing space |
| SqlQueryBuilder.FlagsAppend | BuilderSQLQuery/Program.cs:65-80 | `_hasWhere` / `_hasOrderBy` become true with the first Where / OrderBy and stay true |
| SqlQueryBuilder.SqlQuery.constructor | BuilderSQLQuery/Program.cs:11-13 | holds the given text |
| SqlQueryBuilder.StandardQueryBuilder.constructor | BuilderSQLQuery/Program.cs:43-48 | empty text, both flags false |
| SqlQueryBuilder.StandardQueryBuilder.Select | BuilderSQLQuery/Program.cs:51-55 | appends "SELECT columns " and returns the builder itself |
| SqlQueryBuilder.StandardQueryBuilder.From | BuilderSQLQuery/Program.cs:57-61 | appends "FROM table " and returns the builder itself |
| SqlQueryBuilder.StandardQueryBuilder.Where | BuilderSQLQuery/Program.cs:63-72 | appends "WHERE c " the first time and "AND c " after that |
| SqlQueryBuilder.StandardQueryBuilder.OrderBy | BuilderSQLQuery/Program.cs:74-86 | appends "ORDER BY c " the first time and ", c" after that |
| SqlQueryBuilder.StandardQueryBuilder.Join | BuilderSQLQuery/Program.cs:88-92 | appends "JOIN j" and a line terminator |
| SqlQueryBuilder.StandardQueryBuilder.Build | BuilderSQLQuery/Program.cs:95-98 | a query holding the rendering of every call so far; nothing is reset |
| SqlQueryBuilder.IntText | BuilderSQLQuery/Program.cs:111 | the `{userid}` text reads back as userid: a minus sign exactly for a negative number, then decimal digits |
| SqlQueryBuilder.NatText | BuilderSQLQuery/Program.cs:111 | a natural number's text is decimal digits without a leading zero, and reads back as the number |
| SqlQueryBuilder.Digit | BuilderSQLQuery/Program.cs:111 | the character of digit d is the d-th after '0' |
| SqlQueryBuilder.QueryDirector.constructor | BuilderSQLQuery/Program.cs:105 | keeps the given builder |
| SqlQueryBuilder.QueryDirector.ConstructUserByIdQuery | BuilderSQLQuery/Program.cs:107-112 | calls Select("*"), From("users") and Where("id = userid") on the builder, in that order |
| SqlQueryBuilder.QueryDirector.ConstructProfileQuery | BuilderSQLQuery/Program.cs:114-122 | makes the six calls of the parameterless overload, in order |
| SqlQueryBuilder.QueryDirector.GetSqlQuery | BuilderSQLQuery/Program.cs:124-126 | the builder's current query |
| SqlQueryBuilder.RenderStep | BuilderSQLQuery/Program.cs:51-92 | a known text followed by a known fragment is the text of the longer call list |
| SqlQueryBuilder.UserByIdQueryText | BuilderSQLQuery/Program.cs:107-112 | on a fresh builder the query for user 5 is "SELECT * FROM users WHERE id = 5 " |
| SqlQueryBuilder.UserByIdDemo | BuilderSQLQuery/Program.cs:95-126 | two builds in a row give that same text, through GetQuery and ToString alike |
| FileEvents.ReplaceAllNoMatch | Observer_Concrete/Program.cs:109 | a text that cannot contain "%s" is left unchanged by the substitution |
| FileEvents.ReplaceAllAfterPrefix | Observer_Concrete/Program.cs:109 | a placeholder after a prefix free of '%' becomes the file name and the rest is processed on |
| FileEvents.Listener.constructor | Observer_Concrete/Program.cs:101-105 | keeps the target and the template |
| FileEvents.EventManager.constructor | Observer_Concrete/Program.cs:16 | no event types |
| FileEvents.EventManager.Subscribe | Observer_Concrete/Program.cs:18-26 | the listener is appended to its type's list, created on first use; duplicates stay; other types are untouched |
| FileEvents.EventManager.Unsubscribe | Observer_Concrete/Program.cs:28-34 | the first occurrence leaves that type's list only; an unknown type changes nothing |
| FileEvents.EventManager.Notify | Observer_Concrete/Program.cs:36-45 | one Update per list entry in subscription order; nothing for an unknown type |
| FileEvents.Editor.constructor | Observer_Concrete/Program.cs:73-76 | a new event manager and no file |
| FileEvents.Editor.OpenFile | Observer_Concrete/Program.cs:79-83 | remembers the file and notifies "open" with its name |
| FileEvents.Editor.SaveFile | Observer_Concrete/Program.cs:85-92 | nothing without a file; otherwise the write line, then "save" notified with the name |
| FileEvents.SubscribeThenUnsubscribe | Observer_Concrete/Program.cs:18-34 | unsubscribing a listener just subscribed once gives back the previous lists |
| FileEvents.ConfigDemo | Observer_Concrete/Program.cs:140-157 | the sample logs "Someone has opened file: document.txt" once, then writes the file and mails "Someone has changed the file: document.txt" once |
| FileEvents.BroadcastAppend | Observer_Concrete/Program.cs:36-45 | notifying a concatenated list gives the lines of each part in turn: each listener answers independently of the others |
| FileEvents.BroadcastOne | Observer_Concrete/Program.cs:36-45 | one listener gives one line |
| FileEvents.TemplateTexts | Observer_Concrete/Program.cs:144-151 | the sample's two templates filled with a name give the fixed text followed by the name |
| FileEvents.TemplateText | Observer_Concrete/Program.cs:109 | a template ending in its only placeholder gives its prefix followed by the name |
| BridgeDevices.Clamp | Bridge_Concrete/Realization/TV.cs:19-22 | `Math.Clamp` lands in lo..hi, keeps an in-range value, and otherwise gives a bound |
| BridgeDevices.AtLeastOne | Bridge_Concrete/Realization/TV.cs:23-27 | `Math.Max(1, value)` is at least 1 and at least value, and is one of the two |
| BridgeDevices.ClampIsNearest | Bridge_Concrete/Realization/TV.cs:19-22 | the clamped volume is the point of the range nearest the requested one |
| BridgeDevices.StepsKeepRange | Bridge_Concrete/Abstraction/Remote.cs:19-74 | every remote operation keeps volume in 0..100 and channel >= 1 |
| BridgeDevices.SettersRange | Bridge_Concrete/Realization/Radio.cs:18-27 | the setters bring any value into range |
| BridgeDevices.ToggleTwice | Bridge_Concrete/Abstraction/Remote.cs:19-32 | TogglePower flips the power flag only, so toggling twice restores the device |
| BridgeDevices.DisabledIgnoresButtons | Bridge_Concrete/Abstraction/Remote.cs:34-74 | a disabled device ignores volume and channel buttons |
| BridgeDevices.VolumeUpEffect | Bridge_Concrete/Abstraction/Remote.cs:46-55 | VolumeUp adds exactly 10 up to 90 and does nothing above, so 95 stays 95 |
| BridgeDevices.VolumeDownEffect | Bridge_Concrete/Abstraction/Remote.cs:34-44 | VolumeDown takes exactly 10 from 10 up and does nothing below |
| BridgeDevices.VolumeUpThenDown | Bridge_Concrete/Abstraction/Remote.cs:34-55 | VolumeDown undoes a VolumeUp that took effect |
| BridgeDevices.ChannelEffects | Bridge_Concrete/Abstraction/Remote.cs:58-74 | ChannelUp adds one; ChannelDown takes one off except at channel 1; ChannelDown undoes ChannelUp |
| BridgeDevices.AdvancedStepsIgnorePower | Bridge_Concrete/Abstraction/AdvancedRemote.cs:13-22 | Mute sets volume 0 and SetChannel sets max(1, c), powered or not, and neither touches the other settings |
| BridgeDevices.Device.TV | Bridge_Concrete/Realization/TV.cs:12-14 | a new TV is off, at volume 50, on channel 1 |
| BridgeDevices.Device.Radio | Bridge_Concrete/Realization/Radio.cs:11-14 | a new radio is off, at volume 30, on channel 101, station "FM" |
| BridgeDevices.Device.SetVolume | Bridge_Concrete/Realization/TV.cs:19-22 | stores the value clamped to 0..100 and nothing else |
| BridgeDevices.Device.SetChannel | Bridge_Concrete/Realization/TV.cs:23-27 | stores max(1, value) and nothing else |
| BridgeDevices.Device.Enable | Bridge_Concrete/Realization/TV.cs:34-37 | sets the power flag and nothing else |
| BridgeDevices.Device.Disable | Bridge_Concrete/Realization/TV.cs:29-32 | clears the power flag and nothing else |
| BridgeDevices.Remote.constructor | Bridge_Concrete/Abstraction/Remote.cs:14-17 | drives the given device |
| BridgeDevices.Remote.TogglePower | Bridge_Concrete/Abstraction/Remote.cs:19-32 | the device's settings become the toggled ones |
| BridgeDevices.Remote.VolumeDown | Bridge_Concrete/Abstraction/Remote.cs:34-44 | the device's settings become `VolumeDownStep` of the old ones |
| BridgeDevices.Remote.VolumeUp | Bridge_Concrete/Abstraction/Remote.cs:46-55 | the device's settings become `VolumeUpStep` of the old ones |
| BridgeDevices.Remote.ChannelDown | Bridge_Concrete/Abstraction/Remote.cs:58-66 | the device's settings become `ChannelDownStep` of the old ones |
| BridgeDevices.Remote.ChannelUp | Bridge_Concrete/Abstraction/Remote.cs:68-74 | the device's settings become `ChannelUpStep` of the old ones |
| BridgeDevices.Remote.Mute | Bridge_Concrete/Abstraction/AdvancedRemote.cs:13-17 | the device's settings become `MuteStep` of the old ones |
| BridgeDevices.Remote.SetChannel | Bridge_Concrete/Abstraction/AdvancedRemote.cs:18-22 | the device's settings become `SetChannelStep` of the old ones |
| BridgeDevices.TvDemo | Bridge_Concrete/Program.cs:12-18 | the sample TV ends on, at volume 60, on channel 2 |
| BridgeDevices.RadioDemo | Bridge_Concrete/Program.cs:25-32 | the sample radio ends on, at volume 0, on channel 105, station "FM" |
| CarBuilding.ConstructionOrder | Builder/Program.cs:91-96 | one construction adds three different parts: engine, then seats, then navigation |
| CarBuilding.LinesShareNoPart | Builder/Program.cs:35-74 | the sports and mini builders share no part |
| CarBuilding.Car.constructor | Builder/Program.cs:8 | a new car has no parts |
| CarBuilding.Car.AddPart | Builder/Program.cs:10-13 | appends one part at the end |
| CarBuilding.CarBuilder.constructor | Builder/Program.cs:33 | the builder owns a new car with no parts |
| CarBuilding.CarBuilder.BuildEngine | Builder/Program.cs:35-38 | appends the line's engine |
| CarBuilding.CarBuilder.BuildSeats | Builder/Program.cs:45-48 | appends the line's seats |
| CarBuilding.CarBuilder.BuildGPS | Builder/Program.cs:40-43 | appends the line's navigation system |
| CarBuilding.CarBuilder.GetCar | Builder/Program.cs:50-53 | always the same car |
| CarBuilding.Director.constructor | Builder/Program.cs:86-89 | keeps the given builder |
| CarBuilding.Director.ConstructCar | Builder/Program.cs:91-96 | appends the engine, the seats and the navigation system, in that order, to whatever the car has |
| CarBuilding.ConstructTwice | Builder/Program.cs:103-118 | a fresh builder's car has exactly those three parts, and a second construction gives six |
| Decorators.Delegate | Decorator_Concept/Program.cs:35-45 | the base Operation gives "" for a null component |
| Decorators.WrapNests | Decorator_Concept/Program.cs:62-84 | wrapping nests outermost first: each decorator's name opens before, and closes after, all it wraps |
| Decorators.OccurrencesAppend | Decorator_Concept/Program.cs:64 | counting a character is additive over concatenation |
| Decorators.OccurrencesAbsent | Decorator_Concept/Program.cs:64 | an absent character is counted 0 times |
| Decorators.NamesHaveNoParentheses | Decorator_Concept/Program.cs:14-84 | neither the decorator names nor "ConcreteComponent" contain parentheses |
| Decorators.ParenthesesCountLayers | Decorator_Concept/Program.cs:35-84 | an Operation text has one '(' and one ')' per decorator layer |
| Decorators.Decorator.constructor | Decorator_Concept/Program.cs:25-27 | wraps the given component |
| Decorators.Decorator.SetComponent | Decorator_Concept/Program.cs:29-31 | replaces the wrapped component |
| Decorators.Decorator.Operation | Decorator_Concept/Program.cs:62-84 | the decorator's name around the wrapped component's current text, or "Name()" when it wraps null |
| Decorators.ReplaceWrapped | Decorator_Concept/Program.cs:54-57 | after SetComponent, Operation reflects the new component and only it |
| Decorators.BAroundA | Decorator_Concept/Program.cs:12-84 | the concrete component in A, then in B, gives "ConcreteDecoratorB(ConcreteDecoratorA(ConcreteComponent))" |
| Prototype.IdInfo.constructor | Prototype_Concept/Program.cs:35 | holds the given number |
| Prototype.IdInfo.Clone | Prototype_Concept/Program.cs:38-40 | a new IdInfo with the same number |
| Prototype.Person.constructor | Prototype_Concept/Program.cs:13-16 | holds the given fields |
| Prototype.Person.Clone | Prototype_Concept/Program.cs:18-26 | a new person with the same age, birth date, name and id number; a null idInfo stays null and any other becomes a new object |
| Prototype.MutateAfterClone | Prototype_Concept/Program.cs:55-62 | changing every field of the original, the id number included, after cloning leaves the clone as it was |
| Prototype.CloneDemo | Prototype_Concept/Program.cs:47-64 | the first two clones keep Jack Daniels' values, the last one and the original have Shalom's, and no clone shares the original's IdInfo |

## Left out

- Console output is not modelled. That covers every `Console.WriteLine`, `DisplayStatus`, `ShowParts`, the `ToString` overrides, the `TextChanged` console listener, the `Client` of the Decorator sample and its `ReadLine` loop. Where a line is the point (the Observer listeners, `File.Write`), the line is returned as a value instead.
- `DateTime.Now` and `ExecutionTime` are clock reads and are not modelled. `CommandExecuted` records only the command and its success.
- `Task`/`await` are modelled as ordinary calls, because every task in the sample completes synchronously.
- `TextChanged` and `CommandExecuted` are logs of the notifications raised, a ghost field and a field respectively. Their subscribers are not modelled.
- `CommandHistory._redoStack` is not modelled. It is only ever cleared and never read.
- `EditorCommand.RestoreBackup`, `Name` and `Description` are not modelled. The first has an empty body and is never called; the other two are display strings.
- Null arguments (for example `ArgumentNullException` in the `EditorCommand` constructor, or null text passed to `InsertText`) are excluded by Dafny's non-null types. The one reachable null, an undo before any backup, is modelled as `Faulted(ArgumentNull)`.
- Self-containing macros are not modelled: a macro only takes sub-commands of smaller ghost depth. In C# such a macro recurses without bound only when one of its loops reaches the reference to itself. `CanExecute` and `CanUndo` stop at the first false, `ExecuteAsync` stops at the first sub-command that does not succeed, and `UndoAsync` stops at the first failed undo. For example, `[copy, self]` on an empty selection terminates. The model excludes every self-containing macro, including the ones that terminate.
- Order trees are trees. A bundle only takes children of smaller ghost depth, so cyclic component graphs are not modelled. Shared sub-bundles are allowed, but the totals do not deduplicate them, just as the C# does not.
- Prices are C# `decimal`. Here they are integers in the smallest unit the prices use, so sums are exact; `decimal` overflow is not modelled.
- EditorCommands.EditorApplication.RegisterCommand: accepts only commands that work on the application's own editor, clipboard and history, because the value-level `World` has one document, one clipboard and one history. A command built on another `TextEditor`, `ClipboardService` or `CommandHistory` is not modelled. Because the C# keeps `_clipboard` private, every Copy, Cut or Paste that code outside the application registers is built on another clipboard, so the model does not cover registering any of them. A macro whose sub-commands contain the macro itself is excluded too (see the line on macros).
- BridgeDevices.Remote.ChannelUp: does not model 32-bit `int` wrap-around at `int.MaxValue`, because channels are unbounded integers here.
- The `ToEnumerable` extension is not modelled as its own member. `GetAllProducts` runs its loop directly on the composite iterator.
- SqlQueryBuilder.QueryDirector.ConstructProfileQuery: states the call list it makes, not the resulting text. The text follows from `Render` and `Fragments` like any other call list.
- `Environment.NewLine` is fixed to "\n".
- SqlQueryBuilder.IntText: formats a negative number with "-", the invariant culture's `NegativeSign`. The culture-dependent sign of `$"id = {userid}"` under other current cultures is not modelled.
- `Path.GetFileName` is not modelled. The Observer editor takes the file name as given.
- `String.Replace` is modelled with ordinal matching (`ReplaceAll`). Culture-sensitive matching is not modelled.
- `DateTime.Parse` becomes a `Date` of year, month and day. Parsing itself is not modelled.
- `IDevice` is one `Device` class with a `kind`. `AdvancedRemote` is a `Remote` whose `advanced` flag enables `Mute` and `SetChannel`. `AdvancedRemote.DisplayStatus` is console output.
- `ICarBuilder`, `SportsCarBuilder` and `MiniCarBuilder` are one `CarBuilder` class whose `line` selects the part names.
- The decorator `Component` hierarchy is a datatype. A decorator's wrapped component is held by value, so a change to a wrapped decorator after wrapping is not seen through the wrapper.
- The Decorator_Concrete, FactoryMethod_Concept, FactoryMethod_Concrete, Singelton_Concept_One_Thread, DBSysteAbstractFactory_Concrete, Adapter_Concept, Prototype_Concrete and Abstract Factory samples are not part of this model. They are cryptography, compression, network and framework plumbing, thread locking, constant console stubs, culture-sensitive casing, or a method that only throws.
