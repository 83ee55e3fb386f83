# Shopping list state machine

A model of the in-memory shopping list behind the single screen
`ShoppinglistApp` of MyShoppingListApp. The screen remembers four values:
the list `sItems` of `ShoppingItem(id, name, quantity, isEditing)`, the
add-dialog flag `showDialog`, and the dialog's two text fields `itemName` and
`itemQuantity`. Its event handlers reassign these values: add an item from the
dialog, open an item's inline editor, save the editor, delete an item, and
open or dismiss the dialog.

The model has four modules:

- `Wrappers` holds `Option`, which stands for Kotlin's nullable `Int?`.
- `Text` holds `isNotBlank` (whose negation is `isBlank`), `toIntOrNull` (an optional sign and
  decimal digits) and `Int.toString`. It proves that parsing reads back what
  printing wrote, and that a blank field falls back to the default quantity.
- `ShoppingList` holds the item record and the four list transformations as
  functions on `seq<ShoppingItem>`: `Add` (list `+` with id `maxOfOrNull + 1`),
  `BeginEdit` and `CommitEdit` (the two `map`s) and `Delete` (the `filter`).
  It also holds the invariant `WellFormed`: ids are pairwise distinct and at
  most one item has its editor open. Lemmas show that every transformation
  keeps that invariant. Further lemmas show what `Delete` removes and that it
  keeps the order of the rest, and that `Delete` undoes `Add`.
- `Screen` holds the class `ShoppingListScreen` with the four remembered
  values as fields and one method per handler. Each method states the new
  state through the list functions and keeps `WellFormed`. Because every
  handler keeps it, ids stay distinct and at most one editor is open after
  any sequence of events. Four session methods in screen.dfy exercise the
  handlers: add to an empty list, the quantity defaults, edit and save,
  delete then add.

Three behaviours of the code that are easy to misread, and that the model
keeps as written:

- Quantities may be negative. Any text that `toIntOrNull` accepts is stored,
  including `-3`.
- Opening the editor for an id that is not in the list is not a no-op. The
  `map` at line 72-74 closes every open editor.
- The new id is `maxOfOrNull + 1` of the list as it is now, so ids can be
  reused. Deleting the item that the last add created restores the list, and
  the next add hands out the same id again (`DeleteUndoesAdd`). More
  generally, a deleted id comes back whenever it was one more than the
  largest id left.

## Model

| member | source | states |
|---|---|---|
| `Text.IsNotBlank` | MyShoppingListApp/app/src/main/java/eu/tutorial/myshoppinglistapp/ShoppingList.kt:95 | `isNotBlank()` holds only for a text that is not empty; in particular the cleared name field never passes the add button's check |
| `Text.ParseInt` | MyShoppingListApp/app/src/main/java/eu/tutorial/myshoppinglistapp/ShoppingList.kt:99 | `toIntOrNull` yields a number only from a text that is not blank |
| `Text.ParseIntForms` | MyShoppingListApp/app/src/main/java/eu/tutorial/myshoppinglistapp/ShoppingList.kt:99 | `toIntOrNull` accepts "+5", "-5", "007" and "-0" with their values, and rejects "", "-", "+", " 5", "5 ", "+-5" and "1.5" |
| `Text.ParseIntOr` | MyShoppingListApp/app/src/main/java/eu/tutorial/myshoppinglistapp/ShoppingList.kt:166 | `text.toIntOrNull() ?: default` falls back to the default for a blank field, such as the quantity field the add dialog clears |
| `Text.IntToString` | MyShoppingListApp/app/src/main/java/eu/tutorial/myshoppinglistapp/ShoppingList.kt:137 | `Int.toString()` prints every integer, negative ones included, as a text that `toIntOrNull` reads back as the same integer |
| `ShoppingList.MaxId` | MyShoppingListApp/app/src/main/java/eu/tutorial/myshoppinglistapp/ShoppingList.kt:97 | `maxOfOrNull { it.id }` is None exactly for an empty list; otherwise it is the id of some item and no id exceeds it |
| `ShoppingList.NextId` | MyShoppingListApp/app/src/main/java/eu/tutorial/myshoppinglistapp/ShoppingList.kt:97 | the new id is 1 for an empty list, otherwise one more than an id present, and it is larger than every id present |
| `ShoppingList.Add` | MyShoppingListApp/app/src/main/java/eu/tutorial/myshoppinglistapp/ShoppingList.kt:96-101 | the list grows by exactly one item at its end; earlier items keep their order and values; the new item has the given name and quantity, no open editor, and an id no item had |
| `ShoppingList.BeginEdit` | MyShoppingListApp/app/src/main/java/eu/tutorial/myshoppinglistapp/ShoppingList.kt:72-74 | same length and order; every item keeps its id, name and quantity, and has its editor open exactly when its id is the target |
| `ShoppingList.CommitEdit` | MyShoppingListApp/app/src/main/java/eu/tutorial/myshoppinglistapp/ShoppingList.kt:63-65 | same length and order; the items with the target id take the new name and quantity and close their editor; all other items are identical |
| `ShoppingList.Delete` | MyShoppingListApp/app/src/main/java/eu/tutorial/myshoppinglistapp/ShoppingList.kt:77 | an item is kept exactly when it was in the list and its id is not the target; the list never grows |
| `ShoppingList.BeginEditEditingCount` | MyShoppingListApp/app/src/main/java/eu/tutorial/myshoppinglistapp/ShoppingList.kt:72-74 | with distinct ids, exactly one editor is open afterwards when the target is present and none when it is absent |
| `ShoppingList.CommitEditEditingCount` | MyShoppingListApp/app/src/main/java/eu/tutorial/myshoppinglistapp/ShoppingList.kt:64 | saving an edit never increases the number of open editors |
| `ShoppingList.DeleteEditingCount` | MyShoppingListApp/app/src/main/java/eu/tutorial/myshoppinglistapp/ShoppingList.kt:77 | deleting never increases the number of open editors |
| `ShoppingList.DeleteAbsent` | MyShoppingListApp/app/src/main/java/eu/tutorial/myshoppinglistapp/ShoppingList.kt:77 | deleting an id that no item carries leaves the list unchanged |
| `ShoppingList.DeleteAt` | MyShoppingListApp/app/src/main/java/eu/tutorial/myshoppinglistapp/ShoppingList.kt:77 | with distinct ids, deleting the id of the item at position k removes that item and keeps all the others in their order |
| `ShoppingList.DeleteLength` | MyShoppingListApp/app/src/main/java/eu/tutorial/myshoppinglistapp/ShoppingList.kt:77 | with distinct ids, the list shrinks by one when the id is present and stays the same when it is absent |
| `ShoppingList.DeleteUniqueIds` | MyShoppingListApp/app/src/main/java/eu/tutorial/myshoppinglistapp/ShoppingList.kt:77 | deleting keeps ids pairwise distinct |
| `ShoppingList.AddWellFormed` | MyShoppingListApp/app/src/main/java/eu/tutorial/myshoppinglistapp/ShoppingList.kt:96-101 | adding keeps ids distinct and at most one editor open |
| `ShoppingList.BeginEditWellFormed` | MyShoppingListApp/app/src/main/java/eu/tutorial/myshoppinglistapp/ShoppingList.kt:72-74 | opening an editor on a list with distinct ids leaves ids distinct and at most one editor open, whatever the editor flags were before |
| `ShoppingList.CommitEditWellFormed` | MyShoppingListApp/app/src/main/java/eu/tutorial/myshoppinglistapp/ShoppingList.kt:63-65 | saving an edit keeps ids distinct and at most one editor open |
| `ShoppingList.DeleteWellFormed` | MyShoppingListApp/app/src/main/java/eu/tutorial/myshoppinglistapp/ShoppingList.kt:77 | deleting keeps ids distinct and at most one editor open |
| `ShoppingList.DeleteUndoesAdd` | MyShoppingListApp/app/src/main/java/eu/tutorial/myshoppinglistapp/ShoppingList.kt:97-101 | deleting the id that an add just handed out gives back the list before the add, and the next add hands out the same id again |
| `Screen.ShoppingListScreen.constructor` | MyShoppingListApp/app/src/main/java/eu/tutorial/myshoppinglistapp/ShoppingList.kt:34-37 | the screen starts with an empty list, the dialog closed and both fields empty |
| `Screen.ShoppingListScreen.OpenAddDialog` | MyShoppingListApp/app/src/main/java/eu/tutorial/myshoppinglistapp/ShoppingList.kt:47 | the "+" button opens the dialog and changes nothing else |
| `Screen.ShoppingListScreen.DismissAddDialog` | MyShoppingListApp/app/src/main/java/eu/tutorial/myshoppinglistapp/ShoppingList.kt:88 | dismissing the dialog (or its Cancel button, line 108) closes it and keeps the list and the typed fields |
| `Screen.ShoppingListScreen.SetItemName` | MyShoppingListApp/app/src/main/java/eu/tutorial/myshoppinglistapp/ShoppingList.kt:116 | typing in the name field replaces it and changes nothing else |
| `Screen.ShoppingListScreen.SetItemQuantity` | MyShoppingListApp/app/src/main/java/eu/tutorial/myshoppinglistapp/ShoppingList.kt:123 | typing in the quantity field replaces it and changes nothing else |
| `Screen.ShoppingListScreen.ConfirmAdd` | MyShoppingListApp/app/src/main/java/eu/tutorial/myshoppinglistapp/ShoppingList.kt:94-105 | a blank name changes nothing at all; otherwise the item (name untrimmed, quantity parsed or 0) is appended, the dialog closes and both fields are cleared; the list stays well formed |
| `Screen.ShoppingListScreen.EditClick` | MyShoppingListApp/app/src/main/java/eu/tutorial/myshoppinglistapp/ShoppingList.kt:71-75 | the list becomes `BeginEdit` of the old list, exactly one editor is open when the id is present and none otherwise, and the dialog state is untouched |
| `Screen.ShoppingListScreen.DeleteClick` | MyShoppingListApp/app/src/main/java/eu/tutorial/myshoppinglistapp/ShoppingList.kt:76-78 | the list becomes `Delete` of the old list and shrinks by one exactly when the id was present; the dialog state is untouched |
| `Screen.ShoppingListScreen.SaveEdit` | MyShoppingListApp/app/src/main/java/eu/tutorial/myshoppinglistapp/ShoppingList.kt:62-66 | the list becomes `CommitEdit` with the edited name (no blank check) and the edited quantity parsed, or 1 (line 166); the list stays well formed |
| `Screen.SaveUntouchedEditor` | MyShoppingListApp/app/src/main/java/eu/tutorial/myshoppinglistapp/ShoppingList.kt:136-137 | the editor starts from the item's name and printed quantity, so saving it untouched only closes that item's editor |

## Left out

- Rendering and layout (`Scaffold`, `TopAppBar`, `LazyColumn`, `Card`, `AlertDialog`, text fields, colours, sizes): no state is changed there.
- `ShoppingListItems` (lines 178-204): it only displays an item's fields and forwards the two icon clicks, which are `EditClick` and `DeleteClick`.
- The recomposition machinery of `remember`/`mutableStateOf` and the editor's own text state (lines 136-137): only the values handed to the save handler are modelled, as parameters of `SaveEdit`.
- Which rows and dialogs offer which controls: the edit and delete icons are shown only on rows whose editor is closed, and Save only on a row whose editor is open. The name and quantity fields and the Add and Cancel buttons exist only while `showDialog` is true (lines 86-130). The methods accept any id and may be called whatever `showDialog` is, which covers every event the screen can deliver.
- Text.ParseInt: its own contract states only that a number never comes from blank text. The grammar is the body itself: an optional sign, then one or more ASCII digits. `IntToString` proves that every printed integer reads back, `ParseIntForms` covers signs, leading zeros and rejected forms, and the four session methods in screen.dfy show "2", "5" and "abc". It accepts digit strings of any length and only ASCII digits; Kotlin's `toIntOrNull` also returns null for values outside the 32-bit range and accepts other Unicode decimal digits.
- Text.IsWhitespace: covers the ASCII whitespace of `isBlank` (space, TAB to CR, U+001C to U+001F) and not the Unicode space separators.
- ShoppingList.NextId: ids are unbounded integers; the 32-bit overflow of `maxOfOrNull + 1` is not modelled.
