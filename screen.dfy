/**
  The screen `ShoppinglistApp`: its four pieces of remembered state and the
  event handlers that reassign them. Each handler is a method whose
  postcondition gives the new state in terms of the old one, through the list
  functions of module ShoppingList, and which keeps the list well formed.
*/
module Screen {
  import opened Wrappers
  import opened Text
  import opened ShoppingList

  class ShoppingListScreen {
    /** `sItems`: the list shown on screen. */
    var items: seq<ShoppingItem>
    /** `showDialog`: whether the add dialog is open. */
    var showDialog: bool
    /** `itemName`: the add dialog's name field. */
    var itemName: string
    /** `itemQuantity`: the add dialog's quantity field, as typed. */
    var itemQuantity: string

    ghost predicate Valid()
      reads this
    {
      WellFormed(items)
    }

    /** The state `remember` creates: empty list, dialog closed, empty fields. */
    constructor ()
      ensures Valid()
      ensures items == [] && !showDialog && itemName == "" && itemQuantity == ""
    {
      items := [];
      showDialog := false;
      itemName := "";
      itemQuantity := "";
    }

    /** The "+" button opens the add dialog. */
    method OpenAddDialog()
      requires Valid()
      modifies this`showDialog
      ensures Valid() && showDialog
    {
      showDialog := true;
    }

    /** Dismissing the dialog, or its Cancel button, closes it and keeps what was typed. */
    method DismissAddDialog()
      requires Valid()
      modifies this`showDialog
      ensures Valid() && !showDialog
    {
      showDialog := false;
    }

    /** Typing in the dialog's name field. */
    method SetItemName(text: string)
      requires Valid()
      modifies this`itemName
      ensures Valid() && itemName == text
    {
      itemName := text;
    }

    /** Typing in the dialog's quantity field. */
    method SetItemQuantity(text: string)
      requires Valid()
      modifies this`itemQuantity
      ensures Valid() && itemQuantity == text
    {
      itemQuantity := text;
    }

    /**
      The dialog's Add button. With a blank name nothing happens. Otherwise the
      typed name (untrimmed) and the typed quantity, or 0 when it is not a
      number, are appended as a new item, the dialog closes and both fields
      are cleared.
    */
    method ConfirmAdd()
      requires Valid()
      modifies this
      ensures Valid()
      ensures !IsNotBlank(old(itemName)) ==>
        items == old(items) && showDialog == old(showDialog)
        && itemName == old(itemName) && itemQuantity == old(itemQuantity)
      ensures IsNotBlank(old(itemName)) ==>
        && items == Add(old(items), old(itemName), ParseIntOr(old(itemQuantity), AddDefaultQuantity))
        && !showDialog && itemName == "" && itemQuantity == ""
    {
      if IsNotBlank(itemName) {
        AddWellFormed(items, itemName, ParseIntOr(itemQuantity, AddDefaultQuantity));
        items := Add(items, itemName, ParseIntOr(itemQuantity, AddDefaultQuantity));
        showDialog := false;
        itemName := "";
        itemQuantity := "";
      }
    }

    /** A row's edit icon: opens that row's editor and closes every other. */
    method EditClick(target: int)
      requires Valid()
      modifies this`items
      ensures Valid() && items == BeginEdit(old(items), target)
      ensures EditingCount(items) == if HasId(old(items), target) then 1 else 0
    {
      BeginEditWellFormed(items, target);
      BeginEditEditingCount(items, target);
      items := BeginEdit(items, target);
    }

    /** A row's delete icon: removes the items carrying that row's id. */
    method DeleteClick(target: int)
      requires Valid()
      modifies this`items
      ensures Valid() && items == Delete(old(items), target)
      ensures |items| == if HasId(old(items), target) then |old(items)| - 1 else |old(items)|
    {
      DeleteWellFormed(items, target);
      DeleteLength(items, target);
      items := Delete(items, target);
    }

    /**
      The editor's Save button: the row takes the edited name as typed (no
      blank check) and the edited quantity, or 1 when it is not a number, and
      its editor closes.
    */
    method SaveEdit(target: int, editedName: string, editedQuantity: string)
      requires Valid()
      modifies this`items
      ensures Valid()
      ensures items == CommitEdit(old(items), target, editedName, ParseIntOr(editedQuantity, EditDefaultQuantity))
    {
      var quantity := ParseIntOr(editedQuantity, EditDefaultQuantity);
      CommitEditWellFormed(items, target, editedName, quantity);
      items := CommitEdit(items, target, editedName, quantity);
    }
  }

  /**
    The editor starts from the item's name and `quantity.toString()`; saving it
    untouched only closes the editor.
  */
  lemma SaveUntouchedEditor(items: seq<ShoppingItem>, k: nat)
    requires UniqueIds(items) && k < |items|
    ensures CommitEdit(items, items[k].id, items[k].name,
                       ParseIntOr(IntToString(items[k].quantity), EditDefaultQuantity))
            == items[k := items[k].(isEditing := false)]
  {
    var r := CommitEdit(items, items[k].id, items[k].name, items[k].quantity);
    assert forall i | 0 <= i < |items| :: r[i] == items[k := items[k].(isEditing := false)][i];
  }

  /** Empty screen, add "Milk" with quantity "2": one item with id 1, form reset. */
  method AddToEmptySession()
  {
    var screen := new ShoppingListScreen();
    screen.OpenAddDialog();
    screen.SetItemName("Milk");
    screen.SetItemQuantity("2");
    assert !IsWhitespace("Milk"[0]);
    assert ParseInt("2") == Some(2);
    screen.ConfirmAdd();
    assert screen.items == [ShoppingItem(1, "Milk", 2, false)];
    assert !screen.showDialog && screen.itemName == "" && screen.itemQuantity == "";
  }

  /** A quantity that is not a number is stored as 0; a blank name adds nothing. */
  method AddDefaultsSession(screen: ShoppingListScreen)
    requires screen.Valid() && screen.items == [ShoppingItem(1, "Milk", 2, false)]
    modifies screen
  {
    screen.SetItemName("Bread");
    screen.SetItemQuantity("abc");
    assert !IsWhitespace("Bread"[0]);
    assert ParseInt("abc") == None;
    screen.ConfirmAdd();
    assert screen.items[1] == ShoppingItem(2, "Bread", 0, false);

    screen.OpenAddDialog();
    screen.SetItemName(" ");
    screen.ConfirmAdd();
    assert |screen.items| == 2 && screen.showDialog;
  }

  /** Open the editor on item 1 and save quantity "5". */
  method EditSession(screen: ShoppingListScreen)
    requires screen.Valid() && screen.items == [ShoppingItem(1, "Milk", 2, false)]
    modifies screen
  {
    screen.EditClick(1);
    assert screen.items[0].isEditing;
    assert ParseInt("5") == Some(5);
    screen.SaveEdit(1, "Milk", "5");
    assert screen.items == [ShoppingItem(1, "Milk", 5, false)];
  }

  /** Delete item 1 of two; the next add takes id 3, one more than the remaining maximum. */
  method DeleteThenAddSession(screen: ShoppingListScreen)
    requires screen.Valid()
    requires screen.items == [ShoppingItem(1, "Milk", 2, false), ShoppingItem(2, "Bread", 0, false)]
    modifies screen
  {
    screen.DeleteClick(1);
    assert screen.items == [ShoppingItem(2, "Bread", 0, false)];
    screen.SetItemName("Eggs");
    assert !IsWhitespace("Eggs"[0]);
    screen.ConfirmAdd();
    assert screen.items[1].id == 3;
  }
}
