/**
  The shopping list itself: the item record and the four transformations the
  screen's event handlers apply to the list (`map`, `filter`, `maxOfOrNull`
  and list `+` in Kotlin), as functions on sequences, together with the two
  invariants they keep: ids are pairwise distinct, and at most one item is
  being edited.
*/
module ShoppingList {
  import opened Wrappers

  /** `data class ShoppingItem(id, name, quantity, isEditing = false)`. */
  datatype ShoppingItem = ShoppingItem(id: int, name: string, quantity: int, isEditing: bool)

  /** Quantity stored by the add dialog when its quantity text is not a number. */
  const AddDefaultQuantity: int := 0
  /** Quantity stored by the inline editor when its quantity text is not a number. */
  const EditDefaultQuantity: int := 1

  // ---------------------------------------------------------------------
  // Properties of a list

  predicate HasId(items: seq<ShoppingItem>, id: int) {
    exists i | 0 <= i < |items| :: items[i].id == id
  }

  /** An id is in a non-empty list when it is the first item's or is in the rest. */
  lemma HasIdCons(items: seq<ShoppingItem>, id: int)
    requires items != []
    ensures HasId(items, id) <==> items[0].id == id || HasId(items[1..], id)
  {
    if HasId(items[1..], id) {
      var i :| 0 <= i < |items[1..]| && items[1..][i].id == id;
      assert items[i + 1].id == id;
    }
    if HasId(items, id) && items[0].id != id {
      var i :| 0 <= i < |items| && items[i].id == id;
      assert items[1..][i - 1].id == id;
    }
  }

  predicate UniqueIds(items: seq<ShoppingItem>) {
    forall i, j | 0 <= i < j < |items| :: items[i].id != items[j].id
  }

  /** Number of items whose inline editor is open. */
  function EditingCount(items: seq<ShoppingItem>): nat
    decreases |items|
  {
    if items == [] then 0
    else (if items[0].isEditing then 1 else 0) + EditingCount(items[1..])
  }

  /** The invariant the screen keeps: ids are distinct and at most one editor is open. */
  predicate WellFormed(items: seq<ShoppingItem>) {
    UniqueIds(items) && EditingCount(items) <= 1
  }

  // ---------------------------------------------------------------------
  // Add

  /** `sItems.maxOfOrNull { it.id }`. */
  function MaxId(items: seq<ShoppingItem>): (r: Option<int>)
    ensures r.None? <==> items == []
    ensures r.Some? ==> HasId(items, r.value)
    ensures r.Some? ==> forall i | 0 <= i < |items| :: items[i].id <= r.value
    decreases |items|
  {
    if items == [] then None
    else
      var rest := MaxId(items[1..]);
      if rest.Some? && rest.value > items[0].id then
        assert HasId(items[1..], rest.value);
        rest
      else Some(items[0].id)
  }

  /** `(sItems.maxOfOrNull { it.id } ?: 0) + 1`: one more than the largest id,
      1 for an empty list; hence larger than every id present. */
  function NextId(items: seq<ShoppingItem>): (id: int)
    ensures items == [] ==> id == 1
    ensures items != [] ==> HasId(items, id - 1)
    ensures forall i | 0 <= i < |items| :: items[i].id < id
  {
    var max := MaxId(items);
    (if max.Some? then max.value else 0) + 1
  }

  /** `sItems + newItem` with `newItem = ShoppingItem(NextId, name, quantity)`:
      the list grows by one item at its end, which carries a fresh id and no open editor. */
  function Add(items: seq<ShoppingItem>, name: string, quantity: int): (r: seq<ShoppingItem>)
    ensures |r| == |items| + 1 && r[..|items|] == items
    ensures r[|items|].name == name && r[|items|].quantity == quantity && !r[|items|].isEditing
    ensures r[|items|].id == NextId(items) && !HasId(items, r[|items|].id)
  {
    items + [ShoppingItem(NextId(items), name, quantity, false)]
  }

  // ---------------------------------------------------------------------
  // BeginEdit

  /** `sItems.map { it.copy(isEditing = it.id == target) }`: opens the editor of
      the items carrying `target`, closes every other, and changes nothing else. */
  function BeginEdit(items: seq<ShoppingItem>, target: int): (r: seq<ShoppingItem>)
    ensures |r| == |items|
    ensures forall i | 0 <= i < |items| ::
      && r[i].id == items[i].id && r[i].name == items[i].name
      && r[i].quantity == items[i].quantity
      && (r[i].isEditing <==> items[i].id == target)
    decreases |items|
  {
    if items == [] then []
    else [items[0].(isEditing := items[0].id == target)] + BeginEdit(items[1..], target)
  }

  // ---------------------------------------------------------------------
  // CommitEdit

  /** `sItems.map { if (it.id == target) it.copy(name, quantity, isEditing = false) else it }`:
      the items carrying `target` take the edited name and quantity and close their
      editor; every other item is left exactly as it was. */
  function CommitEdit(items: seq<ShoppingItem>, target: int, name: string, quantity: int): (r: seq<ShoppingItem>)
    ensures |r| == |items|
    ensures forall i | 0 <= i < |items| && items[i].id == target ::
      r[i] == ShoppingItem(target, name, quantity, false)
    ensures forall i | 0 <= i < |items| && items[i].id != target :: r[i] == items[i]
    decreases |items|
  {
    if items == [] then []
    else
      var head := if items[0].id == target
        then items[0].(name := name, quantity := quantity, isEditing := false)
        else items[0];
      [head] + CommitEdit(items[1..], target, name, quantity)
  }

  // ---------------------------------------------------------------------
  // Delete

  /** `sItems.filter { it.id != target }`: the items carrying `target` are
      dropped, every other item stays. */
  function Delete(items: seq<ShoppingItem>, target: int): (r: seq<ShoppingItem>)
    ensures |r| <= |items|
    ensures forall x :: x in r <==> x in items && x.id != target
    decreases |items|
  {
    if items == [] then []
    else (if items[0].id != target then [items[0]] else []) + Delete(items[1..], target)
  }

  // ---------------------------------------------------------------------
  // The editing count

  lemma {:induction false} EditingCountAppend(items: seq<ShoppingItem>, x: ShoppingItem)
    ensures EditingCount(items + [x]) == EditingCount(items) + (if x.isEditing then 1 else 0)
    decreases |items|
  {
    if items != [] {
      assert (items + [x])[1..] == items[1..] + [x];
      EditingCountAppend(items[1..], x);
    }
  }

  /** With distinct ids, opening an editor leaves exactly one editor open when
      the target is in the list and none when it is not. */
  lemma {:induction false} BeginEditEditingCount(items: seq<ShoppingItem>, target: int)
    requires UniqueIds(items)
    ensures EditingCount(BeginEdit(items, target)) == if HasId(items, target) then 1 else 0
    decreases |items|
  {
    if items != [] {
      var r := BeginEdit(items, target);
      assert r[1..] == BeginEdit(items[1..], target);
      BeginEditEditingCount(items[1..], target);
      if items[0].id == target {
        assert !HasId(items[1..], target) by {
          forall i | 0 <= i < |items[1..]| ensures items[1..][i].id != target {
            assert items[1..][i] == items[i + 1];
          }
        }
      } else {
        HasIdCons(items, target);
      }
    }
  }

  /** Saving an edit never opens an editor. */
  lemma {:induction false} CommitEditEditingCount(items: seq<ShoppingItem>, target: int, name: string, quantity: int)
    ensures EditingCount(CommitEdit(items, target, name, quantity)) <= EditingCount(items)
    decreases |items|
  {
    if items != [] {
      var r := CommitEdit(items, target, name, quantity);
      assert r[1..] == CommitEdit(items[1..], target, name, quantity);
      CommitEditEditingCount(items[1..], target, name, quantity);
    }
  }

  /** Deleting never opens an editor. */
  lemma {:induction false} DeleteEditingCount(items: seq<ShoppingItem>, target: int)
    ensures EditingCount(Delete(items, target)) <= EditingCount(items)
    decreases |items|
  {
    if items != [] {
      DeleteEditingCount(items[1..], target);
      var rest := Delete(items[1..], target);
      if items[0].id != target {
        assert ([items[0]] + rest)[1..] == rest;
      } else {
        assert Delete(items, target) == rest;
      }
    }
  }

  // ---------------------------------------------------------------------
  // Delete: what is removed and what keeps its place

  lemma {:induction false} DeleteAbsent(items: seq<ShoppingItem>, target: int)
    requires !HasId(items, target)
    ensures Delete(items, target) == items
    decreases |items|
  {
    if items != [] {
      HasIdCons(items, target);
      DeleteAbsent(items[1..], target);
      assert [items[0]] + items[1..] == items;
    }
  }

  lemma {:induction false} DeleteAppend(items: seq<ShoppingItem>, x: ShoppingItem, target: int)
    ensures Delete(items + [x], target) == Delete(items, target) + (if x.id != target then [x] else [])
    decreases |items|
  {
    if items != [] {
      assert (items + [x])[1..] == items[1..] + [x];
      DeleteAppend(items[1..], x, target);
    }
  }

  /** With distinct ids, deleting the id of the item at position k removes that
      item and keeps all the others in their order. */
  lemma {:induction false} DeleteAt(items: seq<ShoppingItem>, k: nat)
    requires UniqueIds(items) && k < |items|
    ensures Delete(items, items[k].id) == items[..k] + items[k + 1..]
    decreases k
  {
    var target := items[k].id;
    if k == 0 {
      assert !HasId(items[1..], target) by {
        forall i | 0 <= i < |items[1..]| ensures items[1..][i].id != target {
          assert items[1..][i] == items[i + 1];
        }
      }
      DeleteAbsent(items[1..], target);
    } else {
      var tail := items[1..];
      assert UniqueIds(tail) by {
        forall i, j | 0 <= i < j < |tail| ensures tail[i].id != tail[j].id {
          assert tail[i] == items[i + 1] && tail[j] == items[j + 1];
        }
      }
      assert tail[k - 1] == items[k];
      DeleteAt(tail, k - 1);
      assert items[0].id != target;
      assert [items[0]] + (tail[..k - 1] + tail[k..]) == items[..k] + items[k + 1..];
    }
  }

  /** With distinct ids, Delete shortens the list by one when the id is present
      and leaves it as it is otherwise. */
  lemma DeleteLength(items: seq<ShoppingItem>, target: int)
    requires UniqueIds(items)
    ensures HasId(items, target) ==> |Delete(items, target)| == |items| - 1
    ensures !HasId(items, target) ==> Delete(items, target) == items
  {
    if HasId(items, target) {
      var k :| 0 <= k < |items| && items[k].id == target;
      DeleteAt(items, k);
    } else {
      DeleteAbsent(items, target);
    }
  }

  lemma {:induction false} DeleteUniqueIds(items: seq<ShoppingItem>, target: int)
    requires UniqueIds(items)
    ensures UniqueIds(Delete(items, target))
    decreases |items|
  {
    if items != [] {
      var tail := items[1..];
      assert UniqueIds(tail) by {
        forall i, j | 0 <= i < j < |tail| ensures tail[i].id != tail[j].id {
          assert tail[i] == items[i + 1] && tail[j] == items[j + 1];
        }
      }
      DeleteUniqueIds(tail, target);
      if items[0].id != target {
        var rest := Delete(tail, target);
        var r := [items[0]] + rest;
        forall i, j | 0 <= i < j < |r| ensures r[i].id != r[j].id {
          if i == 0 {
            assert r[j] == rest[j - 1] && r[j] in tail;
            var m :| 0 <= m < |tail| && tail[m] == r[j];
            assert items[m + 1] == r[j];
          } else {
            assert r[i] == rest[i - 1] && r[j] == rest[j - 1];
          }
        }
      }
    }
  }

  // ---------------------------------------------------------------------
  // Every handler keeps the list well formed

  lemma AddWellFormed(items: seq<ShoppingItem>, name: string, quantity: int)
    requires WellFormed(items)
    ensures WellFormed(Add(items, name, quantity))
  {
    var r := Add(items, name, quantity);
    assert r == items + [r[|items|]];
    EditingCountAppend(items, r[|items|]);
  }

  lemma BeginEditWellFormed(items: seq<ShoppingItem>, target: int)
    requires UniqueIds(items)
    ensures WellFormed(BeginEdit(items, target))
  {
    BeginEditEditingCount(items, target);
  }

  lemma CommitEditWellFormed(items: seq<ShoppingItem>, target: int, name: string, quantity: int)
    requires WellFormed(items)
    ensures WellFormed(CommitEdit(items, target, name, quantity))
  {
    CommitEditEditingCount(items, target, name, quantity);
  }

  lemma DeleteWellFormed(items: seq<ShoppingItem>, target: int)
    requires WellFormed(items)
    ensures WellFormed(Delete(items, target))
  {
    DeleteUniqueIds(items, target);
    DeleteEditingCount(items, target);
  }

  /** Delete undoes Add: removing the id the add just handed out restores the
      list exactly, so the following add hands out the same id again. */
  lemma DeleteUndoesAdd(items: seq<ShoppingItem>, name: string, quantity: int)
    ensures Delete(Add(items, name, quantity), NextId(items)) == items
    ensures NextId(Delete(Add(items, name, quantity), NextId(items))) == NextId(items)
  {
    var r := Add(items, name, quantity);
    assert r == items + [r[|items|]];
    DeleteAppend(items, r[|items|], NextId(items));
    DeleteAbsent(items, NextId(items));
  }
}
