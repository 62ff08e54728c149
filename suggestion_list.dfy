/**
 * components/auto-complete/SuggestionList.tsx: the pure projection of the
 * suggestion items to the entries of the list box. Markup, styling, the
 * React `key` and the click forwarding of each entry are presentation and
 * are not modelled; an entry is its element id, its text and whether it is
 * the active (highlighted) one.
 */
module SuggestionList {
  import Decimal

  datatype Entry = Entry(id: string, text: string, isActive: bool)

  /** The id of the list box element. */
  function ListboxId(customId: string): string {
    customId + "-listbox"
  }

  /** The id of the entry rendered for the item at index i. */
  function ItemId(customId: string, i: nat): string {
    customId + "-item-" + Decimal.FromNat(i)
  }

  /** `items.map((item, i) => ...)`: one entry per item, in item order. */
  function Entries<T>(customId: string, items: seq<T>, activeItem: int,
                      itemToString: T -> string): (entries: seq<Entry>)
    ensures |entries| == |items|
    ensures forall i :: 0 <= i < |items| ==>
              && entries[i].id == ItemId(customId, i)
              && entries[i].text == itemToString(items[i])
              && (entries[i].isActive <==> i == activeItem)
  {
    seq(|items|, i requires 0 <= i < |items| =>
      Entry(ItemId(customId, i), itemToString(items[i]), i == activeItem))
  }

  /** An empty item list yields no entries. */
  lemma NoItemsNoEntries<T>(customId: string, activeItem: int, itemToString: T -> string)
    ensures Entries(customId, [], activeItem, itemToString) == []
  {
  }

  /**
   * At most one entry is active, and one is exactly when activeItem is an
   * index of the items: none for -1 or an index past the end.
   */
  lemma ActiveEntryIsUnique<T>(customId: string, items: seq<T>, activeItem: int,
                               itemToString: T -> string)
    ensures var entries := Entries(customId, items, activeItem, itemToString);
      && (forall i, j :: 0 <= i < j < |entries| ==> !(entries[i].isActive && entries[j].isActive))
      && ((exists i :: 0 <= i < |entries| && entries[i].isActive) <==> 0 <= activeItem < |items|)
  {
    var entries := Entries(customId, items, activeItem, itemToString);
    if 0 <= activeItem < |items| {
      assert entries[activeItem].isActive;
    }
  }

  /** No two entries share an element id, so an id lookup finds one entry. */
  lemma EntryIdsAreDistinct<T>(customId: string, items: seq<T>, activeItem: int,
                               itemToString: T -> string, i: nat, j: nat)
    requires i < |items| && j < |items| && i != j
    ensures Entries(customId, items, activeItem, itemToString)[i].id
         != Entries(customId, items, activeItem, itemToString)[j].id
  {
    var prefix := customId + "-item-";
    if ItemId(customId, i) == ItemId(customId, j) {
      assert ItemId(customId, i)[|prefix|..] == Decimal.FromNat(i);
      assert ItemId(customId, j)[|prefix|..] == Decimal.FromNat(j);
      Decimal.FromNatInjective(i, j);
    }
  }
}
