/**
 * The equip logic of the inventory window (MWGui::InventoryWindow): dropping a
 * dragged item on the avatar equips it in the first free candidate slot, an
 * item can be unequipped again, the equipped items can be listed in slot
 * order, and the five filter buttons select the item filter.
 *
 * The inventory store is abstracted as a list of item references plus an
 * array of equipment slots; a slot is either empty (the store's end()
 * iterator) or the index of an item of the store (an iterator to it).
 */
module InventoryWindow {

  /** Number of equipment slots, MWWorld::InventoryStore::Slots. */
  const SLOTS: nat := 19

  /** One equipment slot: empty, or the index of the item of the store that it holds. */
  datatype Slot = Empty | Holds(index: nat)

  /** The five filter buttons of the window. */
  datatype FilterButton = AllButton | WeaponButton | ApparelButton | MagicButton | MiscButton

  /** The item filters of ContainerBase that the buttons select. */
  datatype Filter = FilterAll | FilterWeapon | FilterApparel | FilterMagic | FilterMisc

  /** The filter each button stands for. */
  function FilterOf(b: FilterButton): (f: Filter)
  {
    match b
    case AllButton => FilterAll
    case WeaponButton => FilterWeapon
    case ApparelButton => FilterApparel
    case MagicButton => FilterMagic
    case MiscButton => FilterMisc
  }

  /**
   * A MWWorld::Ptr together with the count kept in its RefData. Two Ptrs are
   * equal when they refer to the same object, which is object identity here.
   */
  class ItemRef {
    const id: string
    var count: int

    constructor (id: string, count: int)
      ensures this.id == id && this.count == count
    {
      this.id := id;
      this.count := count;
    }
  }

  /** Every occupied slot refers to one of the n items of the store. */
  predicate SlotsRefer(slots: seq<Slot>, n: nat)
  {
    forall s | 0 <= s < |slots| :: slots[s].Holds? ==> slots[s].index < n
  }

  /** Every candidate slot number is below n. */
  predicate ValidCandidates(cands: seq<nat>, n: nat)
  {
    forall i | 0 <= i < |cands| :: cands[i] < n
  }

  /** Slot s holds the item x of the store. */
  predicate HoldsItem<T(==)>(s: Slot, items: seq<T>, x: T)
  {
    s.Holds? && s.index < |items| && items[s.index] == x
  }

  /**
   * The position in the candidate list of the slot that equipping writes: the
   * first candidate before the last one whose slot is empty, and the last
   * candidate when every earlier one is occupied.
   */
  function ChosenCandidate(slots: seq<Slot>, cands: seq<nat>): (k: nat)
    requires |cands| > 0 && ValidCandidates(cands, |slots|)
    ensures k < |cands|
    ensures forall j | 0 <= j < k :: slots[cands[j]].Holds?
    ensures k < |cands| - 1 ==> slots[cands[k]] == Empty
  {
    if |cands| == 1 || slots[cands[0]] == Empty then 0
    else
      var k' := ChosenCandidate(slots, cands[1..]);
      assert forall j | 1 <= j < 1 + k' :: cands[j] == cands[1..][j - 1];
      1 + k'
  }

  /** Position of the first x in s, or |s| when x does not occur (the iterator search). */
  function IndexOf<T(==)>(s: seq<T>, x: T): (k: nat)
    ensures k <= |s|
    ensures k < |s| ==> s[k] == x
    ensures forall j | 0 <= j < k :: s[j] != x
    ensures x in s <==> k < |s|
  {
    if s == [] || s[0] == x then 0
    else
      var k' := IndexOf(s[1..], x);
      assert forall j | 1 <= j < 1 + k' :: s[j] == s[1..][j - 1];
      1 + k'
  }

  /** The first slot that holds x, or |slots| when no slot does. */
  function FirstHolder<T(==)>(slots: seq<Slot>, items: seq<T>, x: T): (k: nat)
    ensures k <= |slots|
    ensures forall j | 0 <= j < k :: !HoldsItem(slots[j], items, x)
    ensures k < |slots| ==> HoldsItem(slots[k], items, x)
  {
    if slots == [] || HoldsItem(slots[0], items, x) then 0
    else
      var k' := FirstHolder(slots[1..], items, x);
      assert forall j | 1 <= j < 1 + k' :: slots[j] == slots[1..][j - 1];
      1 + k'
  }

  /** The occupants of the occupied slots, in slot order. */
  function EquippedItems<T>(slots: seq<Slot>, items: seq<T>): (equipped: seq<T>)
    requires SlotsRefer(slots, |items|)
  {
    if slots == [] then []
    else
      var before := EquippedItems(slots[..|slots| - 1], items);
      match slots[|slots| - 1]
      case Empty => before
      case Holds(i) => before + [items[i]]
  }

  /** The numbers of the occupied slots, in increasing order. */
  function OccupiedSlots(slots: seq<Slot>): (occ: seq<nat>)
    ensures |occ| <= |slots|
    ensures forall j | 0 <= j < |occ| :: occ[j] < |slots| && slots[occ[j]].Holds?
    ensures forall j, k | 0 <= j < k < |occ| :: occ[j] < occ[k]
    ensures forall s | 0 <= s < |slots| && slots[s].Holds? :: s in occ
  {
    if slots == [] then []
    else
      var before := OccupiedSlots(slots[..|slots| - 1]);
      if slots[|slots| - 1].Holds? then before + [|slots| - 1] else before
  }

  /**
   * The equipped items are exactly the occupants of the occupied slots in
   * increasing slot order; in particular there are at most |slots| of them.
   */
  lemma {:induction false} EquippedItemsInSlotOrder<T>(slots: seq<Slot>, items: seq<T>)
    requires SlotsRefer(slots, |items|)
    ensures |EquippedItems(slots, items)| == |OccupiedSlots(slots)| <= |slots|
    ensures forall j | 0 <= j < |OccupiedSlots(slots)| ::
              EquippedItems(slots, items)[j] == items[slots[OccupiedSlots(slots)[j]].index]
  {
    if slots != [] {
      var init := slots[..|slots| - 1];
      EquippedItemsInSlotOrder(init, items);
      var occ, occInit := OccupiedSlots(slots), OccupiedSlots(init);
      assert forall j | 0 <= j < |occInit| :: slots[occInit[j]] == init[occInit[j]];
    }
  }

  /** The inventory store of the player: its items and its equipment slots. */
  class InventoryStore {
    var items: seq<ItemRef>
    const slots: array<Slot>

    ghost predicate Valid()
      reads this, slots
    {
      slots.Length == SLOTS && SlotsRefer(slots[..], |items|)
    }

    constructor ()
      ensures Valid() && fresh(slots)
      ensures items == [] && forall s | 0 <= s < SLOTS :: slots[s] == Empty
    {
      items := [];
      slots := new Slot[SLOTS](_ => Empty);
    }

    /** equip(slot, it): puts the iterator s into the slot; Empty (end()) clears it. */
    method Equip(slot: nat, s: Slot)
      requires Valid() && slot < SLOTS && (s.Holds? ==> s.index < |items|)
      modifies slots
      ensures Valid()
      ensures slots[..] == old(slots[..])[slot := s]
    {
      slots[slot] := s;
    }

    /** add(ptr): appends a copy of ptr and returns the iterator (index) to the copy. */
    method Add(ptr: ItemRef) returns (it: nat)
      requires Valid()
      modifies this
      ensures Valid() && slots[..] == old(slots[..])
      ensures it == |old(items)| && |items| == it + 1 && items[..it] == old(items)
      ensures fresh(items[it]) && items[it].id == ptr.id && items[it].count == ptr.count
    {
      var copy := new ItemRef(ptr.id, ptr.count);
      it := |items|;
      items := items + [copy];
      assert items[..it] == old(items);
    }
  }

  /** The drag-and-drop state shared by the item windows (MWGui::DragAndDrop). */
  class DragAndDrop {
    var isOnDragAndDrop: bool
    var draggedItem: ItemRef
    var draggedCount: int
    /** mDraggedFrom is the inventory window itself. */
    var draggedFromInventory: bool

    constructor (item: ItemRef, count: int, fromInventory: bool)
      ensures isOnDragAndDrop && draggedItem == item && draggedCount == count
      ensures draggedFromInventory == fromInventory
    {
      isOnDragAndDrop := true;
      draggedItem := item;
      draggedCount := count;
      draggedFromInventory := fromInventory;
    }
  }

  class InventoryWindow {
    const store: InventoryStore
    const dragAndDrop: DragAndDrop
    var filter: Filter
    /** The buttons in the selected state. */
    var selected: set<FilterButton>

    ghost predicate Valid()
      reads this, store, store.slots
    {
      store.Valid()
    }

    /** The filter is ContainerBase's initial filter; only the All button starts selected. */
    constructor (store: InventoryStore, dragAndDrop: DragAndDrop, initialFilter: Filter)
      requires store.Valid()
      ensures Valid() && this.store == store && this.dragAndDrop == dragAndDrop
      ensures filter == initialFilter && selected == {AllButton}
    {
      this.store := store;
      this.dragAndDrop := dragAndDrop;
      filter := initialFilter;
      selected := {AllButton};
    }

    /** onFilterChanged: the sender's filter is set and only the sender stays selected. */
    method OnFilterChanged(sender: FilterButton)
      modifies this`filter, this`selected
      ensures filter == FilterOf(sender)
      ensures selected == {sender}
    {
      if sender == AllButton {
        filter := FilterAll;
      } else if sender == WeaponButton {
        filter := FilterWeapon;
      } else if sender == ApparelButton {
        filter := FilterApparel;
      } else if sender == MagicButton {
        filter := FilterMagic;
      } else if sender == MiscButton {
        filter := FilterMisc;
      }
      selected := {sender};
    }

    /** The iterator search for ptr in the store: the first position holding it, or the end. */
    method FindInStore(ptr: ItemRef) returns (it: nat)
      ensures it == IndexOf(store.items, ptr)
      ensures it <= |store.items|
      ensures it < |store.items| <==> ptr in store.items
    {
      it := 0;
      while it < |store.items| && store.items[it] != ptr
        invariant it <= |store.items|
        invariant forall j | 0 <= j < it :: store.items[j] != ptr
      {
        it := it + 1;
      }
    }

    /**
     * The equip loop: writes item `it` into the first empty candidate slot
     * before the last one, or into the last candidate, and stops.
     */
    method EquipInFirstFreeSlot(cands: seq<nat>, it: nat)
      requires Valid() && ValidCandidates(cands, SLOTS) && it < |store.items|
      modifies store.slots
      ensures Valid()
      ensures |cands| == 0 ==> store.slots[..] == old(store.slots[..])
      ensures |cands| > 0 ==>
                store.slots[..] == old(store.slots[..])[cands[ChosenCandidate(old(store.slots[..]), cands)] := Holds(it)]
    {
      var i := 0;
      while i < |cands|
        invariant 0 <= i <= |cands|
        invariant |cands| > 0 ==> i < |cands|
        invariant store.slots[..] == old(store.slots[..])
        invariant forall j | 0 <= j < i :: store.slots[cands[j]].Holds?
      {
        // if all slots are occupied, the last one is replaced
        if i == |cands| - 1 {
          store.Equip(cands[i], Holds(it));
          return;
        }
        if store.slots[cands[i]] == Empty {
          store.Equip(cands[i], Holds(it));
          return;
        }
        i := i + 1;
      }
    }

    /**
     * onAvatarClicked with `equipmentSlots` as the dragged item's candidate
     * slots. An item without candidate slots is used instead of equipped. An
     * item from another container is split: the source keeps the original
     * count minus the dragged count and a new inventory entry holds the
     * dragged count. An item from the inventory itself must be in the store.
     */
    method OnAvatarClicked(equipmentSlots: seq<nat>)
      requires Valid() && ValidCandidates(equipmentSlots, SLOTS)
      requires dragAndDrop.isOnDragAndDrop && |equipmentSlots| > 0 && dragAndDrop.draggedFromInventory
               ==> dragAndDrop.draggedItem in store.items
      modifies dragAndDrop`isOnDragAndDrop, dragAndDrop.draggedItem, store, store.slots
      ensures Valid() && !dragAndDrop.isOnDragAndDrop
      ensures !old(dragAndDrop.isOnDragAndDrop) || |equipmentSlots| == 0 || dragAndDrop.draggedFromInventory ==>
                store.items == old(store.items) && dragAndDrop.draggedItem.count == old(dragAndDrop.draggedItem.count)
      ensures !old(dragAndDrop.isOnDragAndDrop) || |equipmentSlots| == 0 ==> store.slots[..] == old(store.slots[..])
      ensures old(dragAndDrop.isOnDragAndDrop) && |equipmentSlots| > 0 && dragAndDrop.draggedFromInventory ==>
                store.slots[..] == old(store.slots[..])[equipmentSlots[ChosenCandidate(old(store.slots[..]), equipmentSlots)]
                                                         := Holds(IndexOf(store.items, dragAndDrop.draggedItem))]
      ensures old(dragAndDrop.isOnDragAndDrop) && |equipmentSlots| > 0 && !dragAndDrop.draggedFromInventory ==>
                var n := |old(store.items)|;
                && |store.items| == n + 1 && store.items[..n] == old(store.items)
                && fresh(store.items[n]) && store.items[n].id == dragAndDrop.draggedItem.id
                && store.items[n].count == dragAndDrop.draggedCount
                && dragAndDrop.draggedItem.count == old(dragAndDrop.draggedItem.count) - dragAndDrop.draggedCount
                && dragAndDrop.draggedItem.count + store.items[n].count == old(dragAndDrop.draggedItem.count)
                && store.slots[..] == old(store.slots[..])[equipmentSlots[ChosenCandidate(old(store.slots[..]), equipmentSlots)]
                                                            := Holds(n)]
    {
      if dragAndDrop.isOnDragAndDrop {
        var ptr := dragAndDrop.draggedItem;
        if |equipmentSlots| > 0 {
          var it: nat;
          if !dragAndDrop.draggedFromInventory {
            // add the item to the player's inventory
            var origCount := ptr.count;
            ptr.count := origCount - dragAndDrop.draggedCount;
            it := store.Add(ptr);
            store.items[it].count := dragAndDrop.draggedCount;
          } else {
            it := FindInStore(ptr);
          }
          EquipInFirstFreeSlot(equipmentSlots, it);
        }
        dragAndDrop.isOnDragAndDrop := false;
      }
    }

    /** getEquippedItems: the occupants of the occupied slots, in slot order. */
    method GetEquippedItems() returns (items: seq<ItemRef>)
      requires Valid()
      ensures items == EquippedItems(store.slots[..], store.items)
      ensures |items| <= SLOTS
    {
      items := [];
      var slot := 0;
      while slot < SLOTS
        invariant 0 <= slot <= SLOTS
        invariant items == EquippedItems(store.slots[..slot], store.items)
      {
        assert store.slots[..slot + 1][..slot] == store.slots[..slot];
        var s := store.slots[slot];
        if s.Holds? {
          items := items + [store.items[s.index]];
        }
        slot := slot + 1;
      }
      assert store.slots[..SLOTS] == store.slots[..];
      EquippedItemsInSlotOrder(store.slots[..], store.items);
    }

    /** _unequipItem: empties the first slot holding the item; nothing happens when none does. */
    method UnequipItem(item: ItemRef)
      requires Valid()
      modifies store.slots
      ensures Valid()
      ensures var k := FirstHolder(old(store.slots[..]), store.items, item);
              store.slots[..] == if k < SLOTS then old(store.slots[..])[k := Empty] else old(store.slots[..])
      ensures forall s | 0 <= s < SLOTS && !HoldsItem(old(store.slots[s]), store.items, item) ::
                store.slots[s] == old(store.slots[s])
    {
      var slot := 0;
      while slot < SLOTS
        invariant 0 <= slot <= SLOTS
        invariant store.slots[..] == old(store.slots[..])
        invariant forall j | 0 <= j < slot :: !HoldsItem(store.slots[j], store.items, item)
      {
        var s := store.slots[slot];
        if s.Holds? && store.items[s.index] == item {
          store.Equip(slot, Empty);
          return;
        }
        slot := slot + 1;
      }
    }
  }
}
