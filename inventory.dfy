/** The player's inventory (src/inventory.ts): a plain JavaScript object from item name to item
    whose number of own entries is bounded by a capacity fixed at construction. The capacity is
    a number, so it may be fractional. Because the dictionary is a plain object, a lookup of a
    name it does not hold can still find a member inherited from `Object.prototype`, and an
    assignment to `__proto__` replaces the prototype instead of storing an entry. */
module Inventories {
  import opened PlainObjects

  /** An item. Only its name is read by the inventory; everything else the item carries is
      the opaque payload `data`. */
  datatype Item<D> = Item(name: string, data: D)

  /** The smallest whole number at or above a positive capacity. */
  function Ceiling(capacity: real): (n: int)
    ensures n as real >= capacity && (n - 1) as real < capacity
  {
    var f := capacity.Floor;
    if f as real == capacity then f else f + 1
  }

  /** The most own entries an inventory of this capacity can reach from empty: an entry is
      added only while the count is below the capacity. */
  function Bound(capacity: real): (n: nat)
    ensures capacity <= 0.0 ==> n == 0
    ensures capacity > 0.0 ==> n as real >= capacity && (n - 1) as real < capacity
  {
    if capacity <= 0.0 then 0 else Ceiling(capacity)
  }

  /** What `addItem` leaves in the dictionary and what it returns. */
  datatype AddOutcome<D> = AddOutcome(items: map<string, Item<D>>, added: bool)

  /** What `removeItem` leaves in the dictionary and what it returns. */
  datatype RemoveOutcome<D> = RemoveOutcome(items: map<string, Item<D>>, removed: bool)

  /** `addItem`: succeeds while there are fewer own entries than the capacity, whether or not
      the name is already present, and then stores the item under its name; `__proto__` stores
      nothing. */
  function Add<D>(items: map<string, Item<D>>, capacity: real, item: Item<D>): (r: AddOutcome<D>)
    ensures r.added <==> (|items| as real) < capacity
    ensures r.added && item.name != PROTO ==> item.name in r.items && r.items[item.name] == item
    ensures r.added && item.name != PROTO ==> r.items.Keys == items.Keys + {item.name}
    ensures r.added && item.name != PROTO ==> forall k :: k in items && k != item.name ==> r.items[k] == items[k]
    ensures !r.added || item.name == PROTO ==> r.items == items
  {
    if (|items| as real) < capacity then
      if item.name == PROTO then AddOutcome(items, true)
      else AddOutcome(items[item.name := item], true)
    else AddOutcome(items, false)
  }

  /** `removeItem`: the lookup is truthy for an own entry and for an inherited member; only an
      own entry is deleted. */
  function Remove<D>(items: map<string, Item<D>>, name: string): (r: RemoveOutcome<D>)
    ensures r.removed <==> name in items || name in INHERITED
    ensures r.items.Keys == items.Keys - {name}
    ensures forall k :: k in r.items ==> r.items[k] == items[k]
  {
    if name in items then RemoveOutcome(items - {name}, true)
    else if name in INHERITED then RemoveOutcome(items, true)
    else RemoveOutcome(items, false)
  }

  /** Adding never takes the entry count past the bound of the capacity. */
  lemma AddKeepsBound<D>(items: map<string, Item<D>>, capacity: real, item: Item<D>)
    requires |items| <= Bound(capacity)
    ensures |Add(items, capacity, item).items| <= Bound(capacity)
  {
    var r := Add(items, capacity, item);
    if r.added && item.name != PROTO {
      assert r.items.Keys == items.Keys + {item.name};
      assert |r.items.Keys| <= |items.Keys| + |{item.name}|;
      assert (|items| as real) < capacity;
      assert |items| < Bound(capacity);
    }
  }

  /** Re-adding a name that is present, below capacity, replaces the entry and keeps the
      entry count. */
  lemma ReAddKeepsCount<D>(items: map<string, Item<D>>, capacity: real, item: Item<D>)
    requires item.name in items && item.name != PROTO && (|items| as real) < capacity
    ensures |Add(items, capacity, item).items| == |items|
    ensures Add(items, capacity, item).items[item.name] == item
  {
    var r := Add(items, capacity, item);
    assert r.items.Keys == items.Keys;
  }

  /** Adding a name that is not held and removing it again restores the original contents and
      reports success; this holds for `__proto__` too, which neither call stores nor finds as
      an own entry. */
  lemma AddThenRemoveRestores<D>(items: map<string, Item<D>>, capacity: real, item: Item<D>)
    requires item.name !in items && (|items| as real) < capacity
    ensures Remove(Add(items, capacity, item).items, item.name).items == items
    ensures Remove(Add(items, capacity, item).items, item.name).removed
  {
    var back := Remove(Add(items, capacity, item).items, item.name).items;
    assert back.Keys == items.Keys;
  }

  /** Removing deletes exactly the named key and shrinks the entry count by one. */
  lemma RemoveShrinksByOne<D>(items: map<string, Item<D>>, name: string)
    requires name in items
    ensures |Remove(items, name).items| == |items| - 1
  {
    var r := Remove(items, name);
    assert r.items.Keys == items.Keys - {name};
    assert items.Keys == r.items.Keys + {name};
  }

  /** Removing an inherited name that is not an own entry reports success and deletes
      nothing. */
  lemma InheritedNameReportsRemoval<D>(items: map<string, Item<D>>, name: string)
    requires name in INHERITED && name !in items
    ensures Remove(items, name) == RemoveOutcome(items, true)
  {
  }

  /** Adding under `__proto__` reports success below capacity but leaves the entries, and so
      the count, as they were. */
  lemma ProtoAddStoresNothing<D>(items: map<string, Item<D>>, capacity: real, data: D)
    requires (|items| as real) < capacity
    ensures Add(items, capacity, Item(PROTO, data)) == AddOutcome(items, true)
  {
  }

  class Inventory<D> {
    var items: map<string, Item<D>>
    const capacity: real

    /** The entry count stays within the capacity (at zero for a capacity of 0 or less), and no
        entry is ever stored under `__proto__`. */
    ghost predicate Valid()
      reads this
    {
      |items| <= Bound(capacity) && PROTO !in items
    }

    constructor (capacity: real)
      ensures Valid()
      ensures this.capacity == capacity && items == map[]
    {
      this.capacity := capacity;
      items := map[];
    }

    method AddItem(item: Item<D>) returns (added: bool)
      requires Valid()
      modifies this
      ensures Valid()
      ensures AddOutcome(items, added) == Add(old(items), capacity, item)
    {
      AddKeepsBound(items, capacity, item);
      if (|items| as real) < capacity {
        if item.name != PROTO {
          items := items[item.name := item];
        }
        added := true;
      } else {
        added := false;
      }
    }

    method RemoveItem(itemName: string) returns (removed: bool)
      requires Valid()
      modifies this
      ensures Valid()
      ensures RemoveOutcome(items, removed) == Remove(old(items), itemName)
    {
      if itemName in items {
        RemoveShrinksByOne(items, itemName);
        items := items - {itemName};
        removed := true;
      } else {
        removed := itemName in INHERITED;
      }
    }

    function GetItems(): (r: map<string, Item<D>>)
      reads this
      requires Valid()
      ensures |r| <= Bound(capacity) && PROTO !in r
    {
      items
    }
  }
}
