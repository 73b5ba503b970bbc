/**
 * `FurnaceRefuelHandler`: a turtle burns furnace fuel from one of its slots. Every item
 * gives 5% of its furnace burn time as fuel, and the turtle takes no more items than it
 * needs to fill its tank (rounding up, so the last item may overfill it).
 */
module FurnaceRefuel {
  import opened Wrappers
  import opened JavaInt
  import opened Items
  import opened Inventories

  /** `getFuelPerItem`: `(burnTime * 5) / 100` in Java's truncating division. */
  function FuelPerItem(burnTime: int): (r: int)
    ensures burnTime >= 0 ==> r == burnTime * 5 / 100 && (r > 0 <==> burnTime >= 20)
  {
    JavaDiv(burnTime * 5, 100)
  }

  /** `(int) Math.ceil(a / (double) b)`, computed exactly. */
  function CeilDiv(a: int, b: int): int
    requires b > 0
  {
    -((-a) / b)
  }

  /** `CeilDiv` is the ceiling: the least `q` with `q * b >= a`. */
  lemma CeilDivIsCeiling(a: int, b: int)
    requires b > 0
    ensures var q := CeilDiv(a, b); q * b >= a && (q - 1) * b < a
  {
    var f := (-a) / b;
    assert -a == f * b + (-a) % b;
  }

  /** How many items `refuel` asks the slot for: `limit`, capped at the items needed to fill the tank. */
  function ItemLimit(limit: int, fuelPerItem: int, fuelLimit: int, fuelLevel: int): int
    requires fuelPerItem > 0
  {
    var fuelItemLimit := CeilDiv(fuelLimit - fuelLevel, fuelPerItem);
    if limit > fuelItemLimit then fuelItemLimit else limit
  }

  /**
   * Refuelling never takes more than `limit` items, nor an item the tank has no room
   * for: all items but the last fit entirely below the fuel limit. The fuel given is the
   * fuel per item times the items actually removed.
   */
  lemma RefuelTakesOnlyWhatFits(slot: Stack, limit: int, burnTime: int, fuelLimit: int, fuelLevel: int)
    requires FuelPerItem(burnTime) > 0
    ensures var perItem := FuelPerItem(burnTime);
      var taken := Remove(slot, ItemLimit(limit, perItem, fuelLimit, fuelLevel)).1;
      && Size(taken) <= (if limit < 0 then 0 else limit)
      && Size(taken) <= Size(slot)
      && (Size(taken) > 0 ==> (Size(taken) - 1) * perItem < fuelLimit - fuelLevel)
  {
    var perItem := FuelPerItem(burnTime);
    var cap := ItemLimit(limit, perItem, fuelLimit, fuelLevel);
    CeilDivIsCeiling(fuelLimit - fuelLevel, perItem);
    RemoveConserves(slot, cap);
    var n := Size(Remove(slot, cap).1);
    var q := CeilDiv(fuelLimit - fuelLevel, perItem);
    if n > 0 {
      assert n <= q;
      assert (n - 1) * perItem <= (q - 1) * perItem;
    }
  }

  /**
   * `refuel`. The stack's furnace burn time, the turtle's fuel limit and level, and the
   * item its crafting leaves behind (the bucket of a lava bucket) are parameters; the
   * replacement stack is returned rather than stored or dropped.
   */
  method Refuel(inventory: Inventory, slot: nat, limit: int, burnTime: int, fuelLimit: int, fuelLevel: int, leftBehind: Option<Item>)
    returns (fuel: Option<int>, replacement: Stack)
    requires inventory.Valid() && slot < |inventory.slots|
    modifies inventory
    ensures inventory.Valid()
    ensures FuelPerItem(burnTime) <= 0 ==> fuel == None && inventory.slots == old(inventory.slots) && replacement == EMPTY
    ensures FuelPerItem(burnTime) > 0 && limit == 0 ==> fuel == Some(0) && inventory.slots == old(inventory.slots) && replacement == EMPTY
    ensures FuelPerItem(burnTime) > 0 && limit != 0 ==>
      var removed := Remove(old(inventory.slots)[slot], ItemLimit(limit, FuelPerItem(burnTime), fuelLimit, fuelLevel));
      && inventory.slots == old(inventory.slots)[slot := removed.0]
      && fuel == Some(FuelPerItem(burnTime) * removed.1.count)
      && replacement == (if IsEmpty(removed.1) || leftBehind.None? then EMPTY else Stack(leftBehind.value, 1, None))
  {
    var fuelPerItem := FuelPerItem(burnTime);
    if fuelPerItem <= 0 {
      return None, EMPTY;
    }
    if limit == 0 {
      return Some(0), EMPTY;
    }
    var fuelSpaceLeft := fuelLimit - fuelLevel;
    var fuelItemLimit := CeilDiv(fuelSpaceLeft, fuelPerItem);
    var itemLimit := limit;
    if itemLimit > fuelItemLimit {
      itemLimit := fuelItemLimit;
    }
    var stack := inventory.RemoveItem(slot, itemLimit);
    var fuelToGive := fuelPerItem * stack.count;
    replacement := if IsEmpty(stack) || leftBehind.None? then EMPTY else Stack(leftBehind.value, 1, None);
    fuel := Some(fuelToGive);
  }
}
