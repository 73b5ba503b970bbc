/**
 * `InventoryUtil`: comparing stacks, storing a stack into a range of slots starting
 * from a given slot and wrapping round, and gathering up to `count` items of one kind
 * from a range of slots.
 */
module InventoryUtil {
  import opened Items
  import opened Inventories
  import opened JavaInt

  /** `InventoryUtil.areItemsEqual`: the same stack, or stacks that match. */
  function AreItemsEqual(a: Stack, b: Stack): bool {
    a == b || Matches(a, b)
  }

  /** `InventoryUtil.areItemsStackable`: the same stack, or stacks that could be merged. */
  function AreItemsStackable(a: Stack, b: Stack): bool {
    a == b || CanStack(a, b)
  }

  /**
   * The short-circuit on identity makes both comparisons reflexive, even for an empty
   * stack, which `canItemStacksStack` alone would reject. Equality implies stackability
   * for non-empty stacks, and both relations are symmetric.
   */
  lemma ComparisonsReflexive(a: Stack, b: Stack)
    ensures AreItemsEqual(a, a) && AreItemsStackable(a, a)
    ensures IsEmpty(a) ==> !CanStack(a, a)
    ensures AreItemsEqual(a, b) && !IsEmpty(a) ==> AreItemsStackable(a, b)
    ensures AreItemsEqual(a, b) == AreItemsEqual(b, a)
    ensures AreItemsStackable(a, b) == AreItemsStackable(b, a)
  {
  }


  /**
   * Slot `i` of a scan over `range` slots from `start` that begins at `begin`: the scan
   * starts at `begin` and wraps round to `start`.
   */
  function ScanSlot(start: nat, range: nat, begin: nat, i: nat): (slot: nat)
    requires start <= begin && 0 < range
  {
    start + (i + begin - start) % range
  }

  /** The scan stays within `[start, start + range)`, starts at `begin`, and visits no slot twice. */
  lemma ScanVisitsEachSlotOnce(start: nat, range: nat, begin: nat, i: nat, j: nat)
    requires start <= begin && 0 < range && i < range && j < range
    ensures start <= ScanSlot(start, range, begin, i) < start + range
    ensures begin < start + range ==> ScanSlot(start, range, begin, 0) == begin
    ensures i != j ==> ScanSlot(start, range, begin, i) != ScanSlot(start, range, begin, j)
  {
    var d := begin - start;
    if d < range {
      SmallMod(d, range);
    }
    if i < j {
      ModDistinct(i + d, j + d, range);
    } else if j < i {
      ModDistinct(j + d, i + d, range);
    }
  }

  lemma SmallMod(a: nat, m: nat)
    requires a < m
    ensures a % m == a
  {
  }

  /** Two numbers closer together than `m` leave different remainders. */
  lemma ModDistinct(a: nat, b: nat, m: nat)
    requires a < b < a + m
    ensures a % m != b % m
  {
    var qa, qb := a / m, b / m;
    assert a == qa * m + a % m;
    assert b == qb * m + b % m;
    if a % m == b % m {
      assert b - a == (qb - qa) * m;
      MulAtLeast(qb - qa, m);
    }
  }

  /** The scan reaches every slot of the range. */
  lemma ScanReaches(start: nat, range: nat, begin: nat, k: nat) returns (j: nat)
    requires start <= begin && 0 < range && start <= k < start + range
    ensures j < range && ScanSlot(start, range, begin, j) == k
  {
    var d := begin - start;
    var m := k - start;
    j := (m - d) % range;
    var q := (m - d) / range;
    assert m - d == q * range + j;
    assert j + d == -q * range + m;
    ModUnique(j + d, -q, range, m);
  }

  /** The remainder is the `r` of any decomposition `x == p * m + r` with `0 <= r < m`. */
  lemma ModUnique(x: int, p: int, m: int, r: int)
    requires m > 0 && 0 <= r < m && x == p * m + r
    ensures x % m == r
  {
    var q := x / m;
    assert x == q * m + x % m;
    assert (p - q) * m == x % m - r;
    MulAtLeast(p - q, m);
  }

  /** A scan that fits in the inventory. */
  predicate ScanOk(slots: seq<Stack>, start: nat, range: nat, begin: nat) {
    start <= begin && start + range <= |slots|
  }

  /** The loop of `storeItems` from step `i` on, carrying the remainder; it stops once nothing remains. */
  function StoreFrom(slots: seq<Stack>, remainder: Stack, start: nat, range: nat, begin: nat, i: nat): (r: (seq<Stack>, Stack))
    requires ScanOk(slots, start, range, begin)
    ensures |r.0| == |slots|
    decreases range - i
  {
    if i >= range || IsEmpty(remainder) then (slots, remainder)
    else
      var slot := ScanSlot(start, range, begin, i);
      var (after, rest) := Insert(slots[slot], remainder);
      StoreFrom(slots[slot := after], rest, start, range, begin, i + 1)
  }

  /**
   * `storeItems(stack, inventory, start, range, begin)`: the slots afterwards, what is
   * returned, and whether what is returned is the very `stack` object that was passed in.
   */
  function Store(slots: seq<Stack>, stack: Stack, start: nat, range: nat, begin: nat): (r: (seq<Stack>, Stack, bool))
    requires ScanOk(slots, start, range, begin)
  {
    if IsEmpty(stack) then (slots, EMPTY, stack == EMPTY)
    else
      var (after, remainder) := StoreFrom(slots, Copy(stack), start, range, begin, 0);
      if AreItemsEqual(stack, remainder) then (after, stack, true) else (after, remainder, false)
  }

  /** The facts a remainder keeps while the scan runs: items are only moved, and only into the scanned slots. */
  lemma {:induction false} StoreFromMoves(slots: seq<Stack>, remainder: Stack, start: nat, range: nat, begin: nat, i: nat)
    requires ScanOk(slots, start, range, begin) && ValidSlots(slots) && ValidStack(remainder)
    ensures var (after, rest) := StoreFrom(slots, remainder, start, range, begin, i);
      && ValidSlots(after) && ValidStack(rest)
      && Total(after) + Size(rest) == Total(slots) + Size(remainder)
      && (IsEmpty(rest) || (rest.item == remainder.item && rest.tag == remainder.tag && rest.count <= remainder.count))
      && (Size(rest) == Size(remainder) ==> after == slots)
      && (forall k :: 0 <= k < |slots| && after[k] != slots[k] ==>
            start <= k < start + range && after[k].item == remainder.item && after[k].tag == remainder.tag)
    decreases range - i
  {
    if i >= range || IsEmpty(remainder) {
    } else {
      var slot := ScanSlot(start, range, begin, i);
      ScanVisitsEachSlotOnce(start, range, begin, i, i);
      var (after, rest) := Insert(slots[slot], remainder);
      InsertConserves(slots[slot], remainder);
      TotalUpdate(slots, slot, after);
      var next := slots[slot := after];
      StoreFromMoves(next, rest, start, range, begin, i + 1);
    }
  }

  /**
   * `storeItems` moves items without creating or destroying any: what the slots gained
   * is what the returned stack lacks. Only slots of the scanned range change, and only to
   * hold the stored item. The very input stack comes back exactly when nothing was
   * stored, which happens exactly when no slot of the range accepts any of it; an empty
   * stack comes back as `EMPTY` and changes nothing.
   */
  lemma StoreConserves(slots: seq<Stack>, stack: Stack, start: nat, range: nat, begin: nat)
    requires ScanOk(slots, start, range, begin) && ValidSlots(slots) && ValidStack(stack)
    ensures var (after, result, isInput) := Store(slots, stack, start, range, begin);
      && ValidSlots(after) && |after| == |slots|
      && Total(after) + Size(result) == Total(slots) + Size(stack)
      && (forall k :: 0 <= k < |slots| && after[k] != slots[k] ==>
            start <= k < start + range && after[k].item == stack.item && after[k].tag == stack.tag)
      && (!IsEmpty(stack) ==> (isInput <==> Total(after) == Total(slots)))
      && (isInput ==> result == stack && after == slots)
      && (IsEmpty(stack) ==> after == slots && result == EMPTY)
      && (!IsEmpty(result) ==> result.item == stack.item && result.tag == stack.tag && result.count <= stack.count)
      && (!IsEmpty(stack) ==> (isInput <==> forall k :: start <= k < start + range ==> !Accepts(slots[k], stack)))
  {
    if !IsEmpty(stack) {
      StoreFromMoves(slots, stack, start, range, begin, 0);
      StoreFindsRoom(slots, stack, start, range, begin);
    }
  }

  /** A non-empty stack comes back as the very input exactly when no slot of the range accepts any of it. */
  lemma StoreFindsRoom(slots: seq<Stack>, stack: Stack, start: nat, range: nat, begin: nat)
    requires ScanOk(slots, start, range, begin) && ValidSlots(slots) && ValidStack(stack) && !IsEmpty(stack)
    ensures Store(slots, stack, start, range, begin).2 <==> forall k :: start <= k < start + range ==> !Accepts(slots[k], stack)
  {
    if forall k :: start <= k < start + range ==> !Accepts(slots[k], stack) {
      StoreFromRejected(slots, stack, start, range, begin, 0);
    } else {
      var k :| start <= k < start + range && Accepts(slots[k], stack);
      var j := ScanReaches(start, range, begin, k);
      StoreFromStores(slots, stack, start, range, begin, 0, j);
    }
  }

  /** When no slot left to scan accepts the remainder, the rest of the loop changes nothing. */
  lemma {:induction false} StoreFromRejected(slots: seq<Stack>, remainder: Stack, start: nat, range: nat, begin: nat, i: nat)
    requires ScanOk(slots, start, range, begin) && ValidStack(remainder) && !IsEmpty(remainder)
    requires forall k :: start <= k < start + range ==> !Accepts(slots[k], remainder)
    ensures StoreFrom(slots, remainder, start, range, begin, i) == (slots, remainder)
    decreases range - i
  {
    if i < range {
      var slot := ScanSlot(start, range, begin, i);
      ScanVisitsEachSlotOnce(start, range, begin, i, i);
      InsertAccepts(slots[slot], remainder);
      assert slots[slot := slots[slot]] == slots;
      StoreFromRejected(slots, remainder, start, range, begin, i + 1);
    }
  }

  /**
   * When a slot still to be scanned (step `j`) accepts the remainder, the loop stores
   * something: what comes back is smaller than the remainder.
   */
  lemma {:induction false} StoreFromStores(slots: seq<Stack>, remainder: Stack, start: nat, range: nat, begin: nat, i: nat, j: nat)
    requires ScanOk(slots, start, range, begin) && ValidSlots(slots) && ValidStack(remainder) && !IsEmpty(remainder)
    requires i <= j < range && Accepts(slots[ScanSlot(start, range, begin, j)], remainder)
    ensures Size(StoreFrom(slots, remainder, start, range, begin, i).1) < Size(remainder)
    decreases range - i
  {
    var slot := ScanSlot(start, range, begin, i);
    ScanVisitsEachSlotOnce(start, range, begin, i, j);
    var (after, rest) := Insert(slots[slot], remainder);
    InsertAccepts(slots[slot], remainder);
    InsertConserves(slots[slot], remainder);
    var next := slots[slot := after];
    if Size(rest) < Size(remainder) {
      StoreFromMoves(next, rest, start, range, begin, i + 1);
    } else {
      assert next == slots && rest == remainder;
      StoreFromStores(slots, remainder, start, range, begin, i + 1, j);
    }
  }

  /** The loop of `storeItems`, written as it runs over a mutable inventory. */
  method StoreItems(inventory: Inventory, stack: Stack, start: nat, range: nat, begin: nat)
    returns (result: Stack, isInput: bool)
    requires inventory.Valid() && ValidStack(stack) && ScanOk(inventory.slots, start, range, begin)
    modifies inventory
    ensures inventory.Valid()
    ensures (inventory.slots, result, isInput) == Store(old(inventory.slots), stack, start, range, begin)
  {
    if IsEmpty(stack) {
      return EMPTY, stack == EMPTY;
    }
    var remainder := Copy(stack);
    var i := 0;
    while i < range
      invariant 0 <= i <= range
      invariant inventory.Valid() && ValidStack(remainder) && |inventory.slots| == |old(inventory.slots)|
      invariant StoreFrom(inventory.slots, remainder, start, range, begin, i)
             == StoreFrom(old(inventory.slots), stack, start, range, begin, 0)
    {
      var slot := ScanSlot(start, range, begin, i);
      ScanVisitsEachSlotOnce(start, range, begin, i, i);
      if IsEmpty(remainder) {
        break;
      }
      InsertConserves(inventory.slots[slot], remainder);
      remainder := inventory.InsertItem(slot, remainder);
      i := i + 1;
    }
    if AreItemsEqual(stack, remainder) {
      result, isInput := stack, true;
    } else {
      result, isInput := remainder, false;
    }
  }

  /** `storeItems(stack, inventory, begin)`: the whole inventory, starting at `begin`. */
  method StoreItemsFrom(inventory: Inventory, stack: Stack, begin: nat) returns (result: Stack, isInput: bool)
    requires inventory.Valid() && ValidStack(stack)
    modifies inventory
    ensures inventory.Valid()
    ensures (inventory.slots, result, isInput) == Store(old(inventory.slots), stack, 0, |old(inventory.slots)|, begin)
  {
    result, isInput := StoreItems(inventory, stack, 0, |inventory.slots|, begin);
  }

  /** `storeItems(stack, inventory)`: the whole inventory, from its first slot. */
  method StoreItemsAll(inventory: Inventory, stack: Stack) returns (result: Stack, isInput: bool)
    requires inventory.Valid() && ValidStack(stack)
    modifies inventory
    ensures inventory.Valid()
    ensures (inventory.slots, result, isInput) == Store(old(inventory.slots), stack, 0, |old(inventory.slots)|, 0)
  {
    result, isInput := StoreItems(inventory, stack, 0, |inventory.slots|, 0);
  }

  /**
   * One turn of the loop of `takeItems` on `slot`: extracts from it when it holds
   * something that stacks with what was gathered; caps the budget at one stack of the
   * item on the first extraction. Returns the slots, the budget left and the gathered stack.
   */
  function TakeStep(slots: seq<Stack>, count: int, partial: Stack, slot: nat): (r: (seq<Stack>, int, Stack))
    requires slot < |slots|
  {
    var stack := slots[slot];
    if !IsEmpty(stack) && (IsEmpty(partial) || AreItemsStackable(stack, partial)) then
      var (after, extracted) := Extract(stack, count);
      var next := slots[slot := after];
      if IsEmpty(extracted) then (next, count, partial)
      else if IsEmpty(partial) then (next, Min(count, extracted.item.maxStackSize) - extracted.count, extracted)
      else (next, count - extracted.count, Grow(partial, extracted.count))
    else (slots, count, partial)
  }

  /**
   * The loop of `takeItems` from step `i` on: `count` is what may still be taken and
   * `partial` what has been gathered so far.
   */
  function TakeFrom(slots: seq<Stack>, count: int, partial: Stack, start: nat, range: nat, begin: nat, i: nat): (r: (seq<Stack>, Stack))
    requires ScanOk(slots, start, range, begin)
    ensures |r.0| == |slots|
    decreases range - i
  {
    if i >= range || count <= 0 then (slots, partial)
    else
      var (next, left, gathered) := TakeStep(slots, count, partial, ScanSlot(start, range, begin, i));
      TakeFrom(next, left, gathered, start, range, begin, i + 1)
  }

  /** `takeItems(count, inventory, start, range, begin)`: the slots afterwards and the gathered stack. */
  function Take(slots: seq<Stack>, count: int, start: nat, range: nat, begin: nat): (r: (seq<Stack>, Stack))
    requires ScanOk(slots, start, range, begin)
  {
    TakeFrom(slots, count, EMPTY, start, range, begin, 0)
  }

  /**
   * What the loop of `takeItems` keeps: before the first extraction nothing is gathered
   * and the budget is the requested count; afterwards the gathered count plus the budget
   * left is the request capped at one stack of the gathered item.
   */
  predicate Budget(partial: Stack, count: int, requested: int) {
    if IsEmpty(partial) then partial == EMPTY && count == requested
    else count >= 0 && partial.count + count == Min(requested, partial.item.maxStackSize)
  }

  /** One turn keeps the budget, moves items without loss, and changes only `slot`, which held the gathered item. */
  lemma TakeStepKeeps(slots: seq<Stack>, count: int, partial: Stack, requested: int, slot: nat)
    requires slot < |slots| && ValidSlots(slots) && ValidStack(partial) && count > 0
    requires Budget(partial, count, requested)
    ensures var (next, left, gathered) := TakeStep(slots, count, partial, slot);
      && |next| == |slots| && ValidSlots(next) && ValidStack(gathered) && Budget(gathered, left, requested)
      && Total(next) + Size(gathered) == Total(slots) + Size(partial)
      && (IsEmpty(gathered) ==> next == slots)
      && (!IsEmpty(partial) ==> gathered.item == partial.item && gathered.tag == partial.tag)
      && (forall k :: 0 <= k < |slots| && next[k] != slots[k] ==>
            k == slot && !IsEmpty(gathered) && slots[k].item == gathered.item && slots[k].tag == gathered.tag)
  {
    var stack := slots[slot];
    if !IsEmpty(stack) && (IsEmpty(partial) || AreItemsStackable(stack, partial)) {
      var (after, extracted) := Extract(stack, count);
      ExtractConserves(stack, count);
      TotalUpdate(slots, slot, after);
    }
  }

  lemma {:induction false} TakeFromGathers(slots: seq<Stack>, count: int, partial: Stack, requested: int, start: nat, range: nat, begin: nat, i: nat)
    requires ScanOk(slots, start, range, begin) && ValidSlots(slots) && ValidStack(partial)
    requires Budget(partial, count, requested)
    ensures var (after, result) := TakeFrom(slots, count, partial, start, range, begin, i);
      && ValidSlots(after) && ValidStack(result)
      && Total(after) + Size(result) == Total(slots) + Size(partial)
      && (IsEmpty(result) ==> result == EMPTY && after == slots)
      && (!IsEmpty(partial) ==> result.item == partial.item && result.tag == partial.tag)
      && (!IsEmpty(result) ==> result.count <= Min(requested, result.item.maxStackSize))
      && (forall k :: 0 <= k < |slots| && after[k] != slots[k] ==>
            start <= k < start + range && slots[k].item == result.item && slots[k].tag == result.tag)
    decreases range - i
  {
    if i >= range || count <= 0 {
    } else {
      var slot := ScanSlot(start, range, begin, i);
      ScanVisitsEachSlotOnce(start, range, begin, i, i);
      var (next, left, gathered) := TakeStep(slots, count, partial, slot);
      TakeStepKeeps(slots, count, partial, requested, slot);
      TakeFromGathers(next, left, gathered, requested, start, range, begin, i + 1);
    }
  }

  /**
   * `takeItems` moves items out without creating or destroying any: what the slots lost
   * is what the returned stack holds. It returns `EMPTY` and changes nothing when `count`
   * is not positive or, exactly then for a positive count, when every slot of the range
   * is empty. It takes only from slots of
   * the range holding the returned item, and never more than `count` nor more than one
   * stack of that item.
   */
  lemma TakeGathers(slots: seq<Stack>, count: int, start: nat, range: nat, begin: nat)
    requires ScanOk(slots, start, range, begin) && ValidSlots(slots)
    ensures var (after, result) := Take(slots, count, start, range, begin);
      && ValidSlots(after) && ValidStack(result)
      && Total(after) + Size(result) == Total(slots)
      && (count <= 0 ==> result == EMPTY && after == slots)
      && (IsEmpty(result) ==> result == EMPTY && after == slots)
      && (!IsEmpty(result) ==> result.count <= count && result.count <= result.item.maxStackSize)
      && (forall k :: 0 <= k < |slots| && after[k] != slots[k] ==>
            start <= k < start + range && slots[k].item == result.item && slots[k].tag == result.tag)
      && (count > 0 ==> (IsEmpty(result) <==> forall k :: start <= k < start + range ==> IsEmpty(slots[k])))
  {
    TakeFromGathers(slots, count, EMPTY, count, start, range, begin, 0);
    if count > 0 {
      if forall k :: start <= k < start + range ==> IsEmpty(slots[k]) {
        TakeFromNothing(slots, count, start, range, begin, 0);
      } else {
        var k :| start <= k < start + range && !IsEmpty(slots[k]);
        var j := ScanReaches(start, range, begin, k);
        TakeFromFinds(slots, count, start, range, begin, 0, j);
      }
    }
  }

  /** Once something is gathered, the rest of the loop never empties it. */
  lemma {:induction false} TakeFromKeepsGathered(slots: seq<Stack>, count: int, partial: Stack, start: nat, range: nat, begin: nat, i: nat)
    requires ScanOk(slots, start, range, begin) && !IsEmpty(partial)
    ensures !IsEmpty(TakeFrom(slots, count, partial, start, range, begin, i).1)
    decreases range - i
  {
    if i < range && count > 0 {
      var (next, left, gathered) := TakeStep(slots, count, partial, ScanSlot(start, range, begin, i));
      TakeFromKeepsGathered(next, left, gathered, start, range, begin, i + 1);
    }
  }

  /** With nothing gathered yet, a non-empty slot still to be scanned (step `j`) yields something. */
  lemma {:induction false} TakeFromFinds(slots: seq<Stack>, count: int, start: nat, range: nat, begin: nat, i: nat, j: nat)
    requires ScanOk(slots, start, range, begin) && ValidSlots(slots) && count > 0
    requires i <= j < range && !IsEmpty(slots[ScanSlot(start, range, begin, j)])
    ensures !IsEmpty(TakeFrom(slots, count, EMPTY, start, range, begin, i).1)
    decreases range - i
  {
    var slot := ScanSlot(start, range, begin, i);
    ScanVisitsEachSlotOnce(start, range, begin, i, j);
    var (next, left, gathered) := TakeStep(slots, count, EMPTY, slot);
    if IsEmpty(slots[slot]) {
      TakeFromFinds(slots, count, start, range, begin, i + 1, j);
    } else {
      ExtractConserves(slots[slot], count);
      TakeFromKeepsGathered(next, left, gathered, start, range, begin, i + 1);
    }
  }

  /** With nothing gathered yet, a range of empty slots yields nothing and changes nothing. */
  lemma {:induction false} TakeFromNothing(slots: seq<Stack>, count: int, start: nat, range: nat, begin: nat, i: nat)
    requires ScanOk(slots, start, range, begin)
    requires forall k :: start <= k < start + range ==> IsEmpty(slots[k])
    ensures TakeFrom(slots, count, EMPTY, start, range, begin, i) == (slots, EMPTY)
    decreases range - i
  {
    if i < range && count > 0 {
      ScanVisitsEachSlotOnce(start, range, begin, i, i);
      TakeFromNothing(slots, count, start, range, begin, i + 1);
    }
  }

  /** The loop of `takeItems`, written as it runs over a mutable inventory. */
  method TakeItems(count: int, inventory: Inventory, start: nat, range: nat, begin: nat) returns (result: Stack)
    requires inventory.Valid() && ScanOk(inventory.slots, start, range, begin)
    modifies inventory
    ensures inventory.Valid()
    ensures (inventory.slots, result) == Take(old(inventory.slots), count, start, range, begin)
  {
    var partialStack := EMPTY;
    var budget := count;
    var i := 0;
    while i < range
      invariant 0 <= i <= range
      invariant inventory.Valid() && ValidStack(partialStack) && |inventory.slots| == |old(inventory.slots)|
      invariant TakeFrom(inventory.slots, budget, partialStack, start, range, begin, i)
             == Take(old(inventory.slots), count, start, range, begin)
    {
      var slot := ScanSlot(start, range, begin, i);
      ScanVisitsEachSlotOnce(start, range, begin, i, i);
      if budget <= 0 {
        break;
      }
      var stack := inventory.StackInSlot(slot);
      if !IsEmpty(stack) && (IsEmpty(partialStack) || AreItemsStackable(stack, partialStack)) {
        ExtractConserves(stack, budget);
        var extracted := inventory.ExtractItem(slot, budget);
        if !IsEmpty(extracted) {
          if IsEmpty(partialStack) {
            partialStack := extracted;
            budget := Min(budget, extracted.item.maxStackSize);
          } else {
            partialStack := Grow(partialStack, extracted.count);
          }
          budget := budget - extracted.count;
        }
      }
      i := i + 1;
    }
    return partialStack;
  }

  /** `takeItems(count, inventory)`: the whole inventory, from its first slot. */
  method TakeItemsAll(count: int, inventory: Inventory) returns (result: Stack)
    requires inventory.Valid()
    modifies inventory
    ensures inventory.Valid()
    ensures (inventory.slots, result) == Take(old(inventory.slots), count, 0, |old(inventory.slots)|, 0)
  {
    result := TakeItems(count, inventory, 0, |inventory.slots|, 0);
  }
}
