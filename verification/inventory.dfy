/**
 * An item handler over a fixed number of slots, following the rules of Forge's
 * `ItemStackHandler` (every slot holds at most 64 items and at most the item's own
 * stack size; a slot accepts only stacks it can merge with), plus the vanilla
 * `Container.removeItem` used by the turtle's own inventory.
 */
module Inventories {
  import opened Items

  /** `ItemStackHandler.getSlotLimit`. */
  const SLOT_LIMIT: int := 64

  function Min(a: int, b: int): int {
    if a < b then a else b
  }

  /** The number of items in all slots. */
  function Total(slots: seq<Stack>): nat {
    if slots == [] then 0 else Size(slots[0]) + Total(slots[1..])
  }

  lemma {:induction false} TotalUpdate(slots: seq<Stack>, i: nat, s: Stack)
    requires i < |slots|
    ensures Total(slots[i := s]) == Total(slots) - Size(slots[i]) + Size(s)
    decreases |slots|
  {
    if i > 0 {
      assert slots[i := s][1..] == slots[1..][i - 1 := s];
      TotalUpdate(slots[1..], i - 1, s);
    } else {
      assert slots[i := s][1..] == slots[1..];
    }
  }

  predicate ValidStack(s: Stack) {
    ValidItem(s.item)
  }

  predicate ValidSlots(slots: seq<Stack>) {
    forall i :: 0 <= i < |slots| ==> ValidStack(slots[i])
  }

  /**
   * `insertItem(slot, stack, false)` on a slot holding `existing`: the new content of the
   * slot and the remainder handed back.
   */
  function Insert(existing: Stack, stack: Stack): (r: (Stack, Stack))
  {
    if IsEmpty(stack) then (existing, EMPTY)
    else
      var cap := Min(SLOT_LIMIT, stack.item.maxStackSize);
      if !IsEmpty(existing) && !CanStack(stack, existing) then (existing, stack)
      else
        var limit := if IsEmpty(existing) then cap else cap - existing.count;
        if limit <= 0 then (existing, stack)
        else
          var reachedLimit := stack.count > limit;
          var slot :=
            if IsEmpty(existing) then (if reachedLimit then WithCount(stack, limit) else stack)
            else Grow(existing, if reachedLimit then limit else stack.count);
          (slot, if reachedLimit then WithCount(stack, stack.count - limit) else EMPTY)
  }

  /**
   * Inserting moves items, never creates or destroys them; the remainder is empty or a
   * smaller-or-equal part of the offered stack; the slot changes only to hold the offered
   * item, and never beyond its cap.
   */
  lemma InsertConserves(existing: Stack, stack: Stack)
    requires ValidStack(existing) && ValidStack(stack)
    ensures var (slot, rest) := Insert(existing, stack);
      && Size(slot) + Size(rest) == Size(existing) + Size(stack)
      && ValidStack(slot) && ValidStack(rest)
      && (IsEmpty(rest) || (rest.item == stack.item && rest.tag == stack.tag && rest.count <= stack.count))
      && (slot == existing || (slot.item == stack.item && slot.tag == stack.tag))
      && (slot != existing ==> Size(slot) <= Min(SLOT_LIMIT, stack.item.maxStackSize) && Size(rest) < Size(stack))
  {
  }

  /**
   * A slot holding `existing` takes at least one item of `stack`: it is empty, or it holds
   * a stack `stack` merges with and is below the cap for that item.
   */
  predicate Accepts(existing: Stack, stack: Stack) {
    IsEmpty(existing) || (CanStack(existing, stack) && existing.count < Min(SLOT_LIMIT, stack.item.maxStackSize))
  }

  /** A non-empty stack is (partly) inserted exactly into a slot that accepts it; otherwise it all comes back. */
  lemma InsertAccepts(existing: Stack, stack: Stack)
    requires ValidStack(stack) && !IsEmpty(stack)
    ensures Accepts(existing, stack) <==> Size(Insert(existing, stack).1) < Size(stack)
    ensures !Accepts(existing, stack) ==> Insert(existing, stack) == (existing, stack)
  {
  }

  /**
   * `extractItem(slot, amount, false)` on a slot holding `existing`: the new content of
   * the slot and the stack taken out, of at most `amount` and at most one stack's worth.
   */
  function Extract(existing: Stack, amount: int): (r: (Stack, Stack))
  {
    if amount == 0 || IsEmpty(existing) then (existing, EMPTY)
    else
      var toExtract := Min(amount, existing.item.maxStackSize);
      if existing.count <= toExtract then (EMPTY, existing)
      else (WithCount(existing, existing.count - toExtract), WithCount(existing, toExtract))
  }

  lemma ExtractConserves(existing: Stack, amount: int)
    requires ValidStack(existing) && amount > 0
    ensures var (slot, taken) := Extract(existing, amount);
      && Size(slot) + Size(taken) == Size(existing)
      && ValidStack(slot) && ValidStack(taken)
      && Size(taken) <= amount && Size(taken) <= existing.item.maxStackSize
      && (IsEmpty(taken) <==> IsEmpty(existing))
      && (!IsEmpty(taken) ==> taken.item == existing.item && taken.tag == existing.tag)
  {
  }

  /** `Container.removeItem(slot, amount)`: splits up to `amount` items off a non-empty slot. */
  function Remove(existing: Stack, amount: int): (r: (Stack, Stack))
  {
    if IsEmpty(existing) || amount <= 0 then (existing, EMPTY)
    else
      var (taken, left) := Split(existing, amount);
      (left, taken)
  }

  lemma RemoveConserves(existing: Stack, amount: int)
    ensures var (slot, taken) := Remove(existing, amount);
      && Size(slot) + Size(taken) == Size(existing)
      && Size(taken) == if amount <= 0 then 0 else Min(amount, Size(existing))
  {
  }

  /** A block's or the turtle's inventory: a fixed number of slots whose stacks change in place. */
  class Inventory {
    var slots: seq<Stack>

    ghost predicate Valid()
      reads this
    {
      ValidSlots(slots)
    }

    constructor (initial: seq<Stack>)
      requires ValidSlots(initial)
      ensures Valid() && slots == initial
    {
      slots := initial;
    }

    /** `getSlots`. */
    function SlotCount(): nat
      reads this
    {
      |slots|
    }

    /** `getStackInSlot`. */
    function StackInSlot(slot: nat): Stack
      requires slot < |slots|
      reads this
    {
      slots[slot]
    }

    method InsertItem(slot: nat, stack: Stack) returns (remainder: Stack)
      requires Valid() && ValidStack(stack) && slot < |slots|
      modifies this
      ensures Valid()
      ensures slots == old(slots)[slot := Insert(old(slots)[slot], stack).0]
      ensures remainder == Insert(old(slots)[slot], stack).1
    {
      InsertConserves(slots[slot], stack);
      var r := Insert(slots[slot], stack);
      slots := slots[slot := r.0];
      remainder := r.1;
    }

    method ExtractItem(slot: nat, amount: int) returns (extracted: Stack)
      requires Valid() && slot < |slots|
      modifies this
      ensures Valid()
      ensures slots == old(slots)[slot := Extract(old(slots)[slot], amount).0]
      ensures extracted == Extract(old(slots)[slot], amount).1
    {
      var r := Extract(slots[slot], amount);
      slots := slots[slot := r.0];
      extracted := r.1;
    }

    method RemoveItem(slot: nat, amount: int) returns (removed: Stack)
      requires Valid() && slot < |slots|
      modifies this
      ensures Valid()
      ensures slots == old(slots)[slot := Remove(old(slots)[slot], amount).0]
      ensures removed == Remove(old(slots)[slot], amount).1
    {
      var r := Remove(slots[slot], amount);
      slots := slots[slot := r.0];
      removed := r.1;
    }
  }
}
