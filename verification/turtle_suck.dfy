/**
 * `TurtleSuckCommand.execute`: a turtle takes up to `quantity` items from the inventory
 * in front of it and puts back what it cannot hold, or, when there is no inventory there,
 * picks up the first loose item entity it has room for.
 */
module TurtleSuck {
  import opened Wrappers
  import opened Items
  import opened Inventories
  import opened InventoryUtil

  datatype CommandResult = Success | Failure(message: string)

  /** A loose item on the ground. `discard` clears `alive`. */
  class ItemEntity {
    var item: Stack
    var alive: bool

    constructor (item: Stack)
      ensures this.item == item && alive
    {
      this.item := item;
      alive := true;
    }
  }

  /**
   * The inventory path: the turtle's slots, the front inventory's slots and the result,
   * plus whatever could be neither stored in the turtle nor put back (`lost`).
   */
  function SuckInventory(turtle: seq<Stack>, front: seq<Stack>, quantity: int, selected: nat): (r: (seq<Stack>, seq<Stack>, CommandResult, Stack))
    requires selected <= |turtle|
  {
    var (frontTaken, stack) := Take(front, quantity, 0, |front|, 0);
    if IsEmpty(stack) then (turtle, front, Failure("No items to take"), EMPTY)
    else
      var (turtleAfter, remainder, isInput) := Store(turtle, stack, 0, |turtle|, selected);
      var (frontAfter, lost, _) :=
        if !IsEmpty(remainder) then Store(frontTaken, remainder, 0, |frontTaken|, 0) else (frontTaken, EMPTY, false);
      (turtleAfter, frontAfter, if !isInput then Success else Failure("No space for items"), lost)
  }

  /**
   * Sucking from an inventory moves items between the two inventories and loses none
   * except what fits in neither (`lost`). When the front yields nothing the command fails
   * with "No items to take" and changes nothing, which for a positive quantity happens
   * exactly when every slot of the front is empty; otherwise it succeeds exactly when the
   * turtle took at least one item, and fails with "No space for items" otherwise.
   */
  lemma SuckInventoryConserves(turtle: seq<Stack>, front: seq<Stack>, quantity: int, selected: nat)
    requires selected <= |turtle| && ValidSlots(turtle) && ValidSlots(front)
    ensures var (turtleAfter, frontAfter, result, lost) := SuckInventory(turtle, front, quantity, selected);
      && ValidSlots(turtleAfter) && ValidSlots(frontAfter)
      && Total(turtleAfter) + Total(frontAfter) + Size(lost) == Total(turtle) + Total(front)
      && (Take(front, quantity, 0, |front|, 0).1 == EMPTY <==> result == Failure("No items to take"))
      && (quantity > 0 ==> (result == Failure("No items to take") <==> forall k :: 0 <= k < |front| ==> IsEmpty(front[k])))
      && (result == Failure("No items to take") ==> turtleAfter == turtle && frontAfter == front)
      && (result == Success <==> Total(turtleAfter) > Total(turtle))
      && Total(turtleAfter) - Total(turtle) <= (if quantity < 0 then 0 else quantity)
      && (quantity <= 0 ==> result == Failure("No items to take"))
  {
    var (frontTaken, stack) := Take(front, quantity, 0, |front|, 0);
    TakeGathers(front, quantity, 0, |front|, 0);
    if !IsEmpty(stack) {
      StoreConserves(turtle, stack, 0, |turtle|, selected);
      var (turtleAfter, remainder, isInput) := Store(turtle, stack, 0, |turtle|, selected);
      if !IsEmpty(remainder) {
        StoreConserves(frontTaken, remainder, 0, |frontTaken|, 0);
      }
    }
  }

  /**
   * One entity on the ground: the turtle's slots afterwards, whether anything was
   * stored, and the entity's stack afterwards (`None` when it is discarded). A stack
   * larger than `quantity` is split; only `quantity` items are offered and the rest stay.
   */
  function SuckEntity(turtle: seq<Stack>, item: Stack, quantity: int, selected: nat): (r: (seq<Stack>, bool, Option<Stack>))
    requires selected <= |turtle|
  {
    var stack := Copy(item);
    var (storeStack, leaveStack) := if stack.count > quantity then Split(stack, quantity) else (stack, EMPTY);
    var (turtleAfter, remainder, isInput) := Store(turtle, storeStack, 0, |turtle|, selected);
    if isInput then (turtleAfter, false, Some(item))
    else
      var left :=
        if IsEmpty(remainder) && IsEmpty(leaveStack) then None
        else if IsEmpty(remainder) then Some(leaveStack)
        else if IsEmpty(leaveStack) then Some(remainder)
        else Some(Grow(leaveStack, remainder.count));
      (turtleAfter, true, left)
  }

  /** The number of items an entity holds afterwards; a discarded one holds none. */
  function LeftSize(left: Option<Stack>): nat {
    match left
    case None => 0
    case Some(s) => Size(s)
  }

  /**
   * Sucking one entity moves items from it into the turtle and loses none: the entity
   * keeps what was left over from the split plus what the turtle refused, and is
   * discarded only when both are empty. The turtle takes at most `quantity` items, and
   * when it takes none, nothing changes.
   */
  lemma SuckEntityConserves(turtle: seq<Stack>, item: Stack, quantity: int, selected: nat)
    requires selected <= |turtle| && ValidSlots(turtle) && ValidStack(item) && quantity > 0
    ensures var (turtleAfter, stored, left) := SuckEntity(turtle, item, quantity, selected);
      && ValidSlots(turtleAfter)
      && Total(turtleAfter) + LeftSize(left) == Total(turtle) + Size(item)
      && (stored <==> Total(turtleAfter) > Total(turtle))
      && (!stored ==> turtleAfter == turtle && left == Some(item))
      && Total(turtleAfter) - Total(turtle) <= quantity
      && (left.Some? ==> left.value.item == item.item && left.value.tag == item.tag)
  {
    var stack := Copy(item);
    var (storeStack, leaveStack) := if stack.count > quantity then Split(stack, quantity) else (stack, EMPTY);
    StoreConserves(turtle, storeStack, 0, |turtle|, selected);
  }

  /**
   * The ground path over the entities' stacks in order: the turtle's slots afterwards,
   * the index of the first entity from which anything was stored (-1 if none), and that
   * entity's stack afterwards.
   */
  function SuckGround(turtle: seq<Stack>, items: seq<Stack>, quantity: int, selected: nat): (r: (seq<Stack>, int, Option<Stack>))
    requires selected <= |turtle|
    ensures |r.0| == |turtle|
    ensures -1 <= r.1 < |items|
    decreases |items|
  {
    if items == [] then (turtle, -1, None)
    else
      var (turtleAfter, stored, left) := SuckEntity(turtle, items[0], quantity, selected);
      if stored then (turtleAfter, 0, left)
      else
        var (t, k, l) := SuckGround(turtleAfter, items[1..], quantity, selected);
        (t, if k < 0 then -1 else k + 1, l)
  }

  /**
   * Processing stops at the first entity the turtle took anything from: every entity
   * before it was refused and left the turtle as it was; when none accepted anything,
   * the turtle is unchanged.
   */
  lemma {:induction false} SuckGroundStopsAtFirst(turtle: seq<Stack>, items: seq<Stack>, quantity: int, selected: nat)
    requires selected <= |turtle| && ValidSlots(turtle) && quantity > 0
    requires forall i :: 0 <= i < |items| ==> ValidStack(items[i])
    ensures var (turtleAfter, k, left) := SuckGround(turtle, items, quantity, selected);
      && (forall j :: 0 <= j < |items| && (k < 0 || j < k) ==> !SuckEntity(turtle, items[j], quantity, selected).1)
      && (k < 0 ==> turtleAfter == turtle)
      && (k >= 0 ==> SuckEntity(turtle, items[k], quantity, selected) == (turtleAfter, true, left))
    decreases |items|
  {
    if items != [] {
      SuckEntityConserves(turtle, items[0], quantity, selected);
      var (turtleAfter, stored, left) := SuckEntity(turtle, items[0], quantity, selected);
      if !stored {
        SuckGroundStopsAtFirst(turtleAfter, items[1..], quantity, selected);
        var (t, k, l) := SuckGround(turtleAfter, items[1..], quantity, selected);
        forall j | 0 <= j < |items| && (k < 0 || j < k + 1)
          ensures !SuckEntity(turtle, items[j], quantity, selected).1
        {
          if j > 0 {
            assert items[j] == items[1..][j - 1];
          }
        }
      }
    }
  }

  /** A result of the ground path over `items[i..]`, with its entity index counted from the start of `items`. */
  function Offset(r: (seq<Stack>, int, Option<Stack>), i: nat): (seq<Stack>, int, Option<Stack>) {
    (r.0, if r.1 < 0 then -1 else r.1 + i, r.2)
  }

  /** The ground path from entity `i` either stops there, having stored from it, or goes on from entity `i + 1`. */
  lemma GroundStep(turtle: seq<Stack>, items: seq<Stack>, quantity: int, selected: nat, i: nat)
    requires selected <= |turtle| && i < |items|
    ensures var (turtleAfter, stored, left) := SuckEntity(turtle, items[i], quantity, selected);
      Offset(SuckGround(turtle, items[i..], quantity, selected), i)
        == if stored then (turtleAfter, i, left) else Offset(SuckGround(turtleAfter, items[i + 1..], quantity, selected), i + 1)
  {
    assert items[i..][1..] == items[i + 1..];
  }

  /** The stacks the entities hold. */
  function StacksOf(entities: seq<ItemEntity>): (r: seq<Stack>)
    reads entities
    ensures |r| == |entities|
    ensures forall i :: 0 <= i < |entities| ==> r[i] == entities[i].item
  {
    seq(|entities|, i requires 0 <= i < |entities| reads entities => entities[i].item)
  }

  /** The world's state in front of the turtle: an inventory, or the live item entities. */
  predicate EntitiesOk(entities: seq<ItemEntity>)
    reads entities
  {
    && (forall i, j :: 0 <= i < j < |entities| ==> entities[i] != entities[j])
    && (forall i :: 0 <= i < |entities| ==> entities[i].alive && ValidStack(entities[i].item))
  }

  /**
   * `execute`. `front` is the inventory `getInventory` found in front of the turtle (null
   * if none) and `entities` the live item entities in the block in front.
   */
  method Execute(quantity: int, turtle: Inventory, selected: nat, front: Inventory?, entities: seq<ItemEntity>)
    returns (result: CommandResult)
    requires quantity >= 0
    requires turtle.Valid() && selected <= |turtle.slots|
    requires front != null ==> front.Valid() && front != turtle
    requires EntitiesOk(entities)
    modifies turtle, front, entities
    ensures quantity == 0 ==>
      && result == Success && turtle.slots == old(turtle.slots)
      && (front != null ==> front.slots == old(front.slots))
      && unchanged(entities)
    ensures quantity != 0 && front != null ==>
      && (turtle.slots, front.slots, result) == (var r := SuckInventory(old(turtle.slots), old(front.slots), quantity, selected); (r.0, r.1, r.2))
      && unchanged(entities)
    ensures quantity != 0 && front == null ==> GroundOutcome(old(turtle.slots), old(StacksOf(entities)), quantity, selected, turtle.slots, entities, result)
  {
    if quantity == 0 {
      return Success;
    }
    if front != null {
      result := FromInventory(quantity, turtle, selected, front);
    } else {
      result := FromGround(quantity, turtle, selected, entities);
    }
  }

  /**
   * What the ground path leaves behind: the turtle as `SuckGround` says; success exactly
   * when some entity gave anything; that entity alone changed, holding what was left or
   * discarded when nothing was.
   */
  ghost predicate GroundOutcome(turtle: seq<Stack>, items: seq<Stack>, quantity: int, selected: nat,
                                turtleAfter: seq<Stack>, entities: seq<ItemEntity>, result: CommandResult)
    requires selected <= |turtle| && |items| == |entities|
    reads entities
  {
    var (expected, k, left) := SuckGround(turtle, items, quantity, selected);
    && turtleAfter == expected
    && (entities == [] ==> result == Failure("No items to take"))
    && (entities != [] ==> (result == Success <==> k >= 0))
    && (entities != [] && k < 0 ==> result == Failure("No space for items"))
    && (forall j :: 0 <= j < |entities| && j != k ==> entities[j].item == items[j] && entities[j].alive)
    && (k >= 0 ==>
          && entities[k].item == (if left.Some? then left.value else items[k])
          && entities[k].alive == left.Some?)
  }

  /** The inventory path of `execute`. */
  method FromInventory(quantity: int, turtle: Inventory, selected: nat, front: Inventory) returns (result: CommandResult)
    requires quantity > 0
    requires turtle.Valid() && selected <= |turtle.slots|
    requires front.Valid() && front != turtle
    modifies turtle, front
    ensures (turtle.slots, front.slots, result) == (var r := SuckInventory(old(turtle.slots), old(front.slots), quantity, selected); (r.0, r.1, r.2))
  {
    TakeGathers(front.slots, quantity, 0, |front.slots|, 0);
    var stack := TakeItemsAll(quantity, front);
    if IsEmpty(stack) {
      return Failure("No items to take");
    }
    StoreConserves(turtle.slots, stack, 0, |turtle.slots|, selected);
    var remainder, isInput := StoreItemsFrom(turtle, stack, selected);
    if !IsEmpty(remainder) {
      var _, _ := StoreItemsAll(front, remainder);
    }
    if !isInput {
      return Success;
    } else {
      return Failure("No space for items");
    }
  }

  /** The ground path of `execute`: the loop over the live item entities. */
  method FromGround(quantity: int, turtle: Inventory, selected: nat, entities: seq<ItemEntity>) returns (result: CommandResult)
    requires quantity > 0
    requires turtle.Valid() && selected <= |turtle.slots|
    requires EntitiesOk(entities)
    modifies turtle, entities
    ensures GroundOutcome(old(turtle.slots), old(StacksOf(entities)), quantity, selected, turtle.slots, entities, result)
  {
    ghost var items := StacksOf(entities);
    if entities == [] {
      return Failure("No items to take");
    }
    assert items[0..] == items;
    var i := 0;
    while i < |entities|
      invariant 0 <= i <= |entities|
      invariant turtle.Valid() && |turtle.slots| == |old(turtle.slots)|
      invariant forall j :: 0 <= j < |entities| ==> entities[j].item == items[j] && entities[j].alive
      invariant SuckGround(old(turtle.slots), items, quantity, selected) == Offset(SuckGround(turtle.slots, items[i..], quantity, selected), i)
    {
      GroundStep(turtle.slots, items, quantity, selected, i);
      SuckEntityConserves(turtle.slots, items[i], quantity, selected);
      var stored := SuckOne(quantity, turtle, selected, entities[i]);
      if stored {
        return Success;
      }
      i := i + 1;
    }
    return Failure("No space for items");
  }

  /** The body of the loop over entities: offers (part of) one entity's stack to the turtle. */
  method SuckOne(quantity: int, turtle: Inventory, selected: nat, entity: ItemEntity) returns (stored: bool)
    requires quantity > 0
    requires turtle.Valid() && selected <= |turtle.slots| && ValidStack(entity.item)
    modifies turtle, entity
    ensures turtle.Valid()
    ensures var (turtleAfter, s, left) := SuckEntity(old(turtle.slots), old(entity.item), quantity, selected);
      && turtle.slots == turtleAfter && stored == s
      && entity.item == (if left.Some? then left.value else old(entity.item))
      && entity.alive == (left.Some? && old(entity.alive))
  {
    var stack := Copy(entity.item);
    var storeStack, leaveStack;
    if stack.count > quantity {
      var parts := Split(stack, quantity);
      storeStack, leaveStack := parts.0, parts.1;
    } else {
      storeStack, leaveStack := stack, EMPTY;
    }
    var remainder, isInput := StoreItemsFrom(turtle, storeStack, selected);
    stored := !isInput;
    if stored {
      if IsEmpty(remainder) && IsEmpty(leaveStack) {
        entity.alive := false;
      } else if IsEmpty(remainder) {
        entity.item := leaveStack;
      } else if IsEmpty(leaveStack) {
        entity.item := remainder;
      } else {
        entity.item := Grow(leaveStack, remainder.count);
      }
    }
  }
}
