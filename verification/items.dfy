/**
 * Item stacks as values: an item (its registry name and the largest stack it forms), a
 * count and an optional tag compound. A stack is empty when its item is air or its count
 * is not positive, as `ItemStack.isEmpty` says.
 */
module Items {
  import opened Wrappers
  import opened Nbt

  datatype Item = Item(id: string, maxStackSize: int)

  /** Every item stacks to at least one. */
  predicate ValidItem(i: Item) {
    i.maxStackSize >= 1
  }

  const AIR: Item := Item("minecraft:air", 64)

  datatype Stack = Stack(item: Item, count: int, tag: Option<Compound>)

  /** `ItemStack.EMPTY`. */
  const EMPTY: Stack := Stack(AIR, 0, None)

  predicate IsEmpty(s: Stack) {
    s.item == AIR || s.count <= 0
  }

  /** The number of items a stack holds: its count, or 0 when it is empty. */
  function Size(s: Stack): (n: nat)
    ensures n == 0 <==> IsEmpty(s)
  {
    if IsEmpty(s) then 0 else s.count
  }

  /** `copyStackWithSize` / `copyWithCount`: the same item and tag with another count. */
  function WithCount(s: Stack, n: int): Stack {
    Stack(s.item, n, s.tag)
  }

  /** `ItemStack.copy`: an empty stack copies to `EMPTY`. */
  function Copy(s: Stack): (r: Stack)
    ensures IsEmpty(r) <==> IsEmpty(s)
    ensures !IsEmpty(s) ==> r == s
    ensures IsEmpty(s) ==> r == EMPTY
  {
    if IsEmpty(s) then EMPTY else s
  }

  /**
   * `ItemStack.matches`: two empty stacks match; otherwise both are non-empty with the
   * same item, count and tag.
   */
  predicate Matches(a: Stack, b: Stack) {
    if IsEmpty(a) && IsEmpty(b) then true
    else !IsEmpty(a) && !IsEmpty(b) && a.count == b.count && a.item == b.item && a.tag == b.tag
  }

  /** `ItemHandlerHelper.canItemStacksStack`: both non-empty, the same item and the same tag (or both untagged). */
  predicate CanStack(a: Stack, b: Stack) {
    !IsEmpty(a) && !IsEmpty(b) && a.item == b.item && a.tag == b.tag
  }

  /**
   * `ItemStack.split(n)`: takes `min(n, count)` items off `s` into a new stack; returns
   * the new stack and what is left of `s`.
   */
  function Split(s: Stack, n: int): (r: (Stack, Stack))
    ensures r.0.item == s.item && r.1.item == s.item && r.0.tag == s.tag && r.1.tag == s.tag
    ensures r.0.count + r.1.count == s.count
    ensures r.0.count == if n < s.count then n else s.count
  {
    var taken := if n < s.count then n else s.count;
    (WithCount(s, taken), WithCount(s, s.count - taken))
  }

  /** `ItemStack.grow(n)`. */
  function Grow(s: Stack, n: int): Stack {
    WithCount(s, s.count + n)
  }
}
