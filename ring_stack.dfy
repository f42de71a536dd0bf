/**
 * The item stacks the ring detectors collect, reduced to what they compare:
 * emptiness, the item's class name (getRingType derives the ring type from
 * it) and an identity standing for the stack object.
 */
module RingStacks {
  datatype RingStack = RingStack(isEmpty: bool, className: string, id: int)

  /** ItemStack.EMPTY. */
  const EmptyStack: RingStack := RingStack(true, "", 0)
}
