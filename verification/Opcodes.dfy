/** The operation codes of the wait queue and the resource algebra they define. */
module Opcodes {

  /** Mask of the six low bits of a state word: the owner count or the permits taken. */
  const DATA_MASK: nat := 63

  /** The bit that says that some thread is processing the wait queue. */
  const LOCKED_FLAG: nat := 64

  datatype Opcode =
    | Exclusive
    | Shared
    | Barrier(waitOnly: bool)
    | Semaphore(permits: nat)
    | Wait(permits: nat)
  {
    predicate CanRelease(data: nat) {
      match this
      case Exclusive => data == DATA_MASK
      case Shared => data >= 1 && data != DATA_MASK
      case Semaphore(n) => data >= n
      case Barrier(_) => true
      case Wait(_) => true
    }

    /** What must be available before the operation may succeed. */
    function Desired(): nat {
      match this
      case Exclusive => DATA_MASK
      case Shared => 1
      case Barrier(waitOnly) => if waitOnly then 0 else 1
      case Semaphore(n) => n
      case Wait(n) => n
    }

    /** What the operation holds after it has succeeded. */
    function Acquired(): nat {
      match this
      case Exclusive => DATA_MASK
      case Shared => 1
      case Semaphore(n) => n
      case Barrier(_) => 0
      case Wait(_) => 0
    }
  }

  /** The test that the head of the queue must pass before it inherits ownership. */
  predicate Fits(max: nat, data: nat, op: Opcode) {
    data == 0 || data + op.Desired() <= max
  }

  /** What the test asks for, operation by operation. */
  predicate Servable(max: nat, data: nat, op: Opcode) {
    match op
    case Exclusive => data == 0 || data + 63 <= max
    case Shared => data == 0 || data < max
    case Barrier(waitOnly) => data == 0 || data < max || (waitOnly && data == max)
    case Semaphore(n) => data == 0 || data + n <= max
    case Wait(n) => data == 0 || data + n <= max
  }

  lemma FitsMeansServable(max: nat, data: nat, op: Opcode)
    ensures Fits(max, data, op) <==> Servable(max, data, op)
  {
  }
}
