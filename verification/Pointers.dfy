/** Heap addresses, and how often one occurs. */
module Pointers {
  /** An address; that of a freed object may be handed out again. */
  type Ptr = nat

  const NULL: Ptr := 0

  function One(p: Ptr, q: Ptr): nat {
    if p == q then 1 else 0
  }
}
