/** Counters of 64-bit identifiers (native/input.c, native/output.c). */
module Ids {
  const ID_MAX := 0xffff_ffff_ffff_ffff

  /** The counter after one more id; 0 means exhausted. */
  function NextId(next: nat): nat {
    if next == 0 || next == ID_MAX then 0 else next + 1
  }
}
