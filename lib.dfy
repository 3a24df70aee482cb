/**
 * The global function table of `src/lib.rs`: a cell that is set at most
 * once (`VCMP_FUNC`, a `OnceLock<VcmpFunctions>`), and the three functions
 * around it.  The host's function table is a `Host` value.
 */
module Lib {
  import opened Base
  import opened Hosts

  class FuncCell {
    /** The table once it has been set; `None` before. */
    var slot: Option<Host>

    /** `OnceLock::new`: an empty cell. */
    constructor ()
      ensures slot == Option.None
    {
      slot := Option.None;
    }

    /**
     * `init_vcmp_func`: sets the cell to `func` if it is empty, and returns
     * what the cell holds afterwards; a cell already set keeps its table and
     * `func` is dropped.
     */
    method Init(func: Host) returns (current: Host)
      modifies this
      ensures old(slot).None? ==> slot == Some(func) && current == func
      ensures old(slot).Some? ==> slot == old(slot) && current == old(slot).value
    {
      if slot.None? {
        slot := Some(func);
      }
      current := slot.value;
    }

    /** `is_initialized_func`: whether the cell has been set. */
    function IsInitialized(): (b: bool)
      reads this
      ensures b <==> slot.Some?
    {
      slot.Some?
    }

    /** `vcmp_func`: the table; unwrapping an empty cell panics, so the cell must have been set. */
    function Get(): (func: Host)
      reads this
      requires IsInitialized()
      ensures Some(func) == slot
    {
      slot.value
    }
  }

  /**
   * The first table given wins: initialising a fresh cell twice returns the
   * first table both times, and the cell then holds it.
   */
  method InitTwice(first: Host, second: Host) returns (got1: Host, got2: Host, held: Host)
    ensures got1 == first && got2 == first && held == first
  {
    var cell := new FuncCell();
    got1 := cell.Init(first);
    got2 := cell.Init(second);
    held := cell.Get();
  }
}
