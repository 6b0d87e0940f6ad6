/**
 * The opaque-handle tables behind the foreign-function interface: every
 * stored GPU object is reached through a 64-bit handle that the caller
 * keeps. Handles come from one process-wide counter that starts at 1, so a
 * handle is never 0 (the interface's failure value) and no two stores hand
 * out the same handle.
 */
module Handles {
  import opened Wrappers

  const U64Modulus: nat := 0x1_0000_0000_0000_0000

  type u64 = x: int | 0 <= x < U64Modulus

  /** The process-wide handle counter; `fetch_add` wraps around at 2^64. */
  class HandleCounter {
    var next: u64

    constructor ()
      ensures next == 1
    {
      next := 1;
    }

    /** Returns the current value and advances the counter by one, modulo 2^64. */
    method FetchAdd() returns (handle: u64)
      modifies this
      ensures handle == old(next)
      ensures next == (old(next) + 1) % U64Modulus
    {
      handle := next;
      next := (next + 1) % U64Modulus;
    }
  }

  /** A map from handles to stored values. */
  class HandleStore<T> {
    var items: map<u64, T>

    /**
     * Every stored handle was issued by `counter`: it is at least 1 and
     * below the counter's next value, so the next handle is not in use.
     */
    ghost predicate IssuedBy(counter: HandleCounter)
      reads this, counter
    {
      forall h :: h in items ==> 1 <= h < counter.next
    }

    constructor ()
      ensures items == map[]
    {
      items := map[];
    }

    /**
     * Stores `item` under a new handle. While the counter has not wrapped,
     * the handle is not 0 and was not in use, and the store stays issued by
     * the counter.
     */
    method Insert(counter: HandleCounter, item: T) returns (handle: u64)
      modifies this, counter
      ensures handle == old(counter.next) && counter.next == (old(counter.next) + 1) % U64Modulus
      ensures items == old(items)[handle := item]
      ensures old(IssuedBy(counter)) && old(counter.next) >= 1 ==>
        handle >= 1 && handle !in old(items) && |items| == |old(items)| + 1
      ensures old(IssuedBy(counter)) && 1 <= old(counter.next) < U64Modulus - 1 ==> IssuedBy(counter)
    {
      handle := counter.FetchAdd();
      items := items[handle := item];
    }

    /** The stored value, if the handle is in use. */
    function Get(handle: u64): (r: Option<T>)
      reads this
      ensures r.Some? <==> handle in items
      ensures r.Some? ==> r.value == items[handle]
    {
      if handle in items then Some(items[handle]) else None
    }

    /**
     * Writing through the mutable reference `get_mut` hands out: `update`
     * replaces the stored value when the handle is in use; nothing changes
     * otherwise.
     */
    method GetMut(handle: u64, update: T -> T) returns (found: bool)
      modifies this
      ensures found <==> handle in old(items)
      ensures items == if found then old(items)[handle := update(old(items)[handle])] else old(items)
    {
      found := handle in items;
      if found {
        items := items[handle := update(items[handle])];
      }
    }

    /** Removes the entry and returns its value; the other entries are untouched. */
    method Remove(handle: u64) returns (r: Option<T>)
      modifies this
      ensures r.Some? <==> handle in old(items)
      ensures r.Some? ==> r.value == old(items)[handle] && |items| == |old(items)| - 1
      ensures handle !in items
      ensures items == old(items) - {handle}
    {
      if handle in items {
        r := Some(items[handle]);
        items := items - {handle};
      } else {
        r := None;
      }
    }

    function Len(): (n: nat)
      reads this
      ensures n == |items|
    {
      |items|
    }

    method Clear()
      modifies this
      ensures items == map[] && Len() == 0
    {
      items := map[];
    }
  }

  /**
   * Two stores fed by the same counter: handles inserted into one are never
   * in use in the other, as long as both were issued by the counter and it
   * does not wrap.
   */
  method TwoStoresShareCounter<T>(a: HandleStore<T>, b: HandleStore<T>, counter: HandleCounter, x: T, y: T)
      returns (ha: u64, hb: u64)
    requires a != b && a.IssuedBy(counter) && b.IssuedBy(counter) && 1 <= counter.next < U64Modulus - 2
    modifies a, b, counter
    ensures ha < hb
    ensures ha !in b.items && hb !in old(a.items)
    ensures a.Get(ha) == Some(x) && b.Get(hb) == Some(y)
  {
    ha := a.Insert(counter, x);
    hb := b.Insert(counter, y);
  }
}
