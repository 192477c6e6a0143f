/** The binding's own heap objects (the small `nixl_capi_*_s` wrapper structs):
    which are allocated, and a counter for fresh addresses. The contents of an
    object are carried by whoever holds its address. */
module Heaps {
  import opened CapiTypes

  type Obj = nat

  datatype Heap = Heap(live: set<Obj>, next: Obj)

  /** Every allocated object lies below the fresh-address counter. */
  ghost predicate Valid(h: Heap)
  {
    forall o :: o in h.live ==> o < h.next
  }

  /** `new` applied `k` times: `k` distinct objects, none of them allocated before. */
  function AllocN(h: Heap, k: nat): (r: (Heap, seq<Obj>))
    requires Valid(h)
    ensures Valid(r.0)
    ensures |r.1| == k && Distinct(r.1)
    ensures forall o :: o in r.1 ==> o !in h.live
    ensures r.0.live == h.live + (set o | o in r.1)
  {
    var objs := seq(k, i requires 0 <= i => h.next + i);
    assert forall o :: o in objs ==> h.next <= o < h.next + k;
    (Heap(h.live + (set o | o in objs), h.next + k), objs)
  }

  /** `delete` applied to each object of `objs`. */
  function FreeAll(h: Heap, objs: seq<Obj>): (r: Heap)
    requires Valid(h)
    ensures Valid(r)
    ensures r.live == h.live - (set o | o in objs)
  {
    Heap(h.live - (set o | o in objs), h.next)
  }
}
