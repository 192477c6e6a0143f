/** The binding's read-only list objects: the string list returned by
    `get_available_plugins` and the memory-type list returned with plugin and
    backend parameters. Each is read by size and by bounds-checked index. */
module Lists {
  import opened CapiTypes

  /** `size` for either list: null pointers are refused, otherwise the
      element count is written. */
  function Size<T>(list: Ptr<seq<T>>, size: OutPtr): (r: Out<nat>)
    ensures list.Null? || size.Null? ==> r == Out(ErrInvalidParam, None)
    ensures list.Ptr? && size.Ptr? ==> r == Out(Success, Some(|list.deref|))
  {
    if list.Null? || size.Null? then Rejected() else Out(Success, Some(|list.deref|))
  }

  /** The shared bounds-checked read: null pointers and an index at or past
      the end are refused; otherwise the element at the index is written. */
  function At<T>(list: Ptr<seq<T>>, index: nat, out: OutPtr): (r: Out<T>)
    ensures r.status == Success <==> list.Ptr? && out.Ptr? && index < |list.deref|
    ensures r.status == Success ==> r.written == Some(list.deref[index])
    ensures r.status != Success ==> r == Out(ErrInvalidParam, None)
  {
    if list.Null? || out.Null? || index >= |list.deref| then Rejected()
    else Out(Success, Some(list.deref[index]))
  }

  /** `nixl_capi_string_list_get`. */
  function StringListGet(list: Ptr<seq<string>>, index: nat, str: OutPtr): (r: Out<string>)
    ensures r.status == Success <==> list.Ptr? && str.Ptr? && index < |list.deref|
    ensures r.status == Success ==> r.written == Some(list.deref[index])
    ensures r.status != Success ==> r == Out(ErrInvalidParam, None)
  {
    At(list, index, str)
  }

  /** `nixl_capi_mem_list_get`: the engine's memory-type code is converted to
      the binding's enumeration, which shares its numbering. */
  function MemListGet(list: Ptr<seq<MemCode>>, index: nat, memType: OutPtr): (r: Out<MemCode>)
    ensures r.status == Success <==> list.Ptr? && memType.Ptr? && index < |list.deref|
    ensures r.status == Success ==> r.written == Some(list.deref[index])
    ensures r.status != Success ==> r == Out(ErrInvalidParam, None)
  {
    At(list, index, memType)
  }

  /** `nixl_capi_mem_list_is_empty`. */
  function MemListIsEmpty(list: Ptr<seq<MemCode>>, isEmpty: OutPtr): (r: Out<bool>)
    ensures list.Null? || isEmpty.Null? ==> r == Out(ErrInvalidParam, None)
    ensures list.Ptr? && isEmpty.Ptr? ==> r.status == Success && r.written.Some?
    ensures r.written == Some(true) <==> Size(list, isEmpty).written == Some(0)
  {
    if list.Null? || isEmpty.Null? then Rejected() else Out(Success, Some(|list.deref| == 0))
  }

  /** Size and index agree: reading index `i` succeeds exactly when the
      reported size exceeds `i`. */
  lemma AtSucceedsBelowSize<T>(list: Ptr<seq<T>>, i: nat)
    ensures At(list, i, Ptr(Opaque)).status == Success <==>
              Size(list, Ptr(Opaque)).written.Some? && i < Size(list, Ptr(Opaque)).written.value
  {
  }

  /** A caller reading a whole list the way the binding's users do: ask the
      size, then read every index below it. The result is the list itself, in
      order, with no read refused. */
  method ReadAll<T>(list: seq<T>) returns (items: seq<T>)
    ensures items == list
  {
    var n := Size(Ptr(list), Ptr(Opaque)).written.value;
    items := [];
    var i := 0;
    while i < n
      invariant n == |list|
      invariant 0 <= i <= n
      invariant items == list[..i]
    {
      var r := At(Ptr(list), i, Ptr(Opaque));
      items := items + [r.written.value];
      i := i + 1;
    }
  }
}
