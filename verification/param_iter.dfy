/** The parameter-map iterator (`nixl_capi_param_iter_t`): a position in a
    backend parameter map, plus copies of the last key and value handed out
    (the binding keeps them alive for the caller). */
module ParamIter {
  import opened CapiTypes

  /** An iterator over `entries`, standing before `entries[pos]`. */
  datatype Iter = Iter(entries: Params, pos: nat, currentKey: string, currentValue: string)

  ghost predicate Valid(it: Iter)
  {
    it.pos <= |it.entries|
  }

  /** `nixl_capi_params_create_iterator`: an iterator at the first entry. */
  function CreateIterator(params: Ptr<Params>, iter: OutPtr): (r: Out<Iter>)
    ensures params.Null? || iter.Null? ==> r == Out(ErrInvalidParam, None)
    ensures params.Ptr? && iter.Ptr? ==>
              r.status == Success && r.written.Some? &&
              Valid(r.written.value) && r.written.value.entries == params.deref && r.written.value.pos == 0
  {
    if params.Null? || iter.Null? then Rejected()
    else Out(Success, Some(Iter(params.deref, 0, "", "")))
  }

  /** What one `next` call did: its status, the iterator afterwards, the
      entry written through the key and value out-pointers (`None`: left
      untouched) and the value written through `has_next` (`None`: untouched). */
  datatype Step = Step(status: Status, iter: Iter, yielded: Option<Param>, hasNext: Option<bool>)

  /** `nixl_capi_params_iterator_next`. An exhausted iterator reports success
      with `has_next` false and leaves key and value unwritten; otherwise the
      current entry is copied into the iterator, handed out, and the iterator
      advances by one, with `has_next` saying whether entries remain. */
  function Next(it: Ptr<Iter>, key: OutPtr, value: OutPtr, hasNext: OutPtr): (r: Step)
    requires it.Ptr? ==> Valid(it.deref)
    ensures it.Ptr? ==> Valid(r.iter) && r.iter.entries == it.deref.entries
    ensures it.Null? || key.Null? || value.Null? || hasNext.Null? ==>
              r.status == ErrInvalidParam && r.yielded == None && r.hasNext == None &&
              (it.Ptr? ==> r.iter == it.deref)
    ensures it.Ptr? && key.Ptr? && value.Ptr? && hasNext.Ptr? ==>
              var i := it.deref;
              && r.status == Success
              && (i.pos == |i.entries| ==> r.iter == i && r.yielded == None && r.hasNext == Some(false))
              && (i.pos < |i.entries| ==>
                    && r.yielded == Some(i.entries[i.pos])
                    && r.iter.pos == i.pos + 1
                    && r.iter.currentKey == i.entries[i.pos].key
                    && r.iter.currentValue == i.entries[i.pos].value
                    && r.hasNext == Some(r.iter.pos < |i.entries|))
  {
    if it.Null? then Step(ErrInvalidParam, Iter([], 0, "", ""), None, None)
    else if key.Null? || value.Null? || hasNext.Null? then Step(ErrInvalidParam, it.deref, None, None)
    else
      var i := it.deref;
      if i.pos == |i.entries| then Step(Success, i, None, Some(false))
      else
        var e := i.entries[i.pos];
        var i' := Iter(i.entries, i.pos + 1, e.key, e.value);
        Step(Success, i', Some(e), Some(i'.pos < |i.entries|))
  }

  /** `nixl_capi_params_is_empty`. */
  function IsEmpty(params: Ptr<Params>, isEmpty: OutPtr): (r: Out<bool>)
    ensures params.Null? || isEmpty.Null? ==> r == Out(ErrInvalidParam, None)
    ensures params.Ptr? && isEmpty.Ptr? ==> r.status == Success && r.written.Some?
    ensures params.Ptr? && isEmpty.Ptr? ==>
              (r.written == Some(true) <==>
               Next(Ptr(CreateIterator(params, Ptr(Opaque)).written.value), Ptr(Opaque), Ptr(Opaque), Ptr(Opaque)).yielded == None)
  {
    if params.Null? || isEmpty.Null? then Rejected() else Out(Success, Some(params.deref == []))
  }

  /** A caller draining an iterator: call `next` until `has_next` comes back
      false, collecting what each call hands out. Every entry is handed out
      exactly once, in the container's order. */
  method Drain(params: Params) returns (yielded: Params, calls: nat)
    ensures yielded == params
    ensures calls == if params == [] then 1 else |params|
  {
    var it := CreateIterator(Ptr(params), Ptr(Opaque)).written.value;
    yielded := [];
    calls := 0;
    var more := true;
    while more
      invariant Valid(it) && it.entries == params
      invariant yielded == params[..it.pos]
      invariant calls == it.pos || (calls == 1 && params == [])
      invariant more ==> calls == 0 || it.pos < |params|
      invariant !more ==> it.pos == |params| && calls >= 1
      invariant more && calls == 0 ==> it.pos == 0
      decreases |params| - it.pos + (if more then 1 else 0)
    {
      var s := Next(Ptr(it), Ptr(Opaque), Ptr(Opaque), Ptr(Opaque));
      if s.yielded.Some? {
        yielded := yielded + [s.yielded.value];
      }
      it := s.iter;
      calls := calls + 1;
      more := s.hasNext.value;
    }
  }
}
