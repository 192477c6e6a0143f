/** The "publish only on success" constructors of the binding:
    `nixl_capi_create_backend`, `nixl_capi_get_plugin_params` and
    `nixl_capi_get_backend_params` (and, in module `XferReq`,
    `nixl_capi_create_xfer_req`). Each allocates its wrapper object(s), asks the
    engine to fill them, and hands them to the caller only when the engine
    succeeded. */
module Publish {
  import opened CapiTypes
  import opened StatusTranslation
  import opened Heaps

  /** What one publish step did: the status, the heap afterwards, and the
      objects handed to the caller through the out-pointers. */
  datatype Call = Call(status: Status, heap: Heap, published: seq<Obj>)

  /** No leak: the objects allocated afterwards are exactly those allocated
      before plus those handed to the caller. */
  ghost predicate NoLeak(before: Heap, c: Call)
  {
    c.heap.live == before.live + (set o | o in c.published)
  }

  /** The publish step as the binding writes it: the temporaries are deleted
      when the engine returns a failure status, but the `catch (...)` clause
      returns without deleting them when the engine throws. */
  function PublishAsWritten(h: Heap, k: nat, reply: Reply): (c: Call)
    requires Valid(h)
    ensures Valid(c.heap)
    ensures c.status == SuccessOrBackend(reply)
    ensures c.published != [] ==> c.status == Success
  {
    var (h', temps) := AllocN(h, k);
    match reply
    case Returned(EngineSuccess) => Call(Success, h', temps)
    case Returned(_) => Call(ErrBackend, FreeAll(h', temps), [])
    case Raised => Call(ErrBackend, h', [])
  }

  /** The leak of the as-written step: when the engine throws after at least
      one temporary was allocated, some object stays allocated that the caller
      never received and nobody else can reach. */
  lemma AsWrittenLeaksOnRaise(h: Heap, k: nat)
    requires Valid(h) && k > 0
    ensures !NoLeak(h, PublishAsWritten(h, k, Raised))
    ensures exists o :: o in PublishAsWritten(h, k, Raised).heap.live && o !in h.live
  {
    var (h', temps) := AllocN(h, k);
    var c := PublishAsWritten(h, k, Raised);
    assert c.heap == h' && c.published == [];
    assert temps[0] in c.heap.live && temps[0] !in h.live;
  }

  /** Off the exception path the as-written step and the corrected one coincide. */
  lemma AsWrittenAgreesWhenReturned(h: Heap, k: nat, reply: Reply)
    requires Valid(h) && reply.Returned?
    ensures PublishAsWritten(h, k, reply) == PublishOnSuccess(h, k, reply)
  {
  }

  /** The publish step as evidently intended, and as the rest of this model
      uses it: every failure path, the caught exception included, deletes the
      temporaries; success hands exactly the `k` fresh objects to the caller. */
  function PublishOnSuccess(h: Heap, k: nat, reply: Reply): (c: Call)
    requires Valid(h)
    ensures Valid(c.heap)
    ensures NoLeak(h, c)
    ensures c.status == SuccessOrBackend(reply)
    ensures c.status == Success ==> |c.published| == k && Distinct(c.published)
    ensures c.status == Success ==> forall o :: o in c.published ==> o !in h.live
    ensures c.status != Success ==> c.published == [] && c.heap.live == h.live
  {
    var (h', temps) := AllocN(h, k);
    if reply == Returned(EngineSuccess) then Call(Success, h', temps)
    else Call(ErrBackend, FreeAll(h', temps), [])
  }

  /** A published `nixl_capi_backend_s`: its address and the engine backend it wraps. */
  datatype BackendObj = BackendObj(obj: Obj, backend: BackendRef)

  /** What `get_plugin_params` and `get_backend_params` publish: a memory-type
      list object and a parameter-map object, with the contents the engine filled in. */
  datatype ParamLists = ParamLists(memList: Obj, mems: seq<MemCode>, paramList: Obj, params: Params)

  /** The outcome of a constructor: status, heap afterwards, and what was
      written through the out-pointers (`None`: left untouched). */
  datatype Made<+T> = Made(status: Status, heap: Heap, written: Option<T>)

  /** `nixl_capi_create_backend`. `reply` is what the engine's `createBackend`
      did and `created` the backend handle it stores on success. */
  function CreateBackend(h: Heap, agent: Ptr<Opaque>, pluginName: Ptr<string>, params: Ptr<Params>,
                         out: OutPtr, reply: Reply, created: BackendRef): (r: Made<BackendObj>)
    requires Valid(h)
    ensures Valid(r.heap)
    ensures agent.Null? || pluginName.Null? || params.Null? || out.Null? ==>
              r == Made(ErrInvalidParam, h, None)
    ensures agent.Ptr? && pluginName.Ptr? && params.Ptr? && out.Ptr? ==>
              r.status == SuccessOrBackend(reply)
    ensures r.written.Some? <==> r.status == Success
    ensures r.written.Some? ==>
              r.written.value.backend == created && r.written.value.obj !in h.live &&
              r.heap.live == h.live + {r.written.value.obj}
    ensures r.written.None? ==> r.heap.live == h.live
  {
    if agent.Null? || pluginName.Null? || params.Null? || out.Null? then Made(ErrInvalidParam, h, None)
    else
      var c := PublishOnSuccess(h, 1, reply);
      if c.status == Success then Made(Success, c.heap, Some(BackendObj(c.published[0], created)))
      else Made(c.status, c.heap, None)
  }

  /** The shared body of `get_plugin_params` and `get_backend_params`: two
      temporaries, filled by the engine, published together or not at all. */
  function PublishLists(h: Heap, reply: Reply, mems: seq<MemCode>, params: Params): (r: Made<ParamLists>)
    requires Valid(h)
    ensures Valid(r.heap)
    ensures r.status == SuccessOrBackend(reply)
    ensures r.written.Some? <==> r.status == Success
    ensures r.written.Some? ==>
              var w := r.written.value;
              && w.mems == mems && w.params == params
              && w.memList != w.paramList
              && w.memList !in h.live && w.paramList !in h.live
              && r.heap.live == h.live + {w.memList, w.paramList}
    ensures r.written.None? ==> r.heap.live == h.live
  {
    var c := PublishOnSuccess(h, 2, reply);
    if c.status == Success then
      assert c.published[0] in c.published && c.published[1] in c.published;
      assert (set o | o in c.published) == {c.published[0], c.published[1]};
      Made(Success, c.heap, Some(ParamLists(c.published[0], mems, c.published[1], params)))
    else Made(c.status, c.heap, None)
  }

  /** `nixl_capi_get_plugin_params`. `mems` and `params` are what the
      engine's `getPluginParams` fills in when it succeeds. */
  function GetPluginParams(h: Heap, agent: Ptr<Opaque>, pluginName: Ptr<string>,
                           memsOut: OutPtr, paramsOut: OutPtr,
                           reply: Reply, mems: seq<MemCode>, params: Params): (r: Made<ParamLists>)
    requires Valid(h)
    ensures Valid(r.heap)
    ensures agent.Null? || pluginName.Null? || memsOut.Null? || paramsOut.Null? ==>
              r == Made(ErrInvalidParam, h, None)
    ensures agent.Ptr? && pluginName.Ptr? && memsOut.Ptr? && paramsOut.Ptr? ==>
              r.status == SuccessOrBackend(reply)
    ensures r.written.Some? <==> r.status == Success
    ensures r.written.Some? ==>
              var w := r.written.value;
              && w.mems == mems && w.params == params
              && w.memList != w.paramList
              && w.memList !in h.live && w.paramList !in h.live
              && r.heap.live == h.live + {w.memList, w.paramList}
    ensures r.written.None? ==> r.heap.live == h.live
  {
    if agent.Null? || pluginName.Null? || memsOut.Null? || paramsOut.Null? then Made(ErrInvalidParam, h, None)
    else PublishLists(h, reply, mems, params)
  }

  /** `nixl_capi_get_backend_params`: as `get_plugin_params`, for a backend
      that was already created. */
  function GetBackendParams(h: Heap, agent: Ptr<Opaque>, backend: Ptr<BackendObj>,
                            memsOut: OutPtr, paramsOut: OutPtr,
                            reply: Reply, mems: seq<MemCode>, params: Params): (r: Made<ParamLists>)
    requires Valid(h)
    ensures Valid(r.heap)
    ensures agent.Null? || backend.Null? || memsOut.Null? || paramsOut.Null? ==>
              r == Made(ErrInvalidParam, h, None)
    ensures agent.Ptr? && backend.Ptr? && memsOut.Ptr? && paramsOut.Ptr? ==>
              r.status == SuccessOrBackend(reply)
    ensures r.written.Some? <==> r.status == Success
    ensures r.written.Some? ==>
              var w := r.written.value;
              && w.mems == mems && w.params == params
              && w.memList != w.paramList
              && w.memList !in h.live && w.paramList !in h.live
              && r.heap.live == h.live + {w.memList, w.paramList}
    ensures r.written.None? ==> r.heap.live == h.live
  {
    if agent.Null? || backend.Null? || memsOut.Null? || paramsOut.Null? then Made(ErrInvalidParam, h, None)
    else PublishLists(h, reply, mems, params)
  }
}
