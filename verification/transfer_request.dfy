/** The engine-side transfer-request records: `nixlXferReqH`, which owns the
    two descriptor lists of a prepared transfer and the backend's request
    handle, and `nixlXferSideH`, which owns one side's descriptor list. Their
    constructors and destructors are modelled; a destructor is the sequence of
    effects it performs on other objects. */
module TransferRequest {
  import opened CapiTypes

  /** A descriptor list (`nixl_meta_dlist_t*`), named by its address. */
  type ListRef = nat
  /** A backend engine (`nixlBackendEngine*`). */
  type EngineRef = nat
  /** A backend's request handle (`nixlBackendReqH*`). */
  type BackendReqRef = nat

  /** A field the constructor leaves uninitialised, or its value once assigned. */
  datatype Init<+T> = Uninit | Init(value: T)

  /** `nixlXferReqH`. The transfer operation and state are left uninitialised
      by the constructor and are filled in by the engine. */
  datatype XferReqH = XferReqH(
    engine: Ptr<EngineRef>,
    backendHandle: Ptr<BackendReqRef>,
    initiatorDescs: Ptr<ListRef>,
    targetDescs: Ptr<ListRef>,
    remoteAgent: string,
    notifMsg: string,
    backendOp: Init<int>,
    state: Init<int>)

  /** `nixlXferSideH`. */
  datatype XferSideH = XferSideH(
    descs: Init<Ptr<ListRef>>,
    engine: Ptr<EngineRef>,
    remoteAgent: string,
    isLocal: Init<bool>)

  /** What a destructor does to other objects. */
  datatype Effect = DeleteList(list: ListRef) | ReleaseReqH(engine: EngineRef, handle: BackendReqRef)

  /** `delete p`: nothing when `p` is null. */
  function DeleteOf(p: Ptr<ListRef>): (fx: seq<Effect>)
  {
    if p.Null? then [] else [DeleteList(p.deref)]
  }

  /** The lists `fx` deletes. */
  function Deleted(fx: seq<Effect>): set<ListRef>
  {
    set i | 0 <= i < |fx| && fx[i].DeleteList? :: fx[i].list
  }

  /** How many times `fx` calls the engine's `releaseReqH`. */
  function Releases(fx: seq<Effect>): nat
  {
    if fx == [] then 0 else (if fx[0].ReleaseReqH? then 1 else 0) + Releases(fx[1..])
  }

  /** No list is deleted twice. */
  ghost predicate NoDoubleDelete(fx: seq<Effect>)
  {
    forall i, j :: 0 <= i < j < |fx| && fx[i].DeleteList? && fx[j].DeleteList? ==> fx[i].list != fx[j].list
  }

  /** The list `p` points to, if any. */
  function NonNull(p: Ptr<ListRef>): set<ListRef>
  {
    if p.Null? then {} else {p.deref}
  }

  /** The `nixlXferReqH` default constructor: the engine, the backend handle
      and both descriptor lists start null. */
  function NewXferReqH(): (r: XferReqH)
    ensures r.engine.Null? && r.backendHandle.Null?
    ensures r.initiatorDescs.Null? && r.targetDescs.Null?
  {
    XferReqH(Null, Null, Null, Null, "", "", Uninit, Uninit)
  }

  /** The `nixlXferReqH` destructor: delete both descriptor lists (deleting a
      null list does nothing), then, when a backend handle is present, have
      the engine release it. A present backend handle needs its engine. */
  function DestroyXferReqH(r: XferReqH): (fx: seq<Effect>)
    requires r.backendHandle.Ptr? ==> r.engine.Ptr?
    ensures Releases(fx) == (if r.backendHandle.Ptr? then 1 else 0)
    ensures forall e :: e in fx && e.ReleaseReqH? ==>
              r.backendHandle.Ptr? && e == ReleaseReqH(r.engine.deref, r.backendHandle.deref)
    ensures Deleted(fx) == NonNull(r.initiatorDescs) + NonNull(r.targetDescs)
    ensures NoDoubleDelete(fx) <==> !(r.initiatorDescs.Ptr? && r.initiatorDescs == r.targetDescs)
    ensures forall i :: 0 <= i < |fx| && fx[i].ReleaseReqH? ==> i == |fx| - 1
  {
    var deletes := DeleteOf(r.initiatorDescs) + DeleteOf(r.targetDescs);
    var release := if r.backendHandle.Ptr? then [ReleaseReqH(r.engine.deref, r.backendHandle.deref)] else [];
    ReleasesAppend(deletes, release);
    assert Releases(deletes) == 0 by {
      ReleasesAppend(DeleteOf(r.initiatorDescs), DeleteOf(r.targetDescs));
    }
    var fx := deletes + release;
    assert Deleted(fx) == Deleted(deletes);
    fx
  }

  lemma {:induction false} ReleasesAppend(a: seq<Effect>, b: seq<Effect>)
    ensures Releases(a + b) == Releases(a) + Releases(b)
    decreases |a|
  {
    if a == [] {
      assert a + b == b;
    } else {
      assert (a + b)[1..] == a[1..] + b;
      ReleasesAppend(a[1..], b);
    }
  }

  /** A default-constructed request owns nothing: destroying it deletes no
      list and never calls the engine. */
  lemma DefaultReleasesNothing()
    ensures DestroyXferReqH(NewXferReqH()) == []
  {
  }

  /** The `nixlXferSideH` constructor: the engine starts null, the descriptor
      list and the locality flag are left uninitialised. */
  function NewXferSideH(): (s: XferSideH)
    ensures s.engine.Null? && s.descs.Uninit? && s.isLocal.Uninit?
  {
    XferSideH(Uninit, Null, "", Uninit)
  }

  /** The `nixlXferSideH` destructor deletes the descriptor list, which must
      have been assigned since construction. */
  function DestroyXferSideH(s: XferSideH): (fx: seq<Effect>)
    requires s.descs.Init?
    ensures Releases(fx) == 0
    ensures Deleted(fx) == NonNull(s.descs.value)
    ensures NoDoubleDelete(fx)
  {
    DeleteOf(s.descs.value)
  }
}
