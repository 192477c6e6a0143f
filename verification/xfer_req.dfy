/** The transfer-request handle of the C binding (`nixl_capi_xfer_req_t`) and
    its lifecycle: create, post, poll, release, destroy. The handle is a small
    wrapper object whose inner `req` pointer is the liveness sentinel: non-null
    while the engine still holds the request, null once the engine released it.
    The engine itself is an oracle; what it answers is a `Reply` parameter. */
module XferReq {
  import opened CapiTypes
  import opened StatusTranslation
  import opened Heaps
  import Publish

  /** The engine's request handle (`nixlXferReqH*`). */
  type Token = nat

  /** The inner `req` pointer of a handle: a live engine request, or null. */
  datatype ReqState = Live(token: Token) | Released

  /** The engine's requests as seen through the binding: those handed out and
      not yet released, the successful releases in the order they happened,
      and a counter for fresh requests. */
  datatype Engine = Engine(live: set<Token>, released: seq<Token>, next: Token)

  /** The state behind one agent: the binding's heap, the handles the caller
      holds (created and not yet destroyed) with their sentinel, and the engine. */
  datatype Agent = Agent(heap: Heap, reqs: map<Obj, ReqState>, engine: Engine)

  /** The invariant every reachable state keeps:
      - handles are allocated wrapper objects;
      - engine requests are fresh when handed out, and a released request is
        released once and never live again;
      - a live sentinel names a live engine request, and no two handles share one. */
  ghost predicate Valid(a: Agent)
  {
    && Heaps.Valid(a.heap)
    && a.reqs.Keys <= a.heap.live
    && (forall t :: t in a.engine.live ==> t < a.engine.next)
    && (forall i :: 0 <= i < |a.engine.released| ==>
          a.engine.released[i] < a.engine.next && a.engine.released[i] !in a.engine.live)
    && Distinct(a.engine.released)
    && (forall h :: h in a.reqs && a.reqs[h].Live? ==> a.reqs[h].token in a.engine.live)
    && (forall h1, h2 :: h1 in a.reqs && h2 in a.reqs && h1 != h2 && a.reqs[h1].Live? && a.reqs[h2].Live? ==>
          a.reqs[h1].token != a.reqs[h2].token)
  }

  /** The request pointer the binding hands to the engine. */
  datatype EngineArg = NullReq | ReqArg(token: Token)

  function ArgOf(s: ReqState): EngineArg
  {
    match s
    case Live(t) => ReqArg(t)
    case Released => NullReq
  }

  /** What one binding call did: its status, the state afterwards, the handle
      it wrote to the caller's out-pointer (create only), and the request
      pointer it passed to the engine (`None`: the engine was not called
      with a request). */
  datatype Outcome = Outcome(status: Status, agent: Agent, handle: Option<Obj>, called: Option<EngineArg>)

  /** `nixl_capi_create_xfer_req`: after the null checks, allocate the
      wrapper, let the engine create the request, and publish the wrapper only
      when the engine succeeded. */
  function Create(a: Agent, agent: Ptr<Opaque>, localDescs: Ptr<Opaque>, remoteDescs: Ptr<Opaque>,
                  remoteAgent: Ptr<string>, out: OutPtr, reply: Reply): (r: Outcome)
    requires Valid(a)
    ensures Valid(r.agent)
    ensures r.called == None
    ensures agent.Null? || localDescs.Null? || remoteDescs.Null? || remoteAgent.Null? || out.Null? ==>
              r == Outcome(ErrInvalidParam, a, None, None)
    ensures agent.Ptr? && localDescs.Ptr? && remoteDescs.Ptr? && remoteAgent.Ptr? && out.Ptr? ==>
              r.status == SuccessOrBackend(reply)
    ensures r.handle.Some? <==> r.status == Success
    ensures r.handle.Some? ==>
              && r.handle.value !in a.reqs
              && r.handle.value in r.agent.reqs
              && r.agent.reqs[r.handle.value].Live?
              && r.agent.reqs[r.handle.value].token !in a.engine.live
              && r.agent.reqs[r.handle.value].token !in r.agent.engine.released
              && (forall h :: h in a.reqs ==> h in r.agent.reqs && r.agent.reqs[h] == a.reqs[h])
              && r.agent.reqs.Keys == a.reqs.Keys + {r.handle.value}
              && r.agent.engine.released == a.engine.released
              && r.handle.value !in a.heap.live
              && r.agent.heap.live == a.heap.live + {r.handle.value}
    ensures r.handle.None? ==>
              r.agent.reqs == a.reqs && r.agent.engine == a.engine && r.agent.heap.live == a.heap.live
  {
    if agent.Null? || localDescs.Null? || remoteDescs.Null? || remoteAgent.Null? || out.Null? then
      Outcome(ErrInvalidParam, a, None, None)
    else
      var c := Publish.PublishOnSuccess(a.heap, 1, reply);
      if c.status == Success then
        var h := c.published[0];
        var t := a.engine.next;
        assert h in c.published;
        assert (set o | o in c.published) == {h};
        var e := Engine(a.engine.live + {t}, a.engine.released, t + 1);
        Outcome(Success, Agent(c.heap, a.reqs[h := Live(t)], e), Some(h), None)
      else
        Outcome(c.status, a.(heap := c.heap), None, None)
  }

  /** The shared shape of `post_xfer_req` and `get_xfer_status`: check the two
      pointers, then hand the inner request pointer to the engine as it is.
      The binding does not look at the sentinel here, so a released handle
      reaches the engine as a null request. */
  function Forward(a: Agent, agent: Ptr<Opaque>, req: Ptr<Obj>, reply: Reply): (r: Outcome)
    requires Valid(a)
    requires req.Ptr? ==> req.deref in a.reqs
    ensures r.agent == a && r.handle == None
    ensures agent.Null? || req.Null? ==> r.status == ErrInvalidParam && r.called == None
    ensures agent.Ptr? && req.Ptr? ==>
              && r.status == Progress(reply)
              && r.called == Some(ArgOf(a.reqs[req.deref]))
    ensures r.called == Some(NullReq) ==> req.Ptr? && a.reqs[req.deref] == Released
    ensures forall t :: r.called == Some(ReqArg(t)) ==> t in a.engine.live
  {
    if agent.Null? || req.Null? then Outcome(ErrInvalidParam, a, None, None)
    else Outcome(Progress(reply), a, None, Some(ArgOf(a.reqs[req.deref])))
  }

  /** `nixl_capi_post_xfer_req`: `reply` is what the engine's `postXferReq` did. */
  function Post(a: Agent, agent: Ptr<Opaque>, req: Ptr<Obj>, reply: Reply): (r: Outcome)
    requires Valid(a)
    requires req.Ptr? ==> req.deref in a.reqs
    ensures r.agent == a && r.handle == None
    ensures agent.Null? || req.Null? ==> r.status == ErrInvalidParam && r.called == None
    ensures agent.Ptr? && req.Ptr? ==>
              && r.status == Progress(reply)
              && r.called == Some(ArgOf(a.reqs[req.deref]))
    ensures forall t :: r.called == Some(ReqArg(t)) ==> t in a.engine.live
    ensures r.called == Some(NullReq) ==> req.Ptr? && a.reqs[req.deref] == Released
  {
    Forward(a, agent, req, reply)
  }

  /** `nixl_capi_get_xfer_status`: `reply` is what the engine's `getXferStatus` did. */
  function GetStatus(a: Agent, agent: Ptr<Opaque>, req: Ptr<Obj>, reply: Reply): (r: Outcome)
    requires Valid(a)
    requires req.Ptr? ==> req.deref in a.reqs
    ensures r.agent == a && r.handle == None
    ensures agent.Null? || req.Null? ==> r.status == ErrInvalidParam && r.called == None
    ensures agent.Ptr? && req.Ptr? ==>
              && r.status == Progress(reply)
              && r.called == Some(ArgOf(a.reqs[req.deref]))
    ensures forall t :: r.called == Some(ReqArg(t)) ==> t in a.engine.live
    ensures r.called == Some(NullReq) ==> req.Ptr? && a.reqs[req.deref] == Released
  {
    Forward(a, agent, req, reply)
  }

  /** `nixl_capi_release_xfer_req`: refuse a null pointer or a handle whose
      sentinel is already null, without calling the engine; otherwise ask the
      engine to release the request and clear the sentinel only if it did. */
  function Release(a: Agent, agent: Ptr<Opaque>, req: Ptr<Obj>, reply: Reply): (r: Outcome)
    requires Valid(a)
    requires req.Ptr? ==> req.deref in a.reqs
    ensures Valid(r.agent)
    ensures r.handle == None
    ensures agent.Null? || req.Null? || a.reqs[req.deref] == Released ==>
              r == Outcome(ErrInvalidParam, a, None, None)
    ensures agent.Ptr? && req.Ptr? && a.reqs[req.deref].Live? ==>
              && r.status == SuccessOrBackend(reply)
              && r.called == Some(ReqArg(a.reqs[req.deref].token))
    ensures forall t :: r.called == Some(ReqArg(t)) ==> t in a.engine.live && t !in a.engine.released
    ensures r.status == Success ==>
              && req.Ptr? && a.reqs[req.deref].Live?
              && r.agent.reqs == a.reqs[req.deref := Released]
              && r.agent.engine.released == a.engine.released + [a.reqs[req.deref].token]
              && r.agent.heap == a.heap
    ensures r.status != Success ==> r.agent == a
  {
    if agent.Null? || req.Null? || a.reqs[req.deref] == Released then
      Outcome(ErrInvalidParam, a, None, None)
    else
      var h := req.deref;
      var t := a.reqs[h].token;
      assert t !in a.engine.released by {
        forall i | 0 <= i < |a.engine.released| ensures a.engine.released[i] != t { }
      }
      if reply == Returned(EngineSuccess) then
        var e := Engine(a.engine.live - {t}, a.engine.released + [t], a.engine.next);
        Outcome(Success, Agent(a.heap, a.reqs[h := Released], e), None, Some(ReqArg(t)))
      else
        Outcome(ErrBackend, a, None, Some(ReqArg(t)))
  }

  /** `nixl_capi_destroy_xfer_req`: refuse while the sentinel is non-null,
      otherwise free the wrapper. The engine is never called. */
  function Destroy(a: Agent, req: Ptr<Obj>): (r: Outcome)
    requires Valid(a)
    requires req.Ptr? ==> req.deref in a.reqs
    ensures Valid(r.agent)
    ensures r.handle == None && r.called == None
    ensures r.agent.engine == a.engine
    ensures req.Null? ==> r == Outcome(ErrInvalidParam, a, None, None)
    ensures req.Ptr? && a.reqs[req.deref].Live? ==> r == Outcome(ErrInvalidState, a, None, None)
    ensures r.status == Success <==> req.Ptr? && a.reqs[req.deref] == Released
    ensures r.status == Success ==>
              && r.agent.reqs == a.reqs - {req.deref}
              && r.agent.heap.live == a.heap.live - {req.deref}
  {
    if req.Null? then Outcome(ErrInvalidParam, a, None, None)
    else if a.reqs[req.deref].Live? then Outcome(ErrInvalidState, a, None, None)
    else
      var h := req.deref;
      var heap' := FreeAll(a.heap, [h]);
      assert (set o | o in [h]) == {h};
      Outcome(Success, Agent(heap', a.reqs - {h}, a.engine), None, None)
  }

  /** After a successful release the sentinel is null, so a second release
      is refused as an invalid parameter and never reaches the engine, and
      destroy now succeeds. */
  lemma ReleaseThenReleaseOrDestroy(a: Agent, agent: Ptr<Opaque>, h: Obj, first: Reply, second: Reply)
    requires Valid(a) && h in a.reqs
    requires Release(a, agent, Ptr(h), first).status == Success
    ensures var a' := Release(a, agent, Ptr(h), first).agent;
            && h in a'.reqs
            && Release(a', agent, Ptr(h), second) == Outcome(ErrInvalidParam, a', None, None)
            && Destroy(a', Ptr(h)).status == Success
  {
  }

  /** One call of the binding's transfer-request API, with all pointer
      arguments non-null. */
  datatype Op =
    | CreateOp(reply: Reply)
    | PostOp(h: Obj, reply: Reply)
    | StatusOp(h: Obj, reply: Reply)
    | ReleaseOp(h: Obj, reply: Reply)
    | DestroyOp(h: Obj)

  /** The handle an operation acts on, if any. */
  function Target(op: Op): Option<Obj>
  {
    if op.CreateOp? then None else Some(op.h)
  }

  function Step(a: Agent, op: Op): (r: Outcome)
    requires Valid(a)
    requires Target(op).Some? ==> Target(op).value in a.reqs
  {
    match op
    case CreateOp(reply) => Create(a, Ptr(Opaque), Ptr(Opaque), Ptr(Opaque), Ptr(""), Ptr(Opaque), reply)
    case PostOp(h, reply) => Post(a, Ptr(Opaque), Ptr(h), reply)
    case StatusOp(h, reply) => GetStatus(a, Ptr(Opaque), Ptr(h), reply)
    case ReleaseOp(h, reply) => Release(a, Ptr(Opaque), Ptr(h), reply)
    case DestroyOp(h) => Destroy(a, Ptr(h))
  }

  /** Runs a sequence of calls. A call on a handle the caller no longer holds
      (never created, or already destroyed) would be a use of freed memory in
      C; such calls are not issued. The result is the final state and the
      request pointers the engine received, in order. */
  function Run(a: Agent, ops: seq<Op>): (r: (Agent, seq<EngineArg>))
    requires Valid(a)
    ensures Valid(r.0)
    ensures |a.engine.released| <= |r.0.engine.released|
    ensures r.0.engine.released[..|a.engine.released|] == a.engine.released
    ensures a.engine.next <= r.0.engine.next
    decreases |ops|
  {
    if ops == [] then (a, [])
    else if Target(ops[0]).Some? && Target(ops[0]).value !in a.reqs then Run(a, ops[1..])
    else
      var s := Step(a, ops[0]);
      var rest := Run(s.agent, ops[1..]);
      var calls := if s.called.Some? then [s.called.value] else [];
      (rest.0, calls + rest.1)
  }

  /** How many times `t` occurs in `s`. */
  function Count(s: seq<Token>, t: Token): nat
  {
    if s == [] then 0 else (if s[0] == t then 1 else 0) + Count(s[1..], t)
  }

  lemma {:induction false} DistinctCountAtMostOne(s: seq<Token>, t: Token)
    requires Distinct(s)
    ensures Count(s, t) <= 1
    ensures t !in s ==> Count(s, t) == 0
    decreases |s|
  {
    if s != [] {
      assert Distinct(s[1..]) by {
        forall i, j | 0 <= i < j < |s[1..]| ensures s[1..][i] != s[1..][j] {
          assert s[1..][i] == s[i + 1] && s[1..][j] == s[j + 1];
        }
      }
      DistinctCountAtMostOne(s[1..], t);
      if s[0] == t {
        assert t !in s[1..] by {
          forall k | 0 <= k < |s[1..]| ensures s[1..][k] != t {
            assert s[1..][k] == s[k + 1];
          }
        }
      }
    }
  }

  /** Over any sequence of calls, the engine releases each request at most
      once: whatever the engine answers, the binding never hands it a request
      a second time after a successful release. */
  lemma ReleasedAtMostOnce(a: Agent, ops: seq<Op>, t: Token)
    requires Valid(a)
    ensures Count(Run(a, ops).0.engine.released, t) <= 1
  {
    DistinctCountAtMostOne(Run(a, ops).0.engine.released, t);
  }
}
