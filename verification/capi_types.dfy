/** Types shared by the whole C binding layer: C pointers, the C status codes,
    the engine's status codes and the shape of an out-parameter write. */
module CapiTypes {

  /** Optional value, used for "was the out-parameter written, and with what". */
  datatype Option<+T> = None | Some(value: T)

  /** A C pointer argument: null, or a pointer to a value of type `T`. */
  datatype Ptr<+T> = Null | Ptr(deref: T)

  /** An object behind a pointer whose contents this layer never inspects
      (the agent, a descriptor list, an out-parameter's target). */
  datatype Opaque = Opaque

  /** An out-parameter `T*`: only whether it is null matters; what gets
      written through it is reported in the result. */
  type OutPtr = Ptr<Opaque>

  type byte = bv8

  /** One entry of a backend parameter map (`nixl_b_params_t`). */
  datatype Param = Param(key: string, value: string)

  /** A backend parameter map, as the sequence of its entries in the
      container's iteration order. */
  type Params = seq<Param>

  /** A memory-type code (`nixl_mem_t`, and the binding's
      `nixl_capi_mem_type_t`, which share their numbering). */
  type MemCode = int

  /** The binding's own status codes (`nixl_capi_status_t`). */
  datatype Status =
    | Success          // NIXL_CAPI_SUCCESS
    | InProg           // NIXL_CAPI_IN_PROG
    | ErrInvalidParam  // NIXL_CAPI_ERROR_INVALID_PARAM
    | ErrInvalidState  // NIXL_CAPI_ERROR_INVALID_STATE
    | ErrBackend       // NIXL_CAPI_ERROR_BACKEND

  /** The engine's status codes (`nixl_status_t`): success, in progress, or one
      of the engine's error codes, which the binding never distinguishes. */
  datatype EngineStatus = EngineSuccess | EngineInProg | EngineError(code: int)

  /** What a call into the engine did: it returned a status, or it threw an
      exception that the binding's `catch` clause caught. */
  datatype Reply = Returned(status: EngineStatus) | Raised

  /** The outcome of a binding call that writes out-parameters: the status it
      returns and the value written through its out-pointers, `None` when the
      out-pointers were left untouched. */
  datatype Out<+T> = Out(status: Status, written: Option<T>)

  /** The engine's backend handle (`nixlBackendH*`). */
  type BackendRef = nat

  /** The elements of `s` are pairwise distinct. */
  ghost predicate Distinct<T>(s: seq<T>)
  {
    forall i, j :: 0 <= i < j < |s| ==> s[i] != s[j]
  }

  /** The outcome every binding function gives when a required pointer is null. */
  function Rejected<T>(): Out<T>
  {
    Out(ErrInvalidParam, None)
  }
}
