# NIXL C binding: a Dafny model

This project models the C binding layer that NIXL, a library for moving data
between agents over pluggable transport backends, exposes to its Rust crate. It covers the binding functions
in `src/bindings/rust/wrapper.cpp` and the engine-side transfer-request
records in `include/internal/transfer_request.h`. The binding wraps the
engine object `nixlAgent`. Every call it makes into that engine
(`agent->inner->...`) is treated as an oracle. The engine's answer is a
parameter of the model: a `Reply`, which is either the status the call
returned or the fact that it threw.

What is modelled:

- **Status translation** (`StatusTranslation`). Most forwarding calls map
  engine success to `NIXL_CAPI_SUCCESS` and everything else to
  `NIXL_CAPI_ERROR_BACKEND`. Posting a transfer and polling its status also
  pass `IN_PROG` through.
- **Publish on success** (`Publish`, `Heaps`). `create_backend`,
  `get_plugin_params` and `get_backend_params` allocate their wrapper
  objects first, let the engine fill them, and write the caller's
  out-pointers only when the engine succeeded. `Heaps` tracks which
  wrapper objects are allocated, so the model can say there is no leak.
- **Transfer-request lifecycle** (`XferReq`). A handle's inner `req`
  pointer is its liveness sentinel. Create publishes a live handle. Post and
  status forward the inner pointer to the engine. Release clears the sentinel
  only when the engine's release succeeds. Destroy frees the handle only once
  the sentinel is null. `Run` plays any sequence of these calls. It proves
  that every state reached keeps the invariant and that the engine releases
  each request at most once.
- **Engine-side records** (`TransferRequest`). These are the constructors
  and destructors of `nixlXferReqH` and `nixlXferSideH`. A destructor is
  modelled as the list of effects it has: list deletions and the backend
  `releaseReqH` call.
- **Small pure helpers**:
  - the memory-type name table (`MemTypes`);
  - the bounds-checked list accessors (`Lists`);
  - the notification map (`NotifMap`);
  - the parameter iterator (`ParamIter`);
  - the optional-arguments setters and getters (`OptArgs`).

Conventions:

- A C pointer argument is a `Ptr<T>`, which is either `Null` or `Ptr(value)`.
- An out-pointer is an `OutPtr`; only whether it is null matters.
- A call that writes out-parameters returns `Out(status, written)`. Here
  `written == None` means the caller's variables were left untouched.

## Model

| member | source | states |
|---|---|---|
| `StatusTranslation.SuccessOrBackend` | src/bindings/rust/wrapper.cpp:1101-1105 | The binary translation reports success exactly when the engine returned success. Every other outcome, including a caught exception, is a backend error. |
| `StatusTranslation.Progress` | src/bindings/rust/wrapper.cpp:1047-1050 | The post/status translation is total. Success maps to success and in-progress to in-progress. Every engine error code or exception maps to a backend error. |
| `StatusTranslation.TranslationsAgree` | src/bindings/rust/wrapper.cpp:1065-1066 | Neither translation ever produces a usage error (invalid param or state). The two translations agree on every outcome except in-progress. |
| `Publish.PublishAsWritten` | src/bindings/rust/wrapper.cpp:1021-1037 | The publish step as written. Its status is the binary translation, and something is published only on success. |
| `Publish.AsWrittenLeaksOnRaise` | src/bindings/rust/wrapper.cpp:1021-1037 | When the engine throws after the wrapper was allocated, the as-written step leaves an allocated object that the caller never receives. |
| `Publish.AsWrittenAgreesWhenReturned` | src/bindings/rust/wrapper.cpp:1027-1030 | When the engine returns a status instead of throwing, the as-written step and the corrected step behave identically. |
| `Publish.PublishOnSuccess` | src/bindings/rust/wrapper.cpp:1021-1033 | Corrected publish step. Afterwards, exactly the earlier objects plus the published ones are allocated, so there is no leak. Success hands out exactly `k` distinct fresh objects. Failure hands out nothing and leaves allocation as it was. |
| `Publish.CreateBackend` | src/bindings/rust/wrapper.cpp:338-361 | Any null argument is rejected with INVALID_PARAM and nothing is allocated. Otherwise the status follows the engine. The out-handle is written iff the call succeeded. It then wraps the engine's backend in a fresh object, and that object is the only new allocation. |
| `Publish.GetPluginParams` | src/bindings/rust/wrapper.cpp:276-304 | Any null argument is rejected with INVALID_PARAM. Both lists are published together, and only when the engine succeeded. They are two distinct, newly allocated objects holding the engine's contents, and they are the only new allocations. On failure both temporaries are gone and the outputs are untouched. |
| `Publish.GetBackendParams` | src/bindings/rust/wrapper.cpp:696-724 | As for plugin params: null arguments are rejected. Two distinct, newly allocated list objects are published together only on engine success, holding what the engine filled in, and nothing else stays allocated. |
| `XferReq.Create` | src/bindings/rust/wrapper.cpp:1011-1038 | Null arguments are rejected with nothing changed. A handle is written iff the engine succeeded. The new handle is fresh and live, with a request token not live and never released before. All existing handles keep their state. The handle is a newly allocated object and the only new allocation. On failure the handle map, the engine and the allocation set are unchanged. |
| `XferReq.Post` | src/bindings/rust/wrapper.cpp:1040-1055 | Post never changes lifecycle state. With both pointers non-null, the engine receives the handle's inner request pointer unchanged: the live request, or null when the handle was already released. Its status is the three-way translation. |
| `XferReq.GetStatus` | src/bindings/rust/wrapper.cpp:1057-1071 | The status check never changes lifecycle state. With both pointers non-null, the engine receives the handle's inner request pointer unchanged: the live request, or null for a released handle. Its status is the three-way translation. |
| `XferReq.Release` | src/bindings/rust/wrapper.cpp:1093-1110 | A null argument, or a handle whose sentinel is already null, gets INVALID_PARAM with no engine call. Otherwise the engine receives a request that is live and was never released. On success the handle becomes released and the request is appended to the release log. On failure nothing changes, so the release can be retried. The invariant is preserved. |
| `XferReq.Destroy` | src/bindings/rust/wrapper.cpp:1073-1091 | Destroy succeeds iff the handle's sentinel is null. A live handle gets INVALID_STATE and nothing is freed. On success the handle and its wrapper object are gone. The engine is never involved. |
| `XferReq.ReleaseThenReleaseOrDestroy` | src/bindings/rust/wrapper.cpp:1080-1103 | After a successful release, a second release gets INVALID_PARAM without reaching the engine, and destroy succeeds. |
| `XferReq.Run` | src/bindings/rust/wrapper.cpp:1011-1110 | From a valid state, any sequence of create, post, status, release and destroy calls reaches a valid state. The engine's release log only grows by appending. |
| `XferReq.ReleasedAtMostOnce` | src/bindings/rust/wrapper.cpp:1096-1104 | Over any sequence of calls, and whatever the engine answers, each engine request is successfully released at most once. |
| `TransferRequest.NewXferReqH` | include/internal/transfer_request.h:37-42 | A default-constructed request has a null engine, a null backend handle and null descriptor lists. |
| `TransferRequest.DestroyXferReqH` | include/internal/transfer_request.h:44-50 | The destructor calls the engine's `releaseReqH` exactly once, on the stored engine and handle, when a backend handle is present, and never otherwise. That call comes last. The destructor deletes exactly the non-null descriptor lists. It deletes no list twice unless both pointers name the same list. |
| `TransferRequest.DefaultReleasesNothing` | include/internal/transfer_request.h:37-50 | Destroying a default-constructed request has no effect at all. |
| `TransferRequest.NewXferSideH` | include/internal/transfer_request.h:64-66 | A new side handle has a null engine. Its descriptor list is left uninitialised. |
| `TransferRequest.DestroyXferSideH` | include/internal/transfer_request.h:68-70 | Destroying an initialised side handle deletes exactly its descriptor list (if non-null) and releases nothing. |
| `MemTypes.MemTypeToString` | src/bindings/rust/wrapper.cpp:667-694 | A null out-pointer, or any code below 0 or at least 6, gets INVALID_PARAM with nothing written. Every code from 0 to 5 succeeds and writes the name of the memory type with that code. |
| `MemTypes.NamesRoundTrip` | src/bindings/rust/wrapper.cpp:675-688 | The table agrees with the per-type names. Each name reads back as the type of its code, and distinct codes print distinct names. |
| `MemTypes.EveryTypeNamed` | src/bindings/rust/wrapper.cpp:675-682 | Every memory type has its own name at its own code, and that name parses back to the type. |
| `Lists.Size` | src/bindings/rust/wrapper.cpp:244-258 | Null pointers are rejected. Otherwise the element count is written. |
| `Lists.StringListGet` | src/bindings/rust/wrapper.cpp:260-274 | Success iff both pointers are non-null and the index is below the size. It then writes the string at that index; otherwise it gets INVALID_PARAM with nothing written. |
| `Lists.MemListGet` | src/bindings/rust/wrapper.cpp:651-665 | Success iff both pointers are non-null and the index is below the size. It then writes the memory-type code at that index; otherwise it gets INVALID_PARAM with nothing written. |
| `Lists.MemListIsEmpty` | src/bindings/rust/wrapper.cpp:619-633 | Reports empty exactly when the size call reports 0. |
| `Lists.AtSucceedsBelowSize` | src/bindings/rust/wrapper.cpp:244-268 | An indexed read succeeds exactly for the indices below the reported size. |
| `Lists.ReadAll` | src/bindings/rust/wrapper.cpp:244-274 | A caller that reads the size and then every index below it gets back the whole list, in order. |
| `NotifMap.Find` | src/bindings/rust/wrapper.cpp:1209-1210 | The lookup finds the first position holding the agent's name, or reports that no entry holds it. |
| `NotifMap.Size` | src/bindings/rust/wrapper.cpp:1164-1178 | Null pointers are rejected. Otherwise the number of agents is written. |
| `NotifMap.GetAgentAtAsWritten` | src/bindings/rust/wrapper.cpp:1180-1199 | The lookup as written. With non-null pointers, an index above the size reaches `std::advance` past the end, which is undefined. Every other input behaves as the corrected lookup. |
| `NotifMap.AgentAtPastEndUndefined` | src/bindings/rust/wrapper.cpp:1188-1192 | Index `size + 1` passes the end check into undefined behaviour, while the corrected lookup refuses it. |
| `NotifMap.GetAgentAt` | src/bindings/rust/wrapper.cpp:1180-1199 | Corrected lookup, defined for every index. It succeeds iff the pointers are non-null and the index is below the size, and then writes the agent name at that position. Every other input gets INVALID_PARAM with nothing written. |
| `NotifMap.GetNotifsSize` | src/bindings/rust/wrapper.cpp:1201-1219 | Succeeds iff the named agent is in the map, and then writes that agent's notification count. An unknown agent or a null pointer gets INVALID_PARAM with nothing written. |
| `NotifMap.GetNotif` | src/bindings/rust/wrapper.cpp:1221-1242 | Succeeds iff the named agent is present and the index is below its notification count. It then writes that notification's bytes; otherwise it gets INVALID_PARAM with nothing written. |
| `NotifMap.PositionalReadsAgree` | src/bindings/rust/wrapper.cpp:1180-1242 | The name read at position `i` has that entry's notification count. Its notifications read back by index exactly, in arrival order, and only for indices below the count. |
| `ParamIter.CreateIterator` | src/bindings/rust/wrapper.cpp:554-571 | Null pointers are rejected. Otherwise a valid iterator over the map's entries is written, standing at the first entry. |
| `ParamIter.Next` | src/bindings/rust/wrapper.cpp:573-601 | Null pointers are rejected, writing nothing and leaving the iterator alone. An exhausted iterator reports success with `has_next` false and leaves key and value unwritten. Otherwise the current entry is handed out and kept in the iterator. The iterator advances by exactly one, and `has_next` is true iff entries remain. |
| `ParamIter.IsEmpty` | src/bindings/rust/wrapper.cpp:538-552 | Reports empty exactly when the first `next` on a fresh iterator hands out nothing. |
| `ParamIter.Drain` | src/bindings/rust/wrapper.cpp:573-601 | Calling `next` until `has_next` is false hands out every entry exactly once, in container order. This takes one call per entry, or a single call for an empty map. |
| `OptArgs.AddBackend` | src/bindings/rust/wrapper.cpp:412-426 | Null arguments are rejected and nothing changes. On success the backend is appended and the other fields are unchanged. |
| `OptArgs.SetNotifMsg` | src/bindings/rust/wrapper.cpp:428-442 | A null object, or null data with a positive length, is rejected and nothing changes. On success the message is the first `len` bytes of the data (empty for null data with length 0), and the other fields are unchanged. |
| `OptArgs.GetNotifMsg` | src/bindings/rust/wrapper.cpp:444-472 | Null pointers are rejected. An empty message is written as a null pointer with length 0. A non-empty message is written as a copy with its length when the copy can be allocated; otherwise it gets a backend error with nothing written. |
| `OptArgs.SetHasNotif` | src/bindings/rust/wrapper.cpp:474-488 | A null object is rejected. Otherwise it succeeds, the flag becomes the argument, and every other field is unchanged. |
| `OptArgs.GetHasNotif` | src/bindings/rust/wrapper.cpp:490-504 | Null pointers are rejected. Otherwise it succeeds and writes a value. |
| `OptArgs.SetSkipDescMerge` | src/bindings/rust/wrapper.cpp:506-520 | A null object is rejected. Otherwise it succeeds, the flag becomes the argument, and every other field is unchanged. |
| `OptArgs.GetSkipDescMerge` | src/bindings/rust/wrapper.cpp:522-536 | Null pointers are rejected. Otherwise it succeeds and writes a value. |
| `OptArgs.NotifMsgRoundTrip` | src/bindings/rust/wrapper.cpp:428-472 | After a successful set, get returns the same bytes and length, or a null pointer with length 0 when the message is empty. |
| `OptArgs.FlagsRoundTrip` | src/bindings/rust/wrapper.cpp:474-536 | Each flag setter is read back unchanged by its getter, and setting one flag does not disturb the other. |

## Findings

| source | as written | input that shows it | evidently intended | confidence | as-written member | corrected member |
|---|---|---|---|---|---|---|
| src/bindings/rust/wrapper.cpp:1021-1037 | If the engine call throws, `catch (...)` returns ERROR_BACKEND without deleting the wrapper object allocated just before it. The same pattern is at lines 346-360 (`create_backend`) and 284-303 and 704-723 (the two parameter getters). | Anything inside the try block throws after the wrapper was allocated (`Reply` = `Raised`, `k` = 1). That can be the engine's `createXferReq`, or the `std::string(remote_agent)` copy at line 1024 with `bad_alloc`. Likewise the `plugin_name` conversions at 288 and 348, or the second `new` at 286 and 706, which leaves only the first list allocated (`k` = 1). | Every failure path deletes the temporaries, as the failure-status path does. | medium, not executed: it needs an exception, from the engine or an allocation | `Publish.PublishAsWritten` | `Publish.PublishOnSuccess` |
| src/bindings/rust/wrapper.cpp:1188-1192 | `std::advance` moves the iterator `index` steps, and only then is it compared with `end()`. So only `index == size` is refused. | A map with `n` agents and `index` = `n + 1`: the iterator is advanced past `end()`, which is undefined behaviour. | Refuse every index at or past the size before advancing. | high, not executed | `NotifMap.GetAgentAtAsWritten` | `NotifMap.GetAgentAt` |

`Publish.AsWrittenLeaksOnRaise` proves the leak of the as-written step for
every `k > 0`. The case `k` = 1 covers a parameter getter whose second `new`
throws. `NotifMap.AgentAtPastEndUndefined` exhibits the unchecked index, and
`NotifMap.PositionalReadsAgree` uses the corrected lookup.
Every constructor in the model (`CreateBackend`, `GetPluginParams`,
`GetBackendParams`, `XferReq.Create`) uses the corrected step.

## Left out

- Agent creation and destruction (`create_agent`, `destroy_agent`) are not modelled. They only allocate or free the agent. The progress thread enabled at creation is concurrency.
- The remaining engine forwarders are not modelled separately: `get_local_md`, `load_remote_md`, `invalidate_remote_md`, `get_available_plugins`, `register_mem`, `deregister_mem` and `get_notifs`. What they do is engine behaviour, which is not part of this model. Their status handling is the binary translation `StatusTranslation.SuccessOrBackend` after a null check.
- The descriptor-list functions (`create`, `destroy`, `add_desc`, `len`, `has_overlaps`, `clear` and `resize`, for both list kinds) are not modelled. They forward to descriptor-list methods that are not part of this model, so overlap and resize behaviour is not specified.
- The plain constructors and destructors of the small wrapper objects are not modelled. These are the string list, memory list, params, backend, opt-args, iterator and notification map. They only `new` or `delete`.
- The default field values of a new opt-args object are defined in engine headers that are not part of this model.
- Allocation failure (`bad_alloc` from a `new` or a string copy) is modelled only in `OptArgs`, through its `stored` and `copied` parameters. Elsewhere the ERROR_BACKEND that such a failure produces is not modelled. This covers `ParamIter.CreateIterator` (the `new` at line 562), `ParamIter.Next` (the key and value copies at 587-588), and `NotifMap.GetNotifsSize` and `NotifMap.GetNotif` (the conversion of `agent_name` to a `std::string` key at 1208 and 1229). The leak when such a failure happens inside the publish constructors is the Findings row above.
- The notification-map functions and `get_notifs` catch only `std::exception`. Any other exception would escape the binding, and this is not modelled.
- `NIXL_DEBUG` print blocks are I/O and are left out.
- Raw-pointer lifetimes are left out. This covers the `c_str()` and `data()` views handed to the caller, and iterator invalidation if the params map changes while an iterator exists.
- The numeric values of the engine's status codes and memory types are not in the modelled files. The model uses datatypes, and assumes the cast from the engine's memory type to the binding's is the identity on codes.
- `size_t` indices are unbounded naturals. The binding only compares them against sizes, so width does not matter.
- `XferReq.Post` and `XferReq.GetStatus` forward a null request to the engine when the handle was already released, because the binding does not check the sentinel there. What the engine does with that null is not part of this model.
- What the engine does to its own request record on release is not part of this model. The engine's `releaseXferReq` presumably destroys the `nixlXferReqH`, which runs the destructor modelled in `TransferRequest`. The two layers are modelled separately.
- The engine is assumed to keep a request live when its release fails, because the binding keeps the handle live and allows a retry.
- `XferReq.Run` does not issue calls on handles that were never created or were already destroyed. Such calls read freed memory in C and are undefined behaviour.
- `NotifMap.GetNotifsSize` and `NotifMap.GetNotif` require each agent name to appear at most once in the map. This is a property of the map container itself, not a demand on callers.
- `OptArgs.GetHasNotif` and `OptArgs.GetSkipDescMerge` state only that a value is written. Which value it is follows from the round-trip lemma `OptArgs.FlagsRoundTrip`.
