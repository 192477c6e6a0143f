/** How the binding turns what the engine did into a C status code. Two
    translations occur: the binary one used by every forwarding call, and the
    three-way one used by posting a transfer and polling its status. */
module StatusTranslation {
  import opened CapiTypes

  /** Binary translation: engine success is success, anything else (an
      engine error code, in-progress, or a caught exception) is a backend error. */
  function SuccessOrBackend(reply: Reply): (s: Status)
    ensures s == Success <==> reply == Returned(EngineSuccess)
    ensures s != Success ==> s == ErrBackend
  {
    match reply
    case Returned(EngineSuccess) => Success
    case _ => ErrBackend
  }

  /** Three-way translation for post and status: success and in-progress pass
      through, every other outcome becomes a backend error. */
  function Progress(reply: Reply): (s: Status)
    ensures s == Success <==> reply == Returned(EngineSuccess)
    ensures s == InProg <==> reply == Returned(EngineInProg)
    ensures s == ErrBackend <==> reply.Raised? || reply.status.EngineError?
  {
    match reply
    case Returned(EngineSuccess) => Success
    case Returned(EngineInProg) => InProg
    case _ => ErrBackend
  }

  /** Neither translation ever reports a usage error: those are only produced
      by the binding's own argument and state checks. Off the in-progress
      status the two translations agree. */
  lemma TranslationsAgree(reply: Reply)
    ensures Progress(reply) !in {ErrInvalidParam, ErrInvalidState}
    ensures SuccessOrBackend(reply) !in {ErrInvalidParam, ErrInvalidState, InProg}
    ensures reply != Returned(EngineInProg) ==> Progress(reply) == SuccessOrBackend(reply)
  {
  }
}
