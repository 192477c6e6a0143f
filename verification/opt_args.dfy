/** The optional-arguments object (`nixl_capi_opt_args_t`) and its setters and
    getters. Each setter changes one field and leaves the others alone; each
    getter reads back what the setter stored. */
module OptArgs {
  import opened CapiTypes

  /** The fields of `nixl_opt_args_t` the binding touches. */
  datatype OptArgs = OptArgs(backends: seq<BackendRef>, notifMsg: seq<byte>, hasNotif: bool, skipDescMerge: bool)

  /** What a setter did: its status and the object afterwards (a null
      object stays null). */
  datatype Set = Set(status: Status, args: Ptr<OptArgs>)

  /** `nixl_capi_opt_args_add_backend`: append the wrapped backend handle.
      `stored` says whether the append could allocate; when it could not, the
      exception is caught and the list is unchanged. */
  function AddBackend(args: Ptr<OptArgs>, backend: Ptr<BackendRef>, stored: bool): (r: Set)
    ensures args.Null? || backend.Null? ==> r == Set(ErrInvalidParam, args)
    ensures r.status == Success <==> args.Ptr? && backend.Ptr? && stored
    ensures r.status != Success ==> r.args == args
    ensures r.status == Success ==>
              && r.args.Ptr?
              && r.args.deref.backends == args.deref.backends + [backend.deref]
              && r.args.deref.notifMsg == args.deref.notifMsg
              && r.args.deref.hasNotif == args.deref.hasNotif
              && r.args.deref.skipDescMerge == args.deref.skipDescMerge
  {
    if args.Null? || backend.Null? then Set(ErrInvalidParam, args)
    else if !stored then Set(ErrBackend, args)
    else Set(Success, Ptr(args.deref.(backends := args.deref.backends + [backend.deref])))
  }

  /** `nixl_capi_opt_args_set_notif_msg`: store the first `len` bytes at
      `data`. A null `data` is accepted only with `len == 0`, which stores the
      empty message. The caller must supply at least `len` bytes. `stored`
      says whether the copy could allocate. */
  function SetNotifMsg(args: Ptr<OptArgs>, data: Ptr<seq<byte>>, len: nat, stored: bool): (r: Set)
    requires data.Ptr? ==> len <= |data.deref|
    ensures args.Null? || (data.Null? && len > 0) ==> r == Set(ErrInvalidParam, args)
    ensures r.status == Success <==> args.Ptr? && (data.Ptr? || len == 0) && stored
    ensures r.status != Success ==> r.args == args
    ensures r.status == Success ==>
              && r.args.Ptr?
              && r.args.deref.notifMsg == (if data.Ptr? then data.deref[..len] else [])
              && |r.args.deref.notifMsg| == len
              && r.args.deref.backends == args.deref.backends
              && r.args.deref.hasNotif == args.deref.hasNotif
              && r.args.deref.skipDescMerge == args.deref.skipDescMerge
  {
    if args.Null? || (data.Null? && len > 0) then Set(ErrInvalidParam, args)
    else if !stored then Set(ErrBackend, args)
    else
      var msg := if data.Null? then [] else data.deref[..len];
      Set(Success, Ptr(args.deref.(notifMsg := msg)))
  }

  /** `nixl_capi_opt_args_get_notif_msg`: an empty message is written as a
      null pointer and length 0; otherwise a fresh copy of the bytes and their
      count are written. `copied` says whether the `malloc` for the copy
      succeeded; when it did not, nothing is written. */
  function GetNotifMsg(args: Ptr<OptArgs>, data: OutPtr, len: OutPtr, copied: bool): (r: Out<(Ptr<seq<byte>>, nat)>)
    ensures args.Null? || data.Null? || len.Null? ==> r == Out(ErrInvalidParam, None)
    ensures args.Ptr? && data.Ptr? && len.Ptr? && args.deref.notifMsg == [] ==> r == Out(Success, Some((Null, 0)))
    ensures args.Ptr? && data.Ptr? && len.Ptr? && args.deref.notifMsg != [] ==>
              && (r.status == Success <==> copied)
              && (copied ==> r.written == Some((Ptr(args.deref.notifMsg), |args.deref.notifMsg|)))
              && (!copied ==> r == Out(ErrBackend, None))
  {
    if args.Null? || data.Null? || len.Null? then Rejected()
    else if |args.deref.notifMsg| == 0 then Out(Success, Some((Null, 0)))
    else if !copied then Out(ErrBackend, None)
    else Out(Success, Some((Ptr(args.deref.notifMsg), |args.deref.notifMsg|)))
  }

  /** `nixl_capi_opt_args_set_has_notif`. */
  function SetHasNotif(args: Ptr<OptArgs>, hasNotif: bool): (r: Set)
    ensures args.Null? ==> r == Set(ErrInvalidParam, Null)
    ensures args.Ptr? ==>
              && r.status == Success && r.args.Ptr?
              && r.args.deref.hasNotif == hasNotif
              && r.args.deref.backends == args.deref.backends
              && r.args.deref.notifMsg == args.deref.notifMsg
              && r.args.deref.skipDescMerge == args.deref.skipDescMerge
  {
    if args.Null? then Set(ErrInvalidParam, Null)
    else Set(Success, Ptr(args.deref.(hasNotif := hasNotif)))
  }

  /** `nixl_capi_opt_args_get_has_notif`. */
  function GetHasNotif(args: Ptr<OptArgs>, hasNotif: OutPtr): (r: Out<bool>)
    ensures args.Null? || hasNotif.Null? ==> r == Out(ErrInvalidParam, None)
    ensures args.Ptr? && hasNotif.Ptr? ==> r.status == Success && r.written.Some?
  {
    if args.Null? || hasNotif.Null? then Rejected() else Out(Success, Some(args.deref.hasNotif))
  }

  /** `nixl_capi_opt_args_set_skip_desc_merge`. */
  function SetSkipDescMerge(args: Ptr<OptArgs>, skipMerge: bool): (r: Set)
    ensures args.Null? ==> r == Set(ErrInvalidParam, Null)
    ensures args.Ptr? ==>
              && r.status == Success && r.args.Ptr?
              && r.args.deref.skipDescMerge == skipMerge
              && r.args.deref.backends == args.deref.backends
              && r.args.deref.notifMsg == args.deref.notifMsg
              && r.args.deref.hasNotif == args.deref.hasNotif
  {
    if args.Null? then Set(ErrInvalidParam, Null)
    else Set(Success, Ptr(args.deref.(skipDescMerge := skipMerge)))
  }

  /** `nixl_capi_opt_args_get_skip_desc_merge`. */
  function GetSkipDescMerge(args: Ptr<OptArgs>, skipMerge: OutPtr): (r: Out<bool>)
    ensures args.Null? || skipMerge.Null? ==> r == Out(ErrInvalidParam, None)
    ensures args.Ptr? && skipMerge.Ptr? ==> r.status == Success && r.written.Some?
  {
    if args.Null? || skipMerge.Null? then Rejected() else Out(Success, Some(args.deref.skipDescMerge))
  }

  /** Setting the notification message and reading it back gives the same
      bytes, or a null pointer and length 0 when the message was empty. */
  lemma NotifMsgRoundTrip(args: OptArgs, data: Ptr<seq<byte>>, len: nat)
    requires data.Ptr? ==> len <= |data.deref|
    requires data.Ptr? || len == 0
    ensures var a' := SetNotifMsg(Ptr(args), data, len, true).args;
            var got := GetNotifMsg(a', Ptr(Opaque), Ptr(Opaque), true);
            && got.status == Success
            && (len == 0 ==> got.written == Some((Null, 0)))
            && (len > 0 ==> got.written == Some((Ptr(data.deref[..len]), len)))
  {
  }

  /** Each boolean setter is read back unchanged by its getter, and does not
      disturb the other flag. */
  lemma FlagsRoundTrip(args: OptArgs, b: bool, c: bool)
    ensures GetHasNotif(SetHasNotif(Ptr(args), b).args, Ptr(Opaque)).written == Some(b)
    ensures GetSkipDescMerge(SetSkipDescMerge(Ptr(args), c).args, Ptr(Opaque)).written == Some(c)
    ensures var both := SetSkipDescMerge(SetHasNotif(Ptr(args), b).args, c).args;
            GetHasNotif(both, Ptr(Opaque)).written == Some(b) &&
            GetSkipDescMerge(both, Ptr(Opaque)).written == Some(c)
  {
  }
}
