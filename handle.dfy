/**
 * `Pam`: one PAM transaction. It owns the native handle and the conversation, runs
 * the lifecycle calls, caches the outcome of the last one in `lastReturn`, and ends
 * the transaction with `pam_end`.
 */
module Handle {
  import opened Wrappers
  import opened Constants
  import opened Helper
  import opened Flags
  import opened Exchanges
  import opened Native

  /** `PamBuilder`: the service name and an optional user name for `pam_start`. */
  datatype PamBuilder = PamBuilder(serviceName: Bytes, username: Option<Bytes>)

  /** `PamBuilder::new`: no user name yet. */
  function NewBuilder(serviceName: Bytes): (b: PamBuilder)
    ensures b.serviceName == serviceName && b.username.None?
  {
    PamBuilder(serviceName, None)
  }

  /** `PamBuilder::username`: sets the user name, keeping the service name. */
  function WithUsername(b: PamBuilder, username: Bytes): (r: PamBuilder)
    ensures r.serviceName == b.serviceName && r.username == Some(username)
  {
    b.(username := Some(username))
  }

  /** `split`: the outcome of a result without its value. */
  function Split<T>(r: PamResult<T>): (s: PamResult<()>)
    ensures s.Ok? <==> r.Ok?
    ensures s.Err? ==> s.error == r.error
  {
    match r
    case Ok(_) => Ok(())
    case Err(e) => Err(e)
  }

  /** The status `end` hands to `pam_end`: the outcome's native code. */
  function EndStatus(result: PamResult<()>): (status: bv32)
  {
    ReturnCodeOfResult(result) as bv32
  }

  /** The status `end_silent` hands to `pam_end`: the outcome's code with `PAM_DATA_SILENT` added. */
  function SilentStatus(result: PamResult<()>): (status: bv32)
  {
    EndStatus(result) | PAM_DATA_SILENT
  }

  /** Linux-PAM reads back from the status `end` passes exactly the outcome it was given. */
  lemma EndStatusRoundTrip(result: PamResult<()>)
    ensures ResultFrom(EndStatus(result) as int) == result
    ensures result.Ok? <==> EndStatus(result) == 0
  {
    var code := ReturnCodeOfResult(result);
    SmallCodeAsBits(code);
    ResultRoundTrip(result);
  }

  /** A native code fits the status word unchanged. */
  lemma SmallCodeAsBits(code: int)
    requires PAM_SUCCESS <= code <= PAM_AUTHTOK_EXPIRED
    ensures (code as bv32) as int == code
    ensures code == PAM_SUCCESS <==> code as bv32 == 0
    ensures code as bv32 <= 27
  {
  }

  /** The silent status carries the `PAM_DATA_SILENT` bit on top of the untouched outcome code. */
  lemma SilentStatusKeepsCode(result: PamResult<()>)
    ensures SilentStatus(result) & PAM_DATA_SILENT == PAM_DATA_SILENT
    ensures SilentStatus(result) & !PAM_DATA_SILENT == EndStatus(result)
  {
    SmallCodeAsBits(ReturnCodeOfResult(result));
    LowCodeApart(EndStatus(result), SilentStatus(result));
  }

  /** A code below 28 shares no bit with `PAM_DATA_SILENT`. */
  lemma LowCodeApart(code: bv32, whole: bv32)
    requires code <= 27 && whole == code | PAM_DATA_SILENT
    ensures whole & PAM_DATA_SILENT == PAM_DATA_SILENT
    ensures whole & !PAM_DATA_SILENT == code
  {
  }

  /** `Pam`: the native handle, the outcome of the last lifecycle call, and the owned conversation. */
  class Pam {
    const handle: PamHandle
    const conversation: Conversation
    var lastReturn: PamResult<()>
    /** Set once `pam_end` has run; only the corrected teardown (`EndOnce`, `DropOnce`) consults it. */
    var ended: bool

    constructor (handle: PamHandle, conversation: Conversation)
      ensures this.handle == handle && this.conversation == conversation
      ensures lastReturn == Ok(()) && !ended
    {
      this.handle := handle;
      this.conversation := conversation;
      lastReturn := Ok(());
      ended := false;
    }

    /** One lifecycle call: record it on the handle, translate its code, cache the outcome. */
    method Run(call: NativeCall, ret: int) returns (r: PamResult<()>)
      modifies this, handle
      ensures r == ResultFrom(ret) && lastReturn == Split(r) && ended == old(ended)
      ensures handle.calls == old(handle.calls) + [call]
      ensures handle.env == old(handle.env) && handle.items == old(handle.items)
    {
      handle.calls := handle.calls + [call];
      r := ResultFrom(ret);
      lastReturn := Split(r);
    }

    /** `authenticate`: `pam_authenticate` with the raw flags. */
    method Authenticate(flags: bv16, ret: int) returns (r: PamResult<()>)
      modifies this, handle
      ensures r == ResultFrom(ret) && lastReturn == r && ended == old(ended)
      ensures handle.calls == old(handle.calls) + [AuthenticateCall(FlagsToRaw(AUTHN_FLAGS, flags))]
      ensures handle.env == old(handle.env) && handle.items == old(handle.items)
    {
      r := Run(AuthenticateCall(FlagsToRaw(AUTHN_FLAGS, flags)), ret);
    }

    /** `account_management`: `pam_acct_mgmt` with the raw flags. */
    method AccountManagement(flags: bv16, ret: int) returns (r: PamResult<()>)
      modifies this, handle
      ensures r == ResultFrom(ret) && lastReturn == r && ended == old(ended)
      ensures handle.calls == old(handle.calls) + [AcctMgmtCall(FlagsToRaw(AUTHN_FLAGS, flags))]
      ensures handle.env == old(handle.env) && handle.items == old(handle.items)
    {
      r := Run(AcctMgmtCall(FlagsToRaw(AUTHN_FLAGS, flags)), ret);
    }

    /** `change_authtok`: `pam_chauthtok` with the raw flags. */
    method ChangeAuthtok(flags: bv16, ret: int) returns (r: PamResult<()>)
      modifies this, handle
      ensures r == ResultFrom(ret) && lastReturn == r && ended == old(ended)
      ensures handle.calls == old(handle.calls) + [ChauthtokCall(FlagsToRaw(AUTHTOK_FLAGS, flags))]
      ensures handle.env == old(handle.env) && handle.items == old(handle.items)
    {
      r := Run(ChauthtokCall(FlagsToRaw(AUTHTOK_FLAGS, flags)), ret);
    }

    /** `open_session`: `pam_open_session` with the raw flags. */
    method OpenSession(flags: bv16, ret: int) returns (r: PamResult<()>)
      modifies this, handle
      ensures r == ResultFrom(ret) && lastReturn == r && ended == old(ended)
      ensures handle.calls == old(handle.calls) + [OpenSessionCall(FlagsToRaw(BASE_FLAGS, flags))]
      ensures handle.env == old(handle.env) && handle.items == old(handle.items)
    {
      r := Run(OpenSessionCall(FlagsToRaw(BASE_FLAGS, flags)), ret);
    }

    /** `close_session`: `pam_close_session` with the raw flags. */
    method CloseSession(flags: bv16, ret: int) returns (r: PamResult<()>)
      modifies this, handle
      ensures r == ResultFrom(ret) && lastReturn == r && ended == old(ended)
      ensures handle.calls == old(handle.calls) + [CloseSessionCall(FlagsToRaw(BASE_FLAGS, flags))]
      ensures handle.env == old(handle.env) && handle.items == old(handle.items)
    {
      r := Run(CloseSessionCall(FlagsToRaw(BASE_FLAGS, flags)), ret);
    }

    /** `setcred`: `pam_setcred` with the action's raw value. */
    method Setcred(action: CredAction, ret: int) returns (r: PamResult<()>)
      modifies this, handle
      ensures r == ResultFrom(ret) && lastReturn == r && ended == old(ended)
      ensures handle.calls == old(handle.calls) + [SetcredCall(CredActionRaw(action))]
      ensures handle.env == old(handle.env) && handle.items == old(handle.items)
    {
      r := Run(SetcredCall(CredActionRaw(action)), ret);
    }

    /** `end`: `pam_end` with the outcome's code. It does not end the value, which stays droppable. */
    method End(result: PamResult<()>)
      modifies handle
      ensures handle.calls == old(handle.calls) + [EndCall(EndStatus(result))]
      ensures handle.env == old(handle.env) && handle.items == old(handle.items)
    {
      handle.calls := handle.calls + [EndCall(EndStatus(result))];
    }

    /** `end_silent`: `pam_end` with the outcome's code and `PAM_DATA_SILENT`. */
    method EndSilent(result: PamResult<()>)
      modifies handle
      ensures handle.calls == old(handle.calls) + [EndCall(SilentStatus(result))]
      ensures handle.env == old(handle.env) && handle.items == old(handle.items)
    {
      handle.calls := handle.calls + [EndCall(SilentStatus(result))];
    }

    /** `Drop for Pam`: `end(Ok(()))`, so `pam_end` gets 0 whatever `lastReturn` holds. */
    method Drop()
      modifies handle
      ensures handle.calls == old(handle.calls) + [EndCall(0)]
      ensures handle.env == old(handle.env) && handle.items == old(handle.items)
    {
      End(Ok(()));
    }

    /** Corrected `end`: `pam_end` runs only on a transaction not yet ended, which it then marks ended. */
    method EndOnce(result: PamResult<()>)
      modifies this, handle
      ensures ended && lastReturn == old(lastReturn)
      ensures old(ended) ==> handle.calls == old(handle.calls)
      ensures !old(ended) ==> handle.calls == old(handle.calls) + [EndCall(EndStatus(result))]
      ensures handle.env == old(handle.env) && handle.items == old(handle.items)
    {
      if !ended {
        End(result);
        ended := true;
      }
    }

    /** Corrected `Drop`: ends a transaction not yet ended with the cached outcome of the last call. */
    method DropOnce()
      modifies this, handle
      ensures ended && lastReturn == old(lastReturn)
      ensures old(ended) ==> handle.calls == old(handle.calls)
      ensures !old(ended) ==> handle.calls == old(handle.calls) + [EndCall(EndStatus(old(lastReturn)))]
      ensures handle.env == old(handle.env) && handle.items == old(handle.items)
    {
      EndOnce(lastReturn);
    }

    /**
     * `username`: `pam_get_user` with the prompt (null for none). A native error is
     * returned as is; success with a null name is `ConversationError`; otherwise the
     * name is copied. The source panics on a prompt with a nul.
     */
    method Username(prompt: Option<Bytes>, ret: int, output: Option<Bytes>) returns (r: PamResult<Bytes>)
      requires prompt.Some? ==> !HasNul(prompt.value)
      modifies handle
      ensures handle.calls == old(handle.calls) + [GetUserCall(PromptPtr(OptionCStr(prompt)))]
      ensures handle.env == old(handle.env)
      ensures r.Err? <==> ret != PAM_SUCCESS || output.None?
      ensures ret != PAM_SUCCESS ==> r.error == ResultFrom(ret).error
      ensures ret == PAM_SUCCESS && output.None? ==> r.error == ConversationError
      ensures ret == PAM_SUCCESS && output.Some? ==> r.value == CStr(output.value)
    {
      handle.calls := handle.calls + [GetUserCall(PromptPtr(OptionCStr(prompt)))];
      var code := ResultFrom(ret);
      if code.Err? {
        return Err(code.error);
      }
      match CopyPamString(output)
      case None =>
        r := Err(ConversationError);
      case Some(name) =>
        r := Ok(name);
    }
  }

  /** The arguments `start` hands to `pam_start`: the service name and the user name (null for none) as C strings. */
  datatype StartCall = StartCall(service: Bytes, user: Option<Bytes>)

  /**
   * `Pam::start`: a nonzero code from `pam_start` is its error; success with a null
   * handle is `BufferError`; otherwise a transaction on the new handle whose last
   * outcome is success. `handleSet` says whether `pam_start` stored a handle, and
   * `env0`, `items0` are the environment and items Linux-PAM gives it. The source
   * panics on a name with a nul.
   */
  method Start(serviceName: Bytes, username: Option<Bytes>, conv: Conversation, ret: int,
               handleSet: bool, env0: map<Bytes, Bytes>, items0: map<int, Bytes>)
    returns (r: PamResult<Pam>, call: StartCall)
    requires !HasNul(serviceName)
    requires username.Some? ==> !HasNul(username.value)
    ensures call == StartCall(serviceName + [0], PromptPtr(OptionCStr(username)))
    ensures r.Err? <==> ret != PAM_SUCCESS || !handleSet
    ensures ret != PAM_SUCCESS ==> r.error == ResultFrom(ret).error
    ensures ret == PAM_SUCCESS && !handleSet ==> r.error == BufferError
    ensures r.Ok? ==> fresh(r.value) && fresh(r.value.handle) && r.value.conversation == conv
    ensures r.Ok? ==> r.value.handle.calls == [] && r.value.handle.env == env0 && r.value.handle.items == items0
    ensures r.Ok? ==> r.value.lastReturn == Ok(()) && !r.value.ended
  {
    call := StartCall(serviceName + [0], PromptPtr(OptionCStr(username)));
    var code := ResultFrom(ret);
    if code.Err? {
      return Err(code.error), call;
    }
    if !handleSet {
      return Err(BufferError), call;
    }
    var h := new PamHandle(env0, items0);
    var pam := new Pam(h, conv);
    r := Ok(pam);
  }

  /** `PamBuilder::build`: `start` with the builder's names. */
  method Build(b: PamBuilder, conv: Conversation, ret: int,
               handleSet: bool, env0: map<Bytes, Bytes>, items0: map<int, Bytes>)
    returns (r: PamResult<Pam>, call: StartCall)
    requires !HasNul(b.serviceName)
    requires b.username.Some? ==> !HasNul(b.username.value)
    ensures call == StartCall(b.serviceName + [0], PromptPtr(OptionCStr(b.username)))
    ensures r.Err? <==> ret != PAM_SUCCESS || !handleSet
    ensures ret != PAM_SUCCESS ==> r.error == ResultFrom(ret).error
    ensures ret == PAM_SUCCESS && !handleSet ==> r.error == BufferError
    ensures r.Ok? ==> fresh(r.value) && fresh(r.value.handle) && r.value.conversation == conv
    ensures r.Ok? ==> r.value.handle.calls == [] && r.value.handle.env == env0 && r.value.handle.items == items0
    ensures r.Ok? ==> r.value.lastReturn == Ok(()) && !r.value.ended
  {
    r, call := Start(b.serviceName, b.username, conv, ret, handleSet, env0, items0);
  }

  /** As written: ending a transaction and then dropping it calls `pam_end` twice, the second time with 0. */
  method EndThenDrop(p: Pam, result: PamResult<()>)
    modifies p.handle
    ensures p.handle.calls == old(p.handle.calls) + [EndCall(EndStatus(result)), EndCall(0)]
  {
    p.End(result);
    p.Drop();
  }

  /** Corrected: ending and then dropping calls `pam_end` exactly once, with the outcome given to `end`. */
  method EndOnceThenDropOnce(p: Pam, result: PamResult<()>)
    requires !p.ended
    modifies p, p.handle
    ensures p.ended
    ensures p.handle.calls == old(p.handle.calls) + [EndCall(EndStatus(result))]
  {
    p.EndOnce(result);
    p.DropOnce();
  }

  /** Corrected: dropping after a failed lifecycle call hands that failure to `pam_end`. */
  method FailThenDropOnce(p: Pam, ret: int)
    requires !p.ended && ret != PAM_SUCCESS
    modifies p, p.handle
    ensures p.handle.calls == old(p.handle.calls) + [AuthenticateCall(FlagsToRaw(AUTHN_FLAGS, 0)), EndCall(EndStatus(ResultFrom(ret)))]
    ensures EndStatus(ResultFrom(ret)) != 0
  {
    var _ := p.Authenticate(0, ret);
    p.DropOnce();
    EndStatusRoundTrip(ResultFrom(ret));
  }
}
