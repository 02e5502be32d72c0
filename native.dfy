/**
 * The Linux-PAM side of a transaction, as far as the wrapper can observe it: a
 * handle that records every call the wrapper makes on it, together with the
 * handle's environment and its string items.
 *
 * Return codes and pointers Linux-PAM hands back are parameters of the wrapper's
 * methods; the environment and the items follow Linux-PAM's documented rules
 * (`pam_putenv`: `NAME=value` sets, a bare `NAME` deletes; `pam_set_item` stores
 * a copy on success).
 */
module Native {
  import opened Wrappers
  import opened Helper

  /** One call into Linux-PAM on a handle, with the arguments that matter. */
  datatype NativeCall =
    | AuthenticateCall(flags: bv32)
    | AcctMgmtCall(flags: bv32)
    | ChauthtokCall(flags: bv32)
    | OpenSessionCall(flags: bv32)
    | CloseSessionCall(flags: bv32)
    | SetcredCall(flags: bv32)
    | EndCall(status: bv32)
    | GetUserCall(prompt: Option<Bytes>)
    | GetItemCall(itemType: int)
    | SetItemCall(itemType: int, item: Option<Bytes>)
    | GetenvCall(name: Bytes)
    | PutenvCall(nameValue: Bytes)
    | GetenvlistCall

  /** `pam_handle`: the calls made on it so far, its environment and its string items (as C strings). */
  class PamHandle {
    var calls: seq<NativeCall>
    var env: map<Bytes, Bytes>
    var items: map<int, Bytes>

    constructor (env0: map<Bytes, Bytes>, items0: map<int, Bytes>)
      ensures calls == [] && env == env0 && items == items0
    {
      calls := [];
      env := env0;
      items := items0;
    }
  }
}
