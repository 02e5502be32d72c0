/**
 * Translation between Linux-PAM's native integers and the wrapper's typed values:
 * the `c_enum!` numbering, the error-code enumeration and its fallback, the bit-set
 * flag types (`pam_flags!`), the closed action enumerations (`flag_enum!`) and the
 * `pam_modutil_redirect_fd` conversion.
 */
module Constants {
  import opened Wrappers

  // ---------------------------------------------------------------------------
  // `c_enum!`: each name is one more than the previous, starting at the first value.

  /** The values `c_enum!` gives to `count` consecutive names starting at `first`. */
  function CEnum(first: int, count: nat): (r: seq<int>)
    decreases count
    ensures |r| == count
    ensures forall i :: 0 <= i < count ==> r[i] == first + i
  {
    if count == 0 then [] else [first] + CEnum(first + 1, count - 1)
  }

  // Item types.
  const PAM_SERVICE: int := 1
  const PAM_USER: int := 2
  const PAM_TTY: int := 3
  const PAM_RHOST: int := 4
  const PAM_CONV: int := 5
  const PAM_AUTHTOK: int := 6
  const PAM_OLDAUTHTOK: int := 7
  const PAM_RUSER: int := 8
  const PAM_USER_PROMPT: int := 9

  // Message styles.
  const PAM_PROMPT_ECHO_OFF: int := 1
  const PAM_PROMPT_ECHO_ON: int := 2
  const PAM_ERROR_MSG: int := 3
  const PAM_TEXT_INFO: int := 4
  const PAM_RADIO_TYPE: int := 5
  const PAM_BINARY_PROMPT: int := 7

  // Extended item types.
  const PAM_FAIL_DELAY: int := 10
  const PAM_XDISPLAY: int := 11
  const PAM_XAUTHDATA: int := 12
  const PAM_AUTHTOK_TYPE: int := 13

  // Return values (PAM_SUCCESS is 0).
  const PAM_SUCCESS: int := 0
  const PAM_OPEN_ERR: int := 1
  const PAM_SYMBOL_ERR: int := 2
  const PAM_SERVICE_ERR: int := 3
  const PAM_SYSTEM_ERR: int := 4
  const PAM_BUF_ERR: int := 5
  const PAM_PERM_DENIED: int := 6
  const PAM_AUTH_ERR: int := 7
  const PAM_CRED_INSUFFICIENT: int := 8
  const PAM_AUTHINFO_UNAVAIL: int := 9
  const PAM_USER_UNKNOWN: int := 10
  const PAM_MAXTRIES: int := 11
  const PAM_NEW_AUTHTOK_REQD: int := 12
  const PAM_ACCT_EXPIRED: int := 13
  const PAM_SESSION_ERR: int := 14
  const PAM_CRED_UNAVAIL: int := 15
  const PAM_CRED_EXPIRED: int := 16
  const PAM_CRED_ERR: int := 17
  const PAM_NO_MODULE_DATA: int := 18
  const PAM_CONV_ERR: int := 19
  const PAM_AUTHTOK_ERR: int := 20
  const PAM_AUTHTOK_RECOVERY_ERR: int := 21
  const PAM_AUTHTOK_LOCK_BUSY: int := 22
  const PAM_AUTHTOK_DISABLE_AGING: int := 23
  const PAM_TRY_AGAIN: int := 24
  const PAM_IGNORE: int := 25
  const PAM_ABORT: int := 26
  const PAM_AUTHTOK_EXPIRED: int := 27
  const PAM_MODULE_UNKNOWN: int := 28
  const PAM_BAD_ITEM: int := 29
  const PAM_CONV_AGAIN: int := 30
  const PAM_INCOMPLETE: int := 31
  const PAM_RETURN_VALUES_END: int := 32

  // Flag bits, as `c_int` bit patterns.
  const PAM_DISALLOW_NULL_AUTHTOK: bv32 := 0x1
  const PAM_SILENT: bv32 := 0x8000
  const PAM_ESTABLISH_CRED: bv32 := 0x0002
  const PAM_DELETE_CRED: bv32 := 0x0004
  const PAM_REINITIALIZE_CRED: bv32 := 0x0008
  const PAM_REFRESH_CRED: bv32 := 0x0010
  const PAM_CHANGE_EXPIRED_AUTHTOK: bv32 := 0x0020
  const PAM_PRELIM_CHECK: bv32 := 0x4000
  const PAM_UPDATE_AUTHTOK: bv32 := 0x2000
  const PAM_DATA_REPLACE: bv32 := 0x2000_0000
  const PAM_DATA_SILENT: bv32 := 0x4000_0000



  /** The item types follow the `c_enum!` numbering from 1. */
  lemma ItemNumbering()
    ensures [PAM_SERVICE, PAM_USER, PAM_TTY, PAM_RHOST, PAM_CONV, PAM_AUTHTOK, PAM_OLDAUTHTOK,
             PAM_RUSER, PAM_USER_PROMPT] == CEnum(1, 9)
  {
  }

  /** The four message styles follow the `c_enum!` numbering from 1. */
  lemma StyleNumbering()
    ensures [PAM_PROMPT_ECHO_OFF, PAM_PROMPT_ECHO_ON, PAM_ERROR_MSG, PAM_TEXT_INFO] == CEnum(1, 4)
  {
  }

  /** The extra item types follow the `c_enum!` numbering from 10. */
  lemma FailDelayNumbering()
    ensures [PAM_FAIL_DELAY, PAM_XDISPLAY, PAM_XAUTHDATA, PAM_AUTHTOK_TYPE] == CEnum(10, 4)
  {
  }

  /** The return codes follow the `c_enum!` numbering from 1, ending at the table's end marker. */
  lemma ReturnCodeNumbering()
    ensures RETURN_CODES == CEnum(PAM_OPEN_ERR, PAM_RETURN_VALUES_END - 1)
  {
    var r := CEnum(PAM_OPEN_ERR, PAM_RETURN_VALUES_END - 1);
    forall i | 0 <= i < |r|
      ensures RETURN_CODES[i] == r[i]
    {
    }
  }

  /** The native return codes in table order, `PAM_OPEN_ERR` to `PAM_INCOMPLETE`. */
  const RETURN_CODES: seq<int> :=
    [PAM_OPEN_ERR, PAM_SYMBOL_ERR, PAM_SERVICE_ERR, PAM_SYSTEM_ERR, PAM_BUF_ERR,
     PAM_PERM_DENIED, PAM_AUTH_ERR, PAM_CRED_INSUFFICIENT, PAM_AUTHINFO_UNAVAIL,
     PAM_USER_UNKNOWN, PAM_MAXTRIES, PAM_NEW_AUTHTOK_REQD, PAM_ACCT_EXPIRED,
     PAM_SESSION_ERR, PAM_CRED_UNAVAIL, PAM_CRED_EXPIRED, PAM_CRED_ERR,
     PAM_NO_MODULE_DATA, PAM_CONV_ERR, PAM_AUTHTOK_ERR, PAM_AUTHTOK_RECOVERY_ERR,
     PAM_AUTHTOK_LOCK_BUSY, PAM_AUTHTOK_DISABLE_AGING, PAM_TRY_AGAIN, PAM_IGNORE,
     PAM_ABORT, PAM_AUTHTOK_EXPIRED, PAM_MODULE_UNKNOWN, PAM_BAD_ITEM, PAM_CONV_AGAIN,
     PAM_INCOMPLETE]

  // ---------------------------------------------------------------------------
  // `pam_modutil_redirect_fd`

  datatype RedirectFd = IgnoreFd | PipeFd | NullFd

  /** `From<pam_modutil_redirect_fd> for i32`: the enum's discriminant. */
  function RedirectFdValue(fd: RedirectFd): (v: int)
    ensures 0 <= v <= 2
  {
    match fd
    case IgnoreFd => 0
    case PipeFd => 1
    case NullFd => 2
  }

  /** `TryFrom<i32>`: 0..=2 become the variant with that discriminant; anything else is returned. */
  function RedirectFdFrom(value: int): (r: Result<RedirectFd, int>)
    ensures r.Ok? <==> 0 <= value <= 2
    ensures r.Ok? ==> RedirectFdValue(r.value) == value
    ensures r.Err? ==> r.error == value
  {
    if value == 0 then Ok(IgnoreFd)
    else if value == 1 then Ok(PipeFd)
    else if value == 2 then Ok(NullFd)
    else Err(value)
  }

  // ---------------------------------------------------------------------------
  // `ErrorCode`, generated by `linky_enum!` over the return-value table.

  datatype ErrorCode =
    | OpenError | SymbolError | ServiceError | SystemError | BufferError
    | PermissionDenied | AuthenticationError | CredentialsInsufficient
    | AuthInfoUnavailable | UserUnknown | MaxTries | NewAuthTokRequired
    | AccountExpired | SessionError | CredentialsUnavailable | CredentialsExpired
    | CredentialsError | NoModuleData | ConversationError | AuthTokError
    | AuthTokRecoveryError | AuthTokLockBusy | AuthTokDisableAging | TryAgain
    | Ignore | Abort | AuthTokExpired

  type PamResult<T> = Result<T, ErrorCode>

  /** `ErrorCode::BAD_CONST`, the kind every unrecognised native value translates to. */
  const BAD_CONST: ErrorCode := SystemError


  /** `From<ErrorCode> for ReturnCode`: the native value of each kind. */
  function ReturnCodeOf(e: ErrorCode): (code: int)
    ensures PAM_OPEN_ERR <= code <= PAM_AUTHTOK_EXPIRED
  {
    match e
    case OpenError => PAM_OPEN_ERR
    case SymbolError => PAM_SYMBOL_ERR
    case ServiceError => PAM_SERVICE_ERR
    case SystemError => PAM_SYSTEM_ERR
    case BufferError => PAM_BUF_ERR
    case PermissionDenied => PAM_PERM_DENIED
    case AuthenticationError => PAM_AUTH_ERR
    case CredentialsInsufficient => PAM_CRED_INSUFFICIENT
    case AuthInfoUnavailable => PAM_AUTHINFO_UNAVAIL
    case UserUnknown => PAM_USER_UNKNOWN
    case MaxTries => PAM_MAXTRIES
    case NewAuthTokRequired => PAM_NEW_AUTHTOK_REQD
    case AccountExpired => PAM_ACCT_EXPIRED
    case SessionError => PAM_SESSION_ERR
    case CredentialsUnavailable => PAM_CRED_UNAVAIL
    case CredentialsExpired => PAM_CRED_EXPIRED
    case CredentialsError => PAM_CRED_ERR
    case NoModuleData => PAM_NO_MODULE_DATA
    case ConversationError => PAM_CONV_ERR
    case AuthTokError => PAM_AUTHTOK_ERR
    case AuthTokRecoveryError => PAM_AUTHTOK_RECOVERY_ERR
    case AuthTokLockBusy => PAM_AUTHTOK_LOCK_BUSY
    case AuthTokDisableAging => PAM_AUTHTOK_DISABLE_AGING
    case TryAgain => PAM_TRY_AGAIN
    case Ignore => PAM_IGNORE
    case Abort => PAM_ABORT
    case AuthTokExpired => PAM_AUTHTOK_EXPIRED
  }

  /**
   * `TryFrom<ReturnCode> for ErrorCode`: the kind whose native value is `code`,
   * or `BAD_CONST` for any value outside the table.
   */
  function ErrorCodeFrom(code: int): (r: PamResult<ErrorCode>)
    ensures r.Ok? <==> PAM_OPEN_ERR <= code <= PAM_AUTHTOK_EXPIRED
    ensures r.Ok? ==> ReturnCodeOf(r.value) == code
    ensures r.Err? ==> r.error == BAD_CONST
  {
    match code
    case 1 => Ok(OpenError)
    case 2 => Ok(SymbolError)
    case 3 => Ok(ServiceError)
    case 4 => Ok(SystemError)
    case 5 => Ok(BufferError)
    case 6 => Ok(PermissionDenied)
    case 7 => Ok(AuthenticationError)
    case 8 => Ok(CredentialsInsufficient)
    case 9 => Ok(AuthInfoUnavailable)
    case 10 => Ok(UserUnknown)
    case 11 => Ok(MaxTries)
    case 12 => Ok(NewAuthTokRequired)
    case 13 => Ok(AccountExpired)
    case 14 => Ok(SessionError)
    case 15 => Ok(CredentialsUnavailable)
    case 16 => Ok(CredentialsExpired)
    case 17 => Ok(CredentialsError)
    case 18 => Ok(NoModuleData)
    case 19 => Ok(ConversationError)
    case 20 => Ok(AuthTokError)
    case 21 => Ok(AuthTokRecoveryError)
    case 22 => Ok(AuthTokLockBusy)
    case 23 => Ok(AuthTokDisableAging)
    case 24 => Ok(TryAgain)
    case 25 => Ok(Ignore)
    case 26 => Ok(Abort)
    case 27 => Ok(AuthTokExpired)
    case _ => Err(BAD_CONST)
  }


  /** Every kind converts to a nonzero native value and back to itself. */
  lemma ErrorCodeRoundTrip(e: ErrorCode)
    ensures ReturnCodeOf(e) != PAM_SUCCESS
    ensures ErrorCodeFrom(ReturnCodeOf(e)) == Ok(e)
  {
  }

  /** `ErrorCode::result_from`: 0 is success, anything else the matching kind or `BAD_CONST`. */
  function ResultFrom(ret: int): (r: PamResult<()>)
    ensures r.Ok? <==> ret == PAM_SUCCESS
    ensures r.Err? && PAM_OPEN_ERR <= ret <= PAM_AUTHTOK_EXPIRED ==> ReturnCodeOf(r.error) == ret
    ensures r.Err? && !(PAM_OPEN_ERR <= ret <= PAM_AUTHTOK_EXPIRED) ==> r.error == SystemError
  {
    if ret == 0 then Ok(())
    else
      match ErrorCodeFrom(ret)
      case Ok(e) => Err(e)
      case Err(_) => Err(BAD_CONST)
  }

  /** `From<Result<T>> for ReturnCode`: success is 0, an error its kind's (nonzero) native value. */
  function ReturnCodeOfResult<T>(r: PamResult<T>): (code: int)
    ensures PAM_SUCCESS <= code <= PAM_AUTHTOK_EXPIRED
    ensures r.Ok? <==> code == PAM_SUCCESS
    ensures r.Err? ==> ErrorCodeFrom(code) == Ok(r.error)
  {
    match r
    case Ok(_) => PAM_SUCCESS
    case Err(e) => ReturnCodeOf(e)
  }

  /** Translating an outcome to its native code and back loses nothing. */
  lemma ResultRoundTrip(r: PamResult<()>)
    ensures ResultFrom(ReturnCodeOfResult(r)) == r
  {
    match r
    case Ok(u) => assert u == ();
    case Err(e) => ErrorCodeRoundTrip(e);
  }
}
