/**
 * String items of a handle (`pam_get_item` / `pam_set_item`) and the two views that
 * expose them: a read view with six getters and a mutable view that adds eight setters.
 */
module Items {
  import opened Wrappers
  import opened Constants
  import opened Helper
  import opened Native

  /** `ItemType` (a `num_enum!`). */
  datatype ItemType = Service | User | Tty | RemoteHost | Conversation | AuthTok | OldAuthTok | RemoteUser | UserPrompt

  /** `From<ItemType> for c_int`: the `PAM_*` item numbers 1 to 9. */
  function ItemTypeValue(t: ItemType): (v: int)
    ensures PAM_SERVICE <= v <= PAM_USER_PROMPT
  {
    match t
    case Service => PAM_SERVICE
    case User => PAM_USER
    case Tty => PAM_TTY
    case RemoteHost => PAM_RHOST
    case Conversation => PAM_CONV
    case AuthTok => PAM_AUTHTOK
    case OldAuthTok => PAM_OLDAUTHTOK
    case RemoteUser => PAM_RUSER
    case UserPrompt => PAM_USER_PROMPT
  }

  /** `TryFrom<c_int> for ItemType`: exactly 1 to 9; anything else is `BAD_CONST`. */
  function ItemTypeFrom(v: int): (r: PamResult<ItemType>)
    ensures r.Ok? <==> PAM_SERVICE <= v <= PAM_USER_PROMPT
    ensures r.Ok? ==> ItemTypeValue(r.value) == v
    ensures r.Err? ==> r.error == BAD_CONST
  {
    if v == PAM_SERVICE then Ok(Service)
    else if v == PAM_USER then Ok(User)
    else if v == PAM_TTY then Ok(Tty)
    else if v == PAM_RHOST then Ok(RemoteHost)
    else if v == PAM_CONV then Ok(Conversation)
    else if v == PAM_AUTHTOK then Ok(AuthTok)
    else if v == PAM_OLDAUTHTOK then Ok(OldAuthTok)
    else if v == PAM_RUSER then Ok(RemoteUser)
    else if v == PAM_USER_PROMPT then Ok(UserPrompt)
    else Err(BAD_CONST)
  }

  /** Every item type survives the trip through its number. */
  lemma ItemTypeRoundTrip(t: ItemType)
    ensures ItemTypeFrom(ItemTypeValue(t)) == Ok(t)
  {
  }

  /** The pointer `pam_get_item` hands out for an item: its stored C string, or null. */
  function StoredItem(items: map<int, Bytes>, t: ItemType): Option<Bytes>
  {
    var v := ItemTypeValue(t);
    if v in items then Some(items[v]) else None
  }

  /** The store after a successful `pam_set_item`: a copy of the C string, or no item for null. */
  function ItemsAfterSet(items: map<int, Bytes>, t: ItemType, p: Option<Bytes>): map<int, Bytes>
  {
    match p
    case None => items - {ItemTypeValue(t)}
    case Some(c) => items[ItemTypeValue(t) := c]
  }

  /**
   * `get_cstr_item`: a nonzero native code becomes its error; on success a null item is
   * `Ok(None)` and a present one a copy of its C string.
   */
  method GetCStrItem(h: PamHandle, t: ItemType, ret: int) returns (r: PamResult<Option<Bytes>>)
    modifies h
    ensures h.calls == old(h.calls) + [GetItemCall(ItemTypeValue(t))]
    ensures h.env == old(h.env) && h.items == old(h.items)
    ensures r.Err? <==> ret != PAM_SUCCESS
    ensures r.Err? ==> r.error == ResultFrom(ret).error
    ensures r.Ok? ==> r.value == CopyPamString(StoredItem(h.items, t))
    ensures r.Ok? ==> (r.value.None? <==> ItemTypeValue(t) !in h.items)
  {
    h.calls := h.calls + [GetItemCall(ItemTypeValue(t))];
    var code := ResultFrom(ret);
    if code.Err? {
      return Err(code.error);
    }
    var output := StoredItem(h.items, t);
    r := Ok(CopyPamString(output));
  }

  /**
   * `set_cstr_item`: passes null for `None` and a nul-terminated copy for `Some`, and
   * returns `result_from` of the native code; Linux-PAM keeps the item only on success.
   * The source panics on text with a nul.
   */
  method SetCStrItem(h: PamHandle, t: ItemType, data: Option<Bytes>, ret: int) returns (r: PamResult<()>)
    requires data.Some? ==> !HasNul(data.value)
    modifies h
    ensures h.calls == old(h.calls) + [SetItemCall(ItemTypeValue(t), PromptPtr(OptionCStr(data)))]
    ensures h.env == old(h.env)
    ensures r == ResultFrom(ret)
    ensures r.Ok? ==> h.items == ItemsAfterSet(old(h.items), t, OptionCStr(data))
    ensures r.Err? ==> h.items == old(h.items)
  {
    var dataStr := OptionCStr(data);
    var p := PromptPtr(dataStr);
    h.calls := h.calls + [SetItemCall(ItemTypeValue(t), p)];
    r := ResultFrom(ret);
    if r.Ok? {
      h.items := ItemsAfterSet(h.items, t, p);
    }
  }

  /** Setting an item and reading it back gives the text that was set, or no item for `None`. */
  lemma SetThenGet(items: map<int, Bytes>, t: ItemType, data: Option<Bytes>)
    requires data.Some? ==> !HasNul(data.value)
    ensures CopyPamString(StoredItem(ItemsAfterSet(items, t, OptionCStr(data)), t)) == data
  {
  }

  /** Setting one item leaves every other item as it was. */
  lemma SetKeepsOthers(items: map<int, Bytes>, t: ItemType, u: ItemType, p: Option<Bytes>)
    requires t != u
    ensures StoredItem(ItemsAfterSet(items, t, p), u) == StoredItem(items, u)
  {
    ItemTypeRoundTrip(t);
    ItemTypeRoundTrip(u);
  }

  /** The items both `PamItems` and `PamItemsMut` have a getter for. */
  const READABLE_ITEMS: set<ItemType> := {User, Service, UserPrompt, Tty, RemoteUser, RemoteHost}

  /** The items only `PamItemsMut` has a setter for. */
  const SETTABLE_ITEMS: set<ItemType> := READABLE_ITEMS + {AuthTok, OldAuthTok}

  /** The authentication tokens can be set but never read through a view; the conversation is neither. */
  lemma ViewsHideSecrets()
    ensures AuthTok !in READABLE_ITEMS && OldAuthTok !in READABLE_ITEMS
    ensures AuthTok in SETTABLE_ITEMS && OldAuthTok in SETTABLE_ITEMS
    ensures Conversation !in SETTABLE_ITEMS && READABLE_ITEMS <= SETTABLE_ITEMS
  {
  }

  /** A getter of `PamItems` or `PamItemsMut` (`user`, `service`, `user_prompt`, `tty_name`, `remote_user`, `remote_host`). */
  method ViewGet(h: PamHandle, t: ItemType, ret: int) returns (r: PamResult<Option<Bytes>>)
    requires t in READABLE_ITEMS
    modifies h
    ensures h.calls == old(h.calls) + [GetItemCall(ItemTypeValue(t))]
    ensures h.env == old(h.env) && h.items == old(h.items)
    ensures r.Err? <==> ret != PAM_SUCCESS
    ensures r.Err? ==> r.error == ResultFrom(ret).error
    ensures r.Ok? ==> r.value == CopyPamString(StoredItem(h.items, t))
  {
    r := GetCStrItem(h, t, ret);
  }

  /** A setter of `PamItemsMut` (the six readable items plus `authtok` and `old_authtok`). */
  method ViewSet(h: PamHandle, t: ItemType, data: Option<Bytes>, ret: int) returns (r: PamResult<()>)
    requires t in SETTABLE_ITEMS
    requires data.Some? ==> !HasNul(data.value)
    modifies h
    ensures h.calls == old(h.calls) + [SetItemCall(ItemTypeValue(t), PromptPtr(OptionCStr(data)))]
    ensures r == ResultFrom(ret)
    ensures h.env == old(h.env)
    ensures r.Ok? ==> h.items == ItemsAfterSet(old(h.items), t, OptionCStr(data))
    ensures r.Err? ==> h.items == old(h.items)
  {
    r := SetCStrItem(h, t, data, ret);
  }
}
