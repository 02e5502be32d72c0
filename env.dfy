/**
 * The PAM environment of a handle: reading and writing single variables, the
 * `NAME=value` form variables travel in, and the iterator over the list
 * `pam_getenvlist` returns.
 */
module Environ {
  import opened Wrappers
  import opened Constants
  import opened Helper
  import opened Native

  /** The byte `=`. */
  const EQ: u8 := 0x3D

  /** The index of the first `=` in `s`, or `|s|` when there is none. */
  function FirstEq(s: Bytes): (n: nat)
    ensures n <= |s|
    ensures forall i :: 0 <= i < n ==> s[i] != EQ
    ensures n < |s| ==> s[n] == EQ
  {
    if s == [] || s[0] == EQ then 0 else 1 + FirstEq(s[1..])
  }

  /**
   * `EnvVar::as_kv`: splits at the first `=` only; without one, the whole text is the
   * key and the value is empty.
   */
  function AsKv(s: Bytes): (kv: (Bytes, Bytes))
    ensures EQ !in kv.0
    ensures EQ in s ==> s == kv.0 + [EQ] + kv.1
    ensures EQ !in s ==> kv == (s, [])
  {
    var n := FirstEq(s);
    if n == |s| then (s, []) else (s[..n], s[n + 1..])
  }

  /** A key without `=` joined to a value by `=` splits back into that key and value. */
  lemma AsKvRoundTrip(key: Bytes, value: Bytes)
    requires EQ !in key
    ensures AsKv(key + [EQ] + value) == (key, value)
  {
    var s := key + [EQ] + value;
    assert s[|key|] == EQ;
    assert forall i :: 0 <= i < |key| ==> s[i] == key[i];
    assert s[..|key|] == key && s[|key| + 1..] == value;
  }

  /** `pam_putenv`: `NAME=value` sets `NAME` (the text before the first `=`); a bare `NAME` deletes it. */
  function PutenvEffect(env: map<Bytes, Bytes>, nameValue: Bytes): (r: map<Bytes, Bytes>)
    ensures EQ in nameValue ==> r == env[AsKv(nameValue).0 := AsKv(nameValue).1]
    ensures EQ !in nameValue ==> r == env - {nameValue}
  {
    var kv := AsKv(nameValue);
    if EQ in nameValue then env[kv.0 := kv.1] else env - {kv.0}
  }

  /**
   * What `environ_get` returns for `key` on an environment: nothing for a key with a
   * nul or an unset variable, else a copy of the variable's C string.
   */
  function EnvLookup(env: map<Bytes, Bytes>, key: Bytes): (r: Option<Bytes>)
    ensures HasNul(key) ==> r.None?
    ensures r.Some? <==> !HasNul(key) && key in env
    ensures r.Some? ==> r.value == CStr(env[key]) && (!HasNul(env[key]) ==> r.value == env[key])
  {
    if HasNul(key) || key !in env then None else Some(CStr(env[key]))
  }

  /**
   * `environ_get`: a key containing a nul gives `None` without calling Linux-PAM;
   * otherwise `pam_getenv` is asked and its value (null: `None`) copied.
   */
  method EnvGet(h: PamHandle, key: Bytes) returns (r: Option<Bytes>)
    modifies h
    ensures r == EnvLookup(h.env, key)
    ensures h.env == old(h.env) && h.items == old(h.items)
    ensures HasNul(key) ==> h.calls == old(h.calls)
    ensures !HasNul(key) ==> h.calls == old(h.calls) + [GetenvCall(key + [0])]
  {
    if HasNul(key) {
      return None;
    }
    h.calls := h.calls + [GetenvCall(key + [0])];
    if key in h.env {
      r := Some(CStr(h.env[key]));
    } else {
      r := None;
    }
  }

  /** The text `environ_set` sends to `pam_putenv`: `key=value` to set, `key` alone to remove. */
  function PutenvText(key: Bytes, value: Option<Bytes>): (s: Bytes)
    ensures value.None? ==> s == key
    ensures value.Some? ==> s == key + [EQ] + value.value
  {
    match value
    case None => key
    case Some(v) => key + [EQ] + v
  }

  /**
   * `environ_set` (`insert` with a value, `remove` without): returns what `get` gave
   * before; removing an absent variable makes no `pam_putenv` call. `putRet` is what
   * `pam_putenv` returns: the wrapper ignores it, and Linux-PAM changes the environment
   * only when it is `PAM_SUCCESS`. The source panics when a value is set and the key or
   * the value contains a nul.
   */
  method EnvSet(h: PamHandle, key: Bytes, value: Option<Bytes>, putRet: int) returns (previous: Option<Bytes>)
    requires value.Some? ==> !HasNul(key) && !HasNul(value.value)
    modifies h
    ensures previous == EnvLookup(old(h.env), key)
    ensures h.items == old(h.items)
    ensures previous.None? && value.None? ==>
      h.env == old(h.env) &&
      h.calls == old(h.calls) + (if HasNul(key) then [] else [GetenvCall(key + [0])])
    ensures !(previous.None? && value.None?) ==>
      h.calls == old(h.calls) + [GetenvCall(key + [0]), PutenvCall(PutenvText(key, value) + [0])]
    ensures !(previous.None? && value.None?) && putRet == PAM_SUCCESS ==>
      h.env == PutenvEffect(old(h.env), PutenvText(key, value))
    ensures !(previous.None? && value.None?) && putRet != PAM_SUCCESS ==>
      h.env == old(h.env)
  {
    previous := EnvGet(h, key);
    if previous.None? && value.None? {
      return;
    }
    var put := PutenvText(key, value);
    h.calls := h.calls + [PutenvCall(put + [0])];
    if putRet == PAM_SUCCESS {
      h.env := PutenvEffect(h.env, put);
    }
  }

  /** After inserting, reading the key gives the inserted value (for a key without `=` or nul). */
  lemma GetAfterInsert(env: map<Bytes, Bytes>, key: Bytes, value: Bytes)
    requires EQ !in key && !HasNul(key) && !HasNul(value)
    ensures EnvLookup(PutenvEffect(env, PutenvText(key, Some(value))), key) == Some(value)
  {
    AsKvRoundTrip(key, value);
    assert EQ in key + [EQ] + value by {
      assert (key + [EQ] + value)[|key|] == EQ;
    }
  }

  /** After removing, the key is gone, whatever it held before. */
  lemma GetAfterRemove(env: map<Bytes, Bytes>, key: Bytes)
    requires EQ !in key
    ensures EnvLookup(PutenvEffect(env, PutenvText(key, None)), key) == None
  {
  }

  // ---------------------------------------------------------------------------
  // Iterating over `pam_getenvlist`.

  /** The index of the first null entry at or after `from` (the length when there is none). */
  function EndOfList(entries: seq<Option<Bytes>>, from: nat): (n: nat)
    requires from <= |entries|
    decreases |entries| - from
    ensures from <= n <= |entries|
    ensures forall k :: from <= k < n ==> entries[k].Some?
    ensures n < |entries| ==> entries[n].None?
  {
    if from == |entries| || entries[from].None? then from else EndOfList(entries, from + 1)
  }

  /** A list that a null entry terminates. */
  predicate Terminated(entries: seq<Option<Bytes>>)
  {
    exists k :: 0 <= k < |entries| && entries[k].None?
  }

  /** The pairs the entries from `from` up to the first null give. */
  function PairsFrom(entries: seq<Option<Bytes>>, from: nat): (pairs: seq<(Bytes, Bytes)>)
    requires from <= |entries|
    decreases |entries| - from
    ensures |pairs| == EndOfList(entries, from) - from
    ensures pairs != [] ==> pairs[0] == AsKv(CStr(entries[from].value)) && pairs[1..] == PairsFrom(entries, from + 1)
  {
    if from == |entries| || entries[from].None? then []
    else [AsKv(CStr(entries[from].value))] + PairsFrom(entries, from + 1)
  }

  /** `EnvList`: a cursor over a null-terminated list; `released` lists the entries freed so far, in order. */
  class EnvList {
    var entries: seq<Option<Bytes>>
    var current: nat
    var released: seq<nat>
    var freed: bool

    /** The cursor stands on an entry of the list, every entry before it has been released once, in order. */
    predicate Valid()
      reads this
    {
      Terminated(entries) && current <= EndOfList(entries, 0) &&
      released == seq(current, k => k)
    }

    /** The pairs still to come. */
    function Remaining(): seq<(Bytes, Bytes)>
      reads this
      requires Valid()
    {
      PairsFrom(entries, current)
    }

    /** `EnvList::from_ptr`, or `EnvList::empty` (a list holding only the null) for `None`. */
    constructor (list: Option<seq<Option<Bytes>>>)
      requires list.Some? ==> Terminated(list.value)
      ensures Valid() && !freed && current == 0
      ensures entries == if list.Some? then list.value else [None]
    {
      entries := if list.Some? then list.value else [None];
      current := 0;
      released := [];
      freed := false;
      new;
      assert entries[|entries| - 1].None? || Terminated(entries);
    }

    /** `next`: the next pair, releasing its entry; `None` at the null. */
    method Next() returns (r: Option<(Bytes, Bytes)>)
      requires Valid() && !freed
      modifies this
      ensures Valid() && !freed && entries == old(entries)
      ensures old(Remaining()) == [] <==> r.None?
      ensures r.Some? ==> r.value == old(Remaining())[0] && Remaining() == old(Remaining())[1..]
      ensures r.None? ==> current == old(current) && released == old(released)
    {
      assert current < |entries| by {
        var k :| 0 <= k < |entries| && entries[k].None?;
        assert current <= k;
      }
      match entries[current]
      case None =>
        r := None;
      case Some(item) =>
        r := Some(AsKv(CStr(item)));
        released := released + [current];
        current := current + 1;
    }

    /** `Drop for EnvList`: releases every entry not yet yielded, in order, then the list storage. */
    method Drop()
      requires Valid() && !freed
      modifies this
      ensures freed && entries == old(entries)
      ensures released == seq(EndOfList(entries, 0), k => k)
    {
      while entries[current].Some?
        invariant Valid() && entries == old(entries) && current < |entries|
        decreases |entries| - current
      {
        released := released + [current];
        current := current + 1;
        assert current < |entries| by {
          var k :| 0 <= k < |entries| && entries[k].None?;
          assert current <= k;
        }
      }
      freed := true;
    }
  }

  /** `environ_iter`: an iterator over `pam_getenvlist`'s list, or an empty one for a null list. */
  method EnvIter(h: PamHandle, list: Option<seq<Option<Bytes>>>) returns (it: EnvList)
    requires list.Some? ==> Terminated(list.value)
    modifies h
    ensures fresh(it) && it.Valid() && !it.freed
    ensures list.None? ==> it.Remaining() == []
    ensures list.Some? ==> it.Remaining() == PairsFrom(list.value, 0)
    ensures h.calls == old(h.calls) + [GetenvlistCall] && h.env == old(h.env) && h.items == old(h.items)
  {
    h.calls := h.calls + [GetenvlistCall];
    it := new EnvList(list);
  }
}
