/**
 * Byte-level helpers of the wrapper: nul-terminated C strings on the C heap
 * (`CHeapString`), their secure zeroing, copying a string Linux-PAM returns,
 * optional prompts, and the length-prefixed binary payload.
 *
 * Memory behind a pointer is a sequence of bytes (or an `array` where the
 * source writes it in place); a null pointer is `None`.
 */
module Helper {
  import opened Wrappers

  newtype u8 = x: int | 0 <= x < 0x100

  type Bytes = seq<u8>

  const U32_MAX: int := 0xFFFF_FFFF

  /** `s` contains a 0 byte. */
  predicate HasNul(s: Bytes)
  {
    exists i :: 0 <= i < |s| && s[i] == 0
  }

  /** `strlen`: the number of bytes before the first nul (all of `s` if it has none). */
  function CStrLen(s: Bytes): (n: nat)
    ensures n <= |s|
    ensures forall i :: 0 <= i < n ==> s[i] != 0
    ensures n < |s| ==> s[n] == 0
  {
    if s == [] || s[0] == 0 then 0 else 1 + CStrLen(s[1..])
  }

  /** `CStr::from_ptr(p).to_bytes()`: the bytes of a C string, without its terminator. */
  function CStr(s: Bytes): (r: Bytes)
    ensures !HasNul(r)
    ensures r <= s
    ensures |r| < |s| ==> s[|r|] == 0
    ensures !HasNul(s) ==> r == s
  {
    s[..CStrLen(s)]
  }

  /** A text without nul, terminated and followed by anything, reads back as that text. */
  lemma CStrOfTerminated(text: Bytes, rest: Bytes)
    requires !HasNul(text)
    ensures CStr(text + [0] + rest) == text
  {
    var s := text + [0] + rest;
    assert s[|text|] == 0;
    assert forall i :: 0 <= i < |text| ==> s[i] == text[i];
    assert s[..|text|] == text;
  }

  // ---------------------------------------------------------------------------
  // `CHeapString`

  /**
   * `CHeapString::new`: a zeroed allocation of `|text| + 1` bytes with `text` copied
   * to its front. The source panics when `text` contains a nul.
   */
  method NewCHeapString(text: Bytes) returns (a: array<u8>)
    requires !HasNul(text)
    ensures fresh(a)
    ensures a[..] == text + [0]
    ensures CStr(a[..]) == text
  {
    a := new u8[|text| + 1](_ => 0);
    var i := 0;
    while i < |text|
      invariant 0 <= i <= |text|
      invariant a[..i] == text[..i]
      invariant forall k :: i <= k < a.Length ==> a[k] == 0
    {
      a[i] := text[i];
      i := i + 1;
    }
    assert a[..] == text + [0];
    CStrOfTerminated(text, []);
    assert text + [0] + [] == text + [0];
  }

  /**
   * `CHeapString::zero`: overwrites every byte before the first nul with 0 and leaves
   * the rest as it was; afterwards the string reads as empty.
   */
  method Zero(a: array<u8>)
    modifies a
    ensures forall i :: 0 <= i < CStrLen(old(a[..])) ==> a[i] == 0
    ensures forall i :: CStrLen(old(a[..])) <= i < a.Length ==> a[i] == old(a[i])
    ensures CStr(a[..]) == []
  {
    var len := CStrLen(a[..]);
    ghost var before := a[..];
    for x := 0 to len
      invariant forall i :: 0 <= i < x ==> a[i] == 0
      invariant forall i :: x <= i < a.Length ==> a[i] == before[i]
    {
      a[x] := 0;
    }
    assert a.Length == 0 || a[0] == 0;
  }

  // ---------------------------------------------------------------------------
  // Strings passed to and received from Linux-PAM.

  /** `copy_pam_string`: null stays absent; otherwise the bytes up to (excluding) the first nul. */
  function CopyPamString(p: Option<Bytes>): (r: Option<Bytes>)
    ensures r.Some? <==> p.Some?
    ensures r.Some? ==> !HasNul(r.value) && r.value <= p.value
    ensures r.Some? && |r.value| < |p.value| ==> p.value[|r.value|] == 0
  {
    match p
    case None => None
    case Some(s) => Some(CStr(s))
  }

  /**
   * `option_cstr`: an absent prompt stays absent; a present one becomes a C string.
   * The source panics when the bytes contain a nul.
   */
  function OptionCStr(prompt: Option<Bytes>): (r: Option<Bytes>)
    requires prompt.Some? ==> !HasNul(prompt.value)
    ensures r.Some? <==> prompt.Some?
    ensures r.Some? ==> |r.value| == |prompt.value| + 1 && r.value[|prompt.value|] == 0
    ensures r.Some? ==> CStr(r.value) == prompt.value
  {
    match prompt
    case None => None
    case Some(p) =>
      CStrOfTerminated(p, []);
      assert p + [0] + [] == p + [0];
      Some(p + [0])
  }

  /** `prompt_ptr`: the pointer to a C string, or null for none. */
  function PromptPtr(prompt: Option<Bytes>): (r: Option<Bytes>)
    ensures r.None? <==> prompt.None?
    ensures r.Some? ==> r.value == prompt.value
  {
    match prompt
    case None => None
    case Some(c) => Some(c)
  }

  /** A prompt sent through `option_cstr` and `prompt_ptr` is read back unchanged by `copy_pam_string`. */
  lemma PromptRoundTrip(prompt: Option<Bytes>)
    requires prompt.Some? ==> !HasNul(prompt.value)
    ensures CopyPamString(PromptPtr(OptionCStr(prompt))) == prompt
  {
  }

  // ---------------------------------------------------------------------------
  // Binary payloads: a 4-byte big-endian total length, a type byte, then the data.

  /** `BinaryPayload::MAX_SIZE`: the largest data length whose payload length fits a `u32`. */
  const MAX_SIZE: int := U32_MAX - 5

  /** `TooBigError`: the data length that did not fit and the limit it exceeded. */
  datatype TooBigError = TooBigError(size: nat, max: int)

  /** `u32::to_be_bytes`. */
  function BigEndian32(n: nat): (r: Bytes)
    requires n <= U32_MAX
    ensures |r| == 4
  {
    [(n / 0x100_0000) as u8, (n / 0x1_0000 % 0x100) as u8, (n / 0x100 % 0x100) as u8, (n % 0x100) as u8]
  }

  /** `u32::from_be_bytes`. */
  function FromBigEndian32(b: Bytes): (n: nat)
    requires |b| == 4
    ensures n <= U32_MAX
  {
    ((b[0] as int * 0x100 + b[1] as int) * 0x100 + b[2] as int) * 0x100 + b[3] as int
  }

  lemma BigEndianRoundTrip(n: nat)
    requires n <= U32_MAX
    ensures FromBigEndian32(BigEndian32(n)) == n
  {
    var b := BigEndian32(n);
    assert b[0] as int * 0x100 + b[1] as int == n / 0x1_0000;
    assert (n / 0x1_0000) * 0x100 + b[2] as int == n / 0x100;
    assert (n / 0x100) * 0x100 + b[3] as int == n;
  }

  /** The payload of `data` with type byte `dataType`. */
  function Payload(data: Bytes, dataType: u8): (r: Bytes)
    requires |data| <= MAX_SIZE
    ensures |r| == |data| + 5
  {
    BigEndian32(|data| + 5) + [dataType] + data
  }

  /** Reading a payload back: the header must state the buffer's own length. */
  function DecodePayload(buf: Bytes): (r: Option<(Bytes, u8)>)
    ensures r.Some? ==> |buf| == |r.value.0| + 5
  {
    if |buf| >= 5 && FromBigEndian32(buf[..4]) == |buf| then Some((buf[5..], buf[4])) else None
  }

  /** A payload decodes to the data and type it was made from. */
  lemma PayloadRoundTrip(data: Bytes, dataType: u8)
    requires |data| <= MAX_SIZE
    ensures DecodePayload(Payload(data, dataType)) == Some((data, dataType))
  {
    var buf := Payload(data, dataType);
    assert buf[..4] == BigEndian32(|data| + 5);
    BigEndianRoundTrip(|data| + 5);
    assert buf[5..] == data;
  }

  /** `Buffer::allocate` for `Vec<u8>`: `n` zero bytes. */
  method Allocate(n: nat) returns (a: array<u8>)
    ensures fresh(a)
    ensures a.Length == n
    ensures forall i :: 0 <= i < n ==> a[i] == 0
  {
    a := new u8[n](_ => 0);
  }

  /**
   * `BinaryPayload::fill`: writes the header (the buffer's length cut to 32 bits,
   * big-endian, then the type byte) and copies `data` after it. The source panics
   * unless the buffer is exactly five bytes longer than `data`.
   */
  method Fill(buf: array<u8>, data: Bytes, dataType: u8)
    requires buf.Length == |data| + 5
    modifies buf
    ensures buf[..] == BigEndian32(buf.Length % 0x1_0000_0000) + [dataType] + data
  {
    var header := BigEndian32(buf.Length % 0x1_0000_0000);
    buf[0], buf[1], buf[2], buf[3] := header[0], header[1], header[2], header[3];
    buf[4] := dataType;
    var i := 0;
    while i < |data|
      invariant 0 <= i <= |data|
      invariant buf[..4] == header && buf[4] == dataType
      invariant buf[5..5 + i] == data[..i]
    {
      buf[5 + i] := data[i];
      i := i + 1;
    }
    assert buf[..] == buf[..4] + [buf[4]] + buf[5..];
  }

  /**
   * `OwnedBinaryPayload::new`: fails with `TooBigError` exactly when the payload
   * length would not fit in a `u32`; otherwise the filled payload.
   */
  method NewPayload(data: Bytes, dataType: u8) returns (r: Result<Bytes, TooBigError>)
    ensures r.Err? <==> |data| + 5 > U32_MAX
    ensures r.Err? ==> r.error == TooBigError(|data|, MAX_SIZE)
    ensures r.Ok? ==> |data| <= MAX_SIZE && r.value == Payload(data, dataType)
  {
    if |data| + 5 > U32_MAX {
      return Err(TooBigError(|data|, MAX_SIZE));
    }
    var totalLen := |data| + 5;
    var buf := Allocate(totalLen);
    Fill(buf, data, dataType);
    return Ok(buf[..]);
  }
}
