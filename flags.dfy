/**
 * The bit-set flag types of the wrapper (`pam_flags!`): a flag set is the `bitflags`
 * value (`u16`); each named flag has its own bit there and its own native bit in the
 * `c_int` raw value that crosses into Linux-PAM.
 */
module Flags {
  import opened Wrappers
  import opened Constants

  /** One `const NAME = (link = NATIVE, else = BIT)` line of a `pam_flags!` table. */
  datatype NamedFlag = NamedFlag(native: bv32, bit: bv16)

  /** The named flags of one `pam_flags!` invocation, in declaration order. */
  datatype FlagTable = Nil | Cons(head: NamedFlag, tail: FlagTable)

  /** `raw` shares at least one bit with `native` (the test `value & NATIVE != 0`). */
  predicate Meets(raw: bv32, native: bv32) { raw & native != 0 }

  /** `bitflags`' `contains`: every bit of `bit` is in `flags`. */
  predicate Contains(flags: bv16, bit: bv16) { flags & bit == bit }

  /** What `flag` adds to the set built from `raw`: its bit when its native bit is set in `raw`. */
  function Keep(flag: NamedFlag, raw: bv32): bv16
  {
    if Meets(raw, flag.native) then flag.bit else 0
  }

  /** What `flag` adds to the raw value built from `flags`: its native bit when the set contains it. */
  function Pick(flag: NamedFlag, flags: bv16): bv32
  {
    if Contains(flags, flag.bit) then flag.native else 0
  }

  /** `From<RawFlags>`: the OR of what every named flag keeps. */
  function FlagsFromRaw(table: FlagTable, raw: bv32): bv16
  {
    match table
    case Nil => 0
    case Cons(flag, rest) => Keep(flag, raw) | FlagsFromRaw(rest, raw)
  }

  /** `From<flags> for RawFlags`: the OR of what every named flag picks. */
  function FlagsToRaw(table: FlagTable, flags: bv16): bv32
  {
    match table
    case Nil => 0
    case Cons(flag, rest) => Pick(flag, flags) | FlagsToRaw(rest, flags)
  }

  /** The bits of all named flags of a table. */
  function BitMask(table: FlagTable): bv16
  {
    match table
    case Nil => 0
    case Cons(flag, rest) => flag.bit | BitMask(rest)
  }

  /** The native bits of all named flags of a table. */
  function NativeMask(table: FlagTable): bv32
  {
    match table
    case Nil => 0
    case Cons(flag, rest) => flag.native | NativeMask(rest)
  }

  /** `b` has exactly one bit set. */
  predicate SingleBit16(b: bv16) { b != 0 && b & (b - 1) == 0 }
  predicate SingleBit32(b: bv32) { b != 0 && b & (b - 1) == 0 }

  /** `x` has no bit outside `mask`. */
  predicate Within16(x: bv16, mask: bv16) { x & !mask == 0 }
  predicate Within32(x: bv32, mask: bv32) { x & !mask == 0 }
  /** `a` and `b` share no bit. */
  predicate Apart16(a: bv16, b: bv16) { a & b == 0 }
  predicate Apart32(a: bv32, b: bv32) { a & b == 0 }
  /** `x` and `y` agree on the bits of `mask`. */
  predicate SameOn16(x: bv16, y: bv16, mask: bv16) { x & mask == y & mask }
  predicate SameOn32(x: bv32, y: bv32, mask: bv32) { x & mask == y & mask }

  /** Every named flag is one bit on each side, and no two flags share a bit on either side. */
  predicate WellFormed(table: FlagTable)
  {
    match table
    case Nil => true
    case Cons(flag, rest) =>
      && SingleBit32(flag.native) && SingleBit16(flag.bit)
      && Apart32(flag.native, NativeMask(rest))
      && Apart16(flag.bit, BitMask(rest))
      && WellFormed(rest)
  }

  /** A flag set made of named flags only. */
  predicate IsFlagSet(table: FlagTable, flags: bv16)
  {
    Within16(flags, BitMask(table))
  }

  /** `AuthnFlags`: `SILENT` and `DISALLOW_NULL_AUTHTOK`. */
  const AUTHN_FLAGS: FlagTable :=
    Cons(NamedFlag(PAM_SILENT, 0x8000), Cons(NamedFlag(PAM_DISALLOW_NULL_AUTHTOK, 0x1), Nil))
  /** `AuthtokFlags`: `SILENT` and `CHANGE_EXPIRED_AUTHTOK`. */
  const AUTHTOK_FLAGS: FlagTable :=
    Cons(NamedFlag(PAM_SILENT, 0x8000), Cons(NamedFlag(PAM_CHANGE_EXPIRED_AUTHTOK, 0x2), Nil))
  /** `BaseFlags`: `SILENT` only. */
  const BASE_FLAGS: FlagTable :=
    Cons(NamedFlag(PAM_SILENT, 0x8000), Nil)

  /** The three tables of the source are well-formed, and their native masks are the expected bits. */
  lemma FlagTablesWellFormed()
    ensures WellFormed(AUTHN_FLAGS) && WellFormed(AUTHTOK_FLAGS) && WellFormed(BASE_FLAGS)
    ensures NativeMask(AUTHN_FLAGS) == PAM_SILENT | PAM_DISALLOW_NULL_AUTHTOK
    ensures NativeMask(AUTHTOK_FLAGS) == PAM_SILENT | PAM_CHANGE_EXPIRED_AUTHTOK
    ensures NativeMask(BASE_FLAGS) == PAM_SILENT
  {
  }

  // Bit algebra, one fact per lemma.

  lemma AllOrNothing16(x: bv16, b: bv16)
    requires SingleBit16(b)
    ensures x & b == b || x & b == 0
  {}

  lemma AllOrNothing32(x: bv32, b: bv32)
    requires SingleBit32(b)
    ensures x & b == b || x & b == 0
  {}

  lemma OrWithin16(p: bv16, a: bv16, x: bv16, m: bv16)
    requires Within16(p, a) && Within16(x, m)
    ensures Within16(p | x, a | m)
  {}

  lemma OrWithin32(p: bv32, a: bv32, x: bv32, m: bv32)
    requires Within32(p, a) && Within32(x, m)
    ensures Within32(p | x, a | m)
  {}

  lemma OrApart16(x: bv16, a: bv16, m: bv16)
    requires Apart16(x, a) && Apart16(x, m)
    ensures Apart16(x, a | m)
  {}

  lemma OrApart32(x: bv32, a: bv32, m: bv32)
    requires Apart32(x, a) && Apart32(x, m)
    ensures Apart32(x, a | m)
  {}

  /** On `m`, the part `p` of `p | x` that lies apart from `m` is invisible. */
  lemma MaskDrops16(p: bv16, a: bv16, x: bv16, m: bv16)
    requires Within16(p, a) && Apart16(a, m)
    ensures SameOn16(p | x, x, m)
  {}

  lemma MaskDrops32(p: bv32, a: bv32, x: bv32, m: bv32)
    requires Within32(p, a) && Apart32(a, m)
    ensures SameOn32(p | x, x, m)
  {}

  /** On `a`, the part `x` of `p | x` that lies within a mask apart from `a` is invisible. */
  lemma MaskKeeps16(p: bv16, x: bv16, a: bv16, m: bv16)
    requires Within16(x, m) && Apart16(a, m)
    ensures SameOn16(p | x, p, a)
  {}

  lemma MaskKeeps32(p: bv32, x: bv32, a: bv32, m: bv32)
    requires Within32(x, m) && Apart32(a, m)
    ensures SameOn32(p | x, p, a)
  {}

  lemma SplitMask16(x: bv16, y: bv16, a: bv16, m: bv16)
    requires SameOn16(x, y, a | m)
    ensures SameOn16(x, y, a) && SameOn16(x, y, m)
  {}

  lemma SplitMask32(x: bv32, y: bv32, a: bv32, m: bv32)
    requires SameOn32(x, y, a | m)
    ensures SameOn32(x, y, a) && SameOn32(x, y, m)
  {}

  lemma WithinMask16(x: bv16, m: bv16)
    requires Within16(x, m)
    ensures x & m == x
  {}

  lemma JoinMask16(x: bv16, a: bv16, m: bv16)
    ensures (x & a) | (x & m) == x & (a | m)
  {}

  lemma JoinMask32(x: bv32, a: bv32, m: bv32)
    ensures (x & a) | (x & m) == x & (a | m)
  {}

  // One named flag.

  lemma KeepWithin(flag: NamedFlag, raw: bv32)
    ensures Within16(Keep(flag, raw), flag.bit)
  {}

  lemma PickWithin(flag: NamedFlag, flags: bv16)
    ensures Within32(Pick(flag, flags), flag.native)
  {}

  lemma KeepDepends(flag: NamedFlag, raw: bv32, other: bv32)
    requires SameOn32(raw, other, flag.native)
    ensures Keep(flag, raw) == Keep(flag, other)
  {}

  lemma PickDepends(flag: NamedFlag, flags: bv16, other: bv16)
    requires SameOn16(flags, other, flag.bit)
    ensures Pick(flag, flags) == Pick(flag, other)
  {}

  lemma KeepPick(flag: NamedFlag, flags: bv16)
    requires SingleBit32(flag.native) && SingleBit16(flag.bit)
    ensures Keep(flag, Pick(flag, flags)) == flags & flag.bit
  {
    AllOrNothing16(flags, flag.bit);
  }

  lemma PickKeep(flag: NamedFlag, raw: bv32)
    requires SingleBit32(flag.native) && SingleBit16(flag.bit)
    ensures Pick(flag, Keep(flag, raw)) == raw & flag.native
  {
    AllOrNothing32(raw, flag.native);
  }

  // Whole tables.

  lemma {:induction false} ToRawWithinMask(table: FlagTable, flags: bv16)
    ensures Within32(FlagsToRaw(table, flags), NativeMask(table))
  {
    match table
    case Nil =>
      assert Within32(0, 0);
    case Cons(flag, rest) =>
      ToRawWithinMask(rest, flags);
      PickWithin(flag, flags);
      OrWithin32(Pick(flag, flags), flag.native, FlagsToRaw(rest, flags), NativeMask(rest));
  }

  lemma {:induction false} FromRawWithinMask(table: FlagTable, raw: bv32)
    ensures Within16(FlagsFromRaw(table, raw), BitMask(table))
  {
    match table
    case Nil =>
      assert Within16(0, 0);
    case Cons(flag, rest) =>
      FromRawWithinMask(rest, raw);
      KeepWithin(flag, raw);
      OrWithin16(Keep(flag, raw), flag.bit, FlagsFromRaw(rest, raw), BitMask(rest));
  }

  /** Converting a set to raw looks only at the set's named bits. */
  lemma {:induction false} ToRawIgnoresUnnamed(table: FlagTable, flags: bv16, other: bv16)
    requires SameOn16(flags, other, BitMask(table))
    ensures FlagsToRaw(table, flags) == FlagsToRaw(table, other)
  {
    match table
    case Nil =>
    case Cons(flag, rest) =>
      SplitMask16(flags, other, flag.bit, BitMask(rest));
      PickDepends(flag, flags, other);
      ToRawIgnoresUnnamed(rest, flags, other);
  }

  /** Converting raw to a set looks only at the named native bits. */
  lemma {:induction false} FromRawIgnoresUnnamed(table: FlagTable, raw: bv32, other: bv32)
    requires SameOn32(raw, other, NativeMask(table))
    ensures FlagsFromRaw(table, raw) == FlagsFromRaw(table, other)
  {
    match table
    case Nil =>
    case Cons(flag, rest) =>
      SplitMask32(raw, other, flag.native, NativeMask(rest));
      KeepDepends(flag, raw, other);
      FromRawIgnoresUnnamed(rest, raw, other);
  }

  /** A single-bit flag reads its own bit back from a raw value whose other bits lie apart from it. */
  lemma HeadReadsOwnBit(head: NamedFlag, flags: bv16, others: bv32, mask: bv32, whole: bv32)
    requires SingleBit32(head.native) && SingleBit16(head.bit)
    requires Within32(others, mask) && Apart32(head.native, mask)
    requires whole == Pick(head, flags) | others
    ensures Keep(head, whole) == flags & head.bit
  {
    MaskKeeps32(Pick(head, flags), others, head.native, mask);
    KeepDepends(head, whole, Pick(head, flags));
    KeepPick(head, flags);
  }

  /** A single-bit flag puts back its own native bit from a set whose other bits lie apart from it. */
  lemma HeadPutsOwnBit(head: NamedFlag, raw: bv32, others: bv16, mask: bv16, whole: bv16)
    requires SingleBit32(head.native) && SingleBit16(head.bit)
    requires Within16(others, mask) && Apart16(head.bit, mask)
    requires whole == Keep(head, raw) | others
    ensures Pick(head, whole) == raw & head.native
  {
    MaskKeeps16(Keep(head, raw), others, head.bit, mask);
    PickDepends(head, whole, Keep(head, raw));
    PickKeep(head, raw);
  }

  /** What the first flag picks is invisible to flags whose native bits lie apart from it. */
  lemma PickInvisible(head: NamedFlag, flags: bv16, others: bv32, mask: bv32)
    requires Apart32(head.native, mask)
    ensures SameOn32(Pick(head, flags) | others, others, mask)
  {
    PickWithin(head, flags);
    MaskDrops32(Pick(head, flags), head.native, others, mask);
  }

  /** What the first flag keeps is invisible to flags whose bits lie apart from it. */
  lemma KeepInvisible(head: NamedFlag, raw: bv32, others: bv16, mask: bv16)
    requires Apart16(head.bit, mask)
    ensures SameOn16(Keep(head, raw) | others, others, mask)
  {
    KeepWithin(head, raw);
    MaskDrops16(Keep(head, raw), head.bit, others, mask);
  }

  /** The first flag of a table reads its own bit back from the raw value of `flags`. */
  lemma FlagsRoundTripHead(flag: NamedFlag, rest: FlagTable, flags: bv16)
    requires SingleBit32(flag.native) && SingleBit16(flag.bit) && Apart32(flag.native, NativeMask(rest))
    ensures Keep(flag, FlagsToRaw(Cons(flag, rest), flags)) == flags & flag.bit
  {
    ToRawWithinMask(rest, flags);
    HeadReadsOwnBit(flag, flags, FlagsToRaw(rest, flags), NativeMask(rest), FlagsToRaw(Cons(flag, rest), flags));
  }

  /** The other flags of a table read the raw value of `flags` as if the first flag were absent. */
  lemma FlagsRoundTripRest(flag: NamedFlag, rest: FlagTable, flags: bv16)
    requires Apart32(flag.native, NativeMask(rest))
    ensures FlagsFromRaw(rest, FlagsToRaw(Cons(flag, rest), flags)) == FlagsFromRaw(rest, FlagsToRaw(rest, flags))
  {
    var others := FlagsToRaw(rest, flags);
    PickInvisible(flag, flags, others, NativeMask(rest));
    FromRawIgnoresUnnamed(rest, Pick(flag, flags) | others, others);
  }

  /** One step of the induction: if the rest of a table keeps its share of `flags`, the whole table does. */
  lemma FlagsRoundTripStep(flag: NamedFlag, rest: FlagTable, flags: bv16)
    requires SingleBit32(flag.native) && SingleBit16(flag.bit) && Apart32(flag.native, NativeMask(rest))
    requires FlagsFromRaw(rest, FlagsToRaw(rest, flags)) == flags & BitMask(rest)
    ensures FlagsFromRaw(Cons(flag, rest), FlagsToRaw(Cons(flag, rest), flags)) == flags & BitMask(Cons(flag, rest))
  {
    FlagsRoundTripHead(flag, rest, flags);
    FlagsRoundTripRest(flag, rest, flags);
    JoinMask16(flags, flag.bit, BitMask(rest));
  }

  /** Flags to raw and back: exactly the named flags of a set survive. */
  lemma {:induction false} NamedFlagsRoundTrip(table: FlagTable, flags: bv16)
    requires WellFormed(table)
    ensures FlagsFromRaw(table, FlagsToRaw(table, flags)) == flags & BitMask(table)
  {
    match table
    case Nil =>
      assert flags & 0 == 0;
    case Cons(flag, rest) =>
      NamedFlagsRoundTrip(rest, flags);
      FlagsRoundTripStep(flag, rest, flags);
  }

  /** Flags to raw and back: every set of named flags comes back unchanged. */
  lemma FlagsRoundTrip(table: FlagTable, flags: bv16)
    requires WellFormed(table) && IsFlagSet(table, flags)
    ensures FlagsFromRaw(table, FlagsToRaw(table, flags)) == flags
  {
    NamedFlagsRoundTrip(table, flags);
    WithinMask16(flags, BitMask(table));
  }

  /** The first flag of a table puts back exactly its own native bit of `raw`. */
  lemma RawRoundTripHead(flag: NamedFlag, rest: FlagTable, raw: bv32)
    requires SingleBit32(flag.native) && SingleBit16(flag.bit) && Apart16(flag.bit, BitMask(rest))
    ensures Pick(flag, FlagsFromRaw(Cons(flag, rest), raw)) == raw & flag.native
  {
    FromRawWithinMask(rest, raw);
    HeadPutsOwnBit(flag, raw, FlagsFromRaw(rest, raw), BitMask(rest), FlagsFromRaw(Cons(flag, rest), raw));
  }

  /** The other flags of a table put back exactly their own native bits of `raw`. */
  lemma RawRoundTripRest(flag: NamedFlag, rest: FlagTable, raw: bv32)
    requires Apart16(flag.bit, BitMask(rest))
    requires FlagsToRaw(rest, FlagsFromRaw(rest, raw)) == raw & NativeMask(rest)
    ensures FlagsToRaw(rest, FlagsFromRaw(Cons(flag, rest), raw)) == raw & NativeMask(rest)
  {
    var others := FlagsFromRaw(rest, raw);
    KeepInvisible(flag, raw, others, BitMask(rest));
    ToRawIgnoresUnnamed(rest, Keep(flag, raw) | others, others);
  }

  /** One step of the induction: if the rest of a table round-trips `raw`, the whole table does. */
  lemma RawRoundTripStep(flag: NamedFlag, rest: FlagTable, raw: bv32)
    requires SingleBit32(flag.native) && SingleBit16(flag.bit) && Apart16(flag.bit, BitMask(rest))
    requires FlagsToRaw(rest, FlagsFromRaw(rest, raw)) == raw & NativeMask(rest)
    ensures FlagsToRaw(Cons(flag, rest), FlagsFromRaw(Cons(flag, rest), raw)) == raw & NativeMask(Cons(flag, rest))
  {
    RawRoundTripHead(flag, rest, raw);
    RawRoundTripRest(flag, rest, raw);
    JoinMask32(raw, flag.native, NativeMask(rest));
  }

  /** Raw to flags and back: exactly the named native bits survive, all others are dropped. */
  lemma {:induction false} RawRoundTrip(table: FlagTable, raw: bv32)
    requires WellFormed(table)
    ensures FlagsToRaw(table, FlagsFromRaw(table, raw)) == raw & NativeMask(table)
  {
    match table
    case Nil =>
      assert raw & 0 == 0;
    case Cons(flag, rest) =>
      RawRoundTrip(rest, raw);
      RawRoundTripStep(flag, rest, raw);
  }

  /** A raw value of 0 is the empty set, and the empty set is raw 0. */
  lemma {:induction false} EmptyFlags(table: FlagTable)
    requires WellFormed(table)
    ensures FlagsFromRaw(table, 0) == 0
    ensures FlagsToRaw(table, 0) == 0
  {
    match table
    case Nil =>
    case Cons(flag, rest) =>
      EmptyFlags(rest);
  }

  // ---------------------------------------------------------------------------
  // Closed enumerations (`flag_enum!`).

  datatype CredAction = Establish | Delete | Reinitialize | Refresh

  /** `#[default]` */
  const DEFAULT_CRED_ACTION: CredAction := Establish

  function CredActionRaw(action: CredAction): (raw: bv32)
    ensures SingleBit32(raw)
    ensures raw in {PAM_ESTABLISH_CRED, PAM_DELETE_CRED, PAM_REINITIALIZE_CRED, PAM_REFRESH_CRED}
  {
    match action
    case Establish => PAM_ESTABLISH_CRED
    case Delete => PAM_DELETE_CRED
    case Reinitialize => PAM_REINITIALIZE_CRED
    case Refresh => PAM_REFRESH_CRED
  }

  /** `TryFrom<RawFlags>`: exactly the four action values are accepted, nothing else (no combinations). */
  function CredActionFrom(raw: bv32): (r: PamResult<CredAction>)
    ensures r.Ok? <==> raw in {PAM_ESTABLISH_CRED, PAM_DELETE_CRED, PAM_REINITIALIZE_CRED, PAM_REFRESH_CRED}
    ensures r.Ok? ==> CredActionRaw(r.value) == raw
    ensures r.Err? ==> r.error == BAD_CONST
  {
    if raw == PAM_ESTABLISH_CRED then Ok(Establish)
    else if raw == PAM_DELETE_CRED then Ok(Delete)
    else if raw == PAM_REINITIALIZE_CRED then Ok(Reinitialize)
    else if raw == PAM_REFRESH_CRED then Ok(Refresh)
    else Err(BAD_CONST)
  }

  datatype AuthtokAction = Validate | Update

  function AuthtokActionRaw(action: AuthtokAction): (raw: bv32)
    ensures SingleBit32(raw)
    ensures raw in {PAM_PRELIM_CHECK, PAM_UPDATE_AUTHTOK}
  {
    match action
    case Validate => PAM_PRELIM_CHECK
    case Update => PAM_UPDATE_AUTHTOK
  }

  function AuthtokActionFrom(raw: bv32): (r: PamResult<AuthtokAction>)
    ensures r.Ok? <==> raw in {PAM_PRELIM_CHECK, PAM_UPDATE_AUTHTOK}
    ensures r.Ok? ==> AuthtokActionRaw(r.value) == raw
    ensures r.Err? ==> r.error == BAD_CONST
  {
    if raw == PAM_PRELIM_CHECK then Ok(Validate)
    else if raw == PAM_UPDATE_AUTHTOK then Ok(Update)
    else Err(BAD_CONST)
  }

  /** Each action converts to its raw value and back; distinct actions have distinct values. */
  lemma ActionsRoundTrip(c: CredAction, a: AuthtokAction)
    ensures CredActionFrom(CredActionRaw(c)) == Ok(c)
    ensures AuthtokActionFrom(AuthtokActionRaw(a)) == Ok(a)
  {
  }
}
