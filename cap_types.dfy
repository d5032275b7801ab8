/**
 * The register form of a 128-bit CHERI capability (`cheri_reg_t`) and its
 * mutators.  `cheri_reg_t` is a C++ value type that is copied on every read
 * of a register, so it is a datatype here and each mutator is a function
 * returning the updated value.
 *
 * The compression library behind it (`cc128_*`, `compress_128cap`,
 * `decompress_128cap`) is not part of this model: its entry points are the
 * fields of `CompressLib`, passed as a parameter, and any fact about them
 * that a property needs is an explicit hypothesis of that property.
 */
module CapTypes {
  import opened Words

  type u8 = x: nat | x < 0x100
  /** A 24-bit object type field. */
  type OType = x: nat | x < 0x100_0000
  /** A one-bit field. */
  type Bit = x: nat | x < 2

  const OTYPE_UNSEALED: OType := 0x3ffff
  const OTYPE_MAX: OType := 0x3fffe
  const MAX_CHERI_LENGTH: u128 := TWO64

  const CHERI_PERM_BITS: nat := 12
  const CHERI_USER_PERM_BITS: nat := 4

  /** Architectural permission bit numbers (CHERI ISA version 7, section 3.3). */
  type PermIndex = x: nat | x < 12
  const PERMIT_GLOBAL: PermIndex := 0
  const PERMIT_EXECUTE: PermIndex := 1
  const PERMIT_LOAD: PermIndex := 2
  const PERMIT_STORE: PermIndex := 3
  const PERMIT_LOAD_CAPABILITY: PermIndex := 4
  const PERMIT_STORE_CAPABILITY: PermIndex := 5
  const PERMIT_STORE_LOCAL_CAPABILITY: PermIndex := 6
  const PERMIT_SEAL: PermIndex := 7
  const PERMIT_CCALL: PermIndex := 8
  const PERMIT_UNSEAL: PermIndex := 9
  const PERMIT_ACCESS_SYSTEM_REGISTERS: PermIndex := 10
  const PERMIT_SET_CID: PermIndex := 11

  /** Bit numbers of the four user-permission bits. */
  type UPermIndex = x: nat | x < 4

  /**
   * The 12-bit `perms` and 4-bit `uperms` fields are modelled as the sets
   * of bit numbers that are 1: `&` is intersection, `|` union and a subset
   * test `(a & b) == a` is `a <= b`.
   */
  type Perms = set<PermIndex>
  type UPerms = set<UPermIndex>

  const ALL_PERMS: Perms := {0, 1, 2, 3, 4, 5, 6, 7, 8, 9, 10, 11}
  const ALL_UPERMS: UPerms := {0, 1, 2, 3}

  /**
   * A `cheri_reg_t`.  `base`, `top` and `cursor` are the cached `_base`,
   * `_top` and `_cursor`; the remaining fields are the public bit-fields.
   * The cached `_ebt` is never read by any modelled operation and is
   * left out.
   */
  datatype Cap = Cap(
    base: u64,
    top: u128,
    cursor: u64,
    flags: Bit,
    uperms: UPerms,
    perms: Perms,
    otype: OType,
    reserved: u8,
    tag: bool)
  {
    /** `offset()`: the cursor relative to the base, on `reg_t`. */
    function Offset(): (r: u64)
      ensures Add64(base, r) == cursor
      ensures base <= cursor ==> r == cursor - base
    {
      Sub64(cursor, base)
    }

    /** `length()`: `_top - _base` on `cheri_length_t`. */
    function Length(): (r: u128)
      ensures Add128(base, r) == top
      ensures base <= top ==> r == top - base
    {
      Sub128(top, base)
    }

    /** `sealed()`: any object type other than the unsealed one. */
    predicate Sealed()
    {
      otype != OTYPE_UNSEALED
    }

    predicate HasPerm(p: PermIndex)
    {
      p in perms
    }
  }

  /** The default constructor `cheri_reg_t(cursor)`: `CHERI_NULL_CAP` at `cursor`. */
  function Null(cursor: u64): (c: Cap)
    ensures !c.tag && !c.Sealed() && c.perms == {} && c.uperms == {}
    ensures c.base == 0 && c.top == MAX_CHERI_LENGTH && c.cursor == cursor
    ensures c.flags == 0 && c.reserved == 0 && c.otype == OTYPE_UNSEALED
  {
    Cap(0, MAX_CHERI_LENGTH, cursor, 0, {}, {}, OTYPE_UNSEALED, 0, false)
  }

  /** `cheri_reg_t::almighty(cursor)`: every permission over the whole address space. */
  function Almighty(cursor: u64): (c: Cap)
    ensures c.tag && !c.Sealed()
    ensures forall p: PermIndex :: c.HasPerm(p)
    ensures c.perms == ALL_PERMS && c.uperms == ALL_UPERMS
    ensures c.base == 0 && c.top == MAX_CHERI_LENGTH && c.cursor == cursor
    ensures c.flags == 0 && c.reserved == 0 && c.otype == OTYPE_UNSEALED
  {
    Cap(0, MAX_CHERI_LENGTH, cursor, 0, ALL_UPERMS, ALL_PERMS, OTYPE_UNSEALED, 0, true)
  }

  /**
   * The capability whose every bit is zero: what a register file holds
   * after it is cleared.  Its object type 0 is not `OTYPE_UNSEALED`, so it
   * reads as sealed.
   */
  function ZeroCap(): (c: Cap)
    ensures !c.tag && c.Sealed()
  {
    Cap(0, 0, 0, 0, {}, {}, 0, 0, false)
  }

  /**
   * The compression library's `cap_register`.  The library's own field
   * widths are not part of this model: each field has the width of the
   * `cheri_reg_t` field it is copied to and from.
   */
  datatype LibCap = LibCap(
    cursor: u64,
    base: u64,
    top: u128,
    perms: Perms,
    uperms: UPerms,
    otype: OType,
    flags: Bit,
    reserved: u8,
    tag: bool)

  /** `cheri_reg_inmem_t`: the 16-byte compressed form stored in memory. */
  datatype InMem = InMem(cursor: u64, pesbt: u64)

  /** The entry points of the compression library used by the core. */
  datatype CompressLib = CompressLib(
    /** `cc128_is_representable_new_addr(sealed, base, length, cursor, new_cursor)` */
    representableNewAddr: (bool, u64, u128, u64, u64) -> bool,
    /** `cc128_is_representable(sealed, base, length, offset, new_offset)` */
    representableOffsets: (bool, u64, u128, u64, u64) -> bool,
    /** the four-argument `cheri_is_representable(sealed, base, length, offset)` */
    representableSeal: (bool, u64, u128, u64) -> bool,
    /** `compress_128cap(cap)`: the `pesbt` word */
    compress: LibCap -> u64,
    /** `decompress_128cap(pesbt, cursor)` */
    decompress: (u64, u64) -> LibCap,
    /** `cc128_setbounds(cap, base, top)`: the updated `cap` */
    setBounds: (LibCap, u64, u128) -> LibCap)

  /** `cap_lib()`: copy every field into the library's form. */
  function CapLib(c: Cap): (l: LibCap)
    ensures l.cursor == c.cursor && l.base == c.base && l.top == c.top
    ensures l.perms == c.perms && l.uperms == c.uperms
    ensures l.otype == c.otype && l.flags == c.flags && l.reserved == c.reserved && l.tag == c.tag
  {
    LibCap(c.cursor, c.base, c.top, c.perms, c.uperms, c.otype, c.flags, c.reserved, c.tag)
  }

  /** `set_cap_lib(cap)`: assign every field back. */
  function SetCapLib(l: LibCap): (c: Cap)
    ensures CapLib(c) == l
  {
    Cap(l.base, l.top, l.cursor, l.flags, l.uperms, l.perms, l.otype, l.reserved, l.tag)
  }

  /** Copying a capability out to the library and back changes nothing. */
  lemma SetCapLibCapLib(c: Cap)
    ensures SetCapLib(CapLib(c)) == c
  {
  }

  /**
   * The constructor `cheri_reg_t(inmem, tag)`: decompress the stored form
   * and take the tag from the argument.
   */
  function FromInMem(lib: CompressLib, m: InMem, tag: bool): (c: Cap)
    ensures c.tag == tag
  {
    SetCapLib(lib.decompress(m.pesbt, m.cursor).(tag := tag))
  }

  /** `inmem()`: the cursor and the compressed metadata. */
  function ToInMem(lib: CompressLib, c: Cap): (m: InMem)
    ensures m.cursor == c.cursor
  {
    InMem(c.cursor, lib.compress(CapLib(c)))
  }

  /** What `cc128_setbounds` must keep for bounds setting to keep a capability's metadata. */
  ghost predicate SetBoundsKeepsMetadata(lib: CompressLib)
  {
    forall l: LibCap, b: u64, t: u128 {:trigger lib.setBounds(l, b, t)} ::
      var n := lib.setBounds(l, b, t);
      n.tag == l.tag && n.perms == l.perms && n.uperms == l.uperms &&
      n.otype == l.otype && n.flags == l.flags && n.reserved == l.reserved
  }

  /** What `cc128_setbounds` must do for the requested region to lie within the new bounds. */
  ghost predicate SetBoundsCovers(lib: CompressLib)
  {
    forall l: LibCap, b: u64, t: u128 {:trigger lib.setBounds(l, b, t)} ::
      b <= t ==> lib.setBounds(l, b, t).base <= b && t <= lib.setBounds(l, b, t).top
  }

  /**
   * `set_bounds(base, top)`: clear `reserved`, then let the library narrow
   * the bounds.  When the library keeps the metadata, only the bounds and
   * the cursor may change.
   */
  function SetBounds(lib: CompressLib, c: Cap, newBase: u64, newTop: u128): (r: Cap)
    ensures SetBoundsKeepsMetadata(lib) ==>
      r.tag == c.tag && r.perms == c.perms && r.uperms == c.uperms &&
      r.otype == c.otype && r.flags == c.flags && r.reserved == 0
  {
    var l := lib.setBounds(CapLib(c.(reserved := 0)), newBase, newTop);
    SetCapLib(l)
  }

  /** Whether `set_cursor(newCursor)` keeps `c`'s bounds representable. */
  predicate CursorRepresentable(lib: CompressLib, c: Cap, newCursor: u64)
  {
    lib.representableNewAddr(c.Sealed(), c.base, c.Length(), c.cursor, newCursor)
  }

  /**
   * `set_cursor(newCursor)`: move the cursor, keeping everything else, when
   * the library says the bounds stay representable; otherwise re-decode
   * the compressed form at the new cursor, untagged.
   */
  function SetCursor(lib: CompressLib, c: Cap, newCursor: u64): (r: Cap)
    ensures r.tag <==> c.tag && CursorRepresentable(lib, c, newCursor)
    ensures CursorRepresentable(lib, c, newCursor) ==>
      r == c.(cursor := newCursor, reserved := 0)
  {
    var cleared := c.(reserved := 0);
    if !lib.representableNewAddr(cleared.Sealed(), cleared.base, cleared.Length(), cleared.cursor, newCursor) then
      var newmem := ToInMem(lib, cleared).(cursor := newCursor);
      FromInMem(lib, newmem, false)
    else
      cleared.(cursor := newCursor)
  }

  /** What `decompress_128cap` must do for an unrepresentable cursor move to land on the new address. */
  ghost predicate DecompressKeepsCursor(lib: CompressLib)
  {
    forall pesbt: u64, cursor: u64 {:trigger lib.decompress(pesbt, cursor)} ::
      lib.decompress(pesbt, cursor).cursor == cursor
  }

  /** Whichever path `set_cursor` takes, the cursor lands where it was asked to. */
  lemma SetCursorAddress(lib: CompressLib, c: Cap, newCursor: u64)
    requires DecompressKeepsCursor(lib)
    ensures SetCursor(lib, c, newCursor).cursor == newCursor
  {
    if !CursorRepresentable(lib, c, newCursor) {
      var m := ToInMem(lib, c.(reserved := 0)).(cursor := newCursor);
      assert lib.decompress(m.pesbt, m.cursor).cursor == newCursor;
    }
  }

  /** `inc_offset(inc)`: `set_cursor(_cursor + inc)`. */
  function IncOffset(lib: CompressLib, c: Cap, inc: u64): (r: Cap)
    ensures r.tag ==> c.tag
    ensures CursorRepresentable(lib, c, Add64(c.cursor, inc)) ==> r.Offset() == Add64(c.Offset(), inc)
  {
    OffsetAdd(c, inc);
    SetCursor(lib, c, Add64(c.cursor, inc))
  }

  /** `set_offset(offset)`: `set_cursor(_base + offset)`. */
  function SetOffset(lib: CompressLib, c: Cap, offset: u64): (r: Cap)
    ensures r.tag ==> c.tag
    ensures CursorRepresentable(lib, c, Add64(c.base, offset)) ==> r.Offset() == offset && r.base == c.base
  {
    SetCursor(lib, c, Add64(c.base, offset))
  }

  /** Moving the cursor by `inc` moves the offset by `inc`, modulo 2^64. */
  lemma OffsetAdd(c: Cap, inc: u64)
    ensures Sub64(Add64(c.cursor, inc), c.base) == Add64(c.Offset(), inc)
  {
  }

  /** Incrementing the offset is setting it to the old offset plus the increment. */
  lemma IncOffsetIsSetOffset(lib: CompressLib, c: Cap, inc: u64)
    ensures IncOffset(lib, c, inc) == SetOffset(lib, c, Add64(c.Offset(), inc))
  {
    OffsetAdd(c, inc);
    assert Add64(c.base, Add64(c.Offset(), inc)) == Add64(c.cursor, inc);
  }
}
