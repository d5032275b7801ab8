/**
 * The instructions that derive a capability with narrower bounds:
 * CBuildCap, CSetBoundsExact, CSetBounds and CSetBoundsImmediate.  Each is
 * a function of its operand registers' values; `Ok` is the value written
 * to `cd`, `Err` the exception raised.
 */
module BoundsInsns {
  import opened Words
  import opened CapTypes
  import opened Faults

  /** `c`'s bounds and permissions lie within `auth`'s. */
  predicate Within(c: Cap, auth: Cap)
  {
    auth.base <= c.base && c.top <= auth.top && c.perms <= auth.perms
  }

  /** The capability CBuildCap and CFromPtr take their authority from: DDC when the register is c0. */
  function AuthOf(cs: nat, c: Cap, ddc: Cap): Cap
  {
    if cs == 0 then ddc else c
  }

  /** The register index a fault of that authority names: `0x20 | DDC` for DDC. */
  function AuthIdx(cs: nat): (r: RegIdx)
    requires cs < 32
    ensures cs == 0 ==> r == ScrIdx(CHERI_SCR_DDC)
    ensures cs != 0 ==> r == cs
  {
    if cs == 0 then ScrIdx(CHERI_SCR_DDC) else cs
  }

  /**
   * CBuildCap cd, cs1, cs2: rebuild the untagged `c2` under the authority
   * of `c1` (or DDC): the bounds of `c2` must lie within the authority's
   * and its permissions must be a subset.  A result that does not come out
   * with exactly `c2`'s bounds and address stops the simulator.
   */
  function CBuildCap(lib: CompressLib, ddc: Cap, cs1: nat, c1: Cap, cs2: nat, c2: Cap): (r: Result<Cap>)
    requires cs1 < 32 && cs2 < 32
    // the tests in the order the source makes them; the first that fails names the fault
    ensures var auth := AuthOf(cs1, c1, ddc); var idx := AuthIdx(cs1);
      var t1 := auth.tag; var t2 := t1 && !auth.Sealed(); var t3 := t2 && auth.base <= c2.base;
      var t4 := t3 && c2.top <= auth.top; var t5 := t4 && c2.base <= c2.top;
      && (!t1 ==> r == Err(CheriFault(TagViolation, idx)))
      && (t1 && auth.Sealed() ==> r == Err(CheriFault(SealViolation, idx)))
      && (t2 && c2.base < auth.base ==> r == Err(CheriFault(LengthViolation, idx)))
      && (t3 && c2.top > auth.top ==> r == Err(CheriFault(LengthViolation, idx)))
      && (t4 && c2.base > c2.top ==> r == Err(CheriFault(LengthViolation, cs2)))
      && (t5 && !(c2.perms <= auth.perms) ==> r == Err(CheriFault(AccessSystemRegistersViolation, idx)))
      && (t5 && c2.perms <= auth.perms ==> r == Rebuild(lib, auth, c2))
    ensures r.Ok? ==> Within(r.value, AuthOf(cs1, c1, ddc))
    ensures r.Ok? ==> AuthOf(cs1, c1, ddc).tag && !AuthOf(cs1, c1, ddc).Sealed()
    ensures r.Ok? ==> r.value.base == c2.base && r.value.top == c2.top && r.value.cursor == c2.cursor
    ensures r.Ok? ==> r.value.perms == c2.perms && r.value.uperms == c2.uperms && r.value.flags == c2.flags
    ensures (r.Err? && r.fault.CheriFault?) <==>
      !(AuthOf(cs1, c1, ddc).tag && !AuthOf(cs1, c1, ddc).Sealed() && c2.base <= c2.top && Within(c2, AuthOf(cs1, c1, ddc)))
    ensures r.Err? ==> r.fault.CheriFault? || r.fault == HostAssertion
  {
    var auth := AuthOf(cs1, c1, ddc);
    var authidx := AuthIdx(cs1);
    if !auth.tag then Err(CheriFault(TagViolation, authidx))
    else if auth.Sealed() then Err(CheriFault(SealViolation, authidx))
    else if c2.base < auth.base then Err(CheriFault(LengthViolation, authidx))
    else if c2.top > auth.top then Err(CheriFault(LengthViolation, authidx))
    else if c2.base > c2.top then Err(CheriFault(LengthViolation, cs2))
    else if !(c2.perms <= auth.perms) then Err(CheriFault(AccessSystemRegistersViolation, authidx))
    else Rebuild(lib, auth, c2)
  }

  /**
   * The construction step of CBuildCap: bounds then address of `c2` on
   * `auth`, then `c2`'s flags and permissions; the simulator asserts that
   * the bounds and address came out exactly.
   */
  function Rebuild(lib: CompressLib, auth: Cap, c2: Cap): (r: Result<Cap>)
    ensures r.Ok? ==> r.value.base == c2.base && r.value.top == c2.top && r.value.cursor == c2.cursor
    ensures r.Ok? ==> r.value.perms == c2.perms && r.value.uperms == c2.uperms && r.value.flags == c2.flags
    ensures r.Err? ==> r == Err(HostAssertion)
    // the tag and object type come from the rebuilt capability: the authority's, unless the move is unrepresentable
    ensures r.Ok? && SetBoundsKeepsMetadata(lib) ==>
      (r.value.tag <==> auth.tag && CursorRepresentable(lib, SetBounds(lib, auth, c2.base, c2.top), c2.cursor))
    ensures r.Ok? && SetBoundsKeepsMetadata(lib) && CursorRepresentable(lib, SetBounds(lib, auth, c2.base, c2.top), c2.cursor) ==>
      r.value.otype == auth.otype
    // when the library reproduces the template's bounds and the cursor move is representable, nothing stops
    ensures var bounded := SetBounds(lib, auth, c2.base, c2.top);
      bounded.base == c2.base && bounded.top == c2.top && CursorRepresentable(lib, bounded, c2.cursor) ==> r.Ok?
  {
    var bounded := SetBounds(lib, auth, c2.base, c2.top);
    var moved := SetCursor(lib, bounded, c2.cursor);
    var cap := moved.(flags := c2.flags, uperms := c2.uperms, perms := c2.perms);
    if cap.base != c2.base || cap.top != c2.top || cap.cursor != c2.cursor then Err(HostAssertion)
    else Ok(cap)
  }

  /**
   * CSetBoundsExact cd, cs1, rs2: bounds [cursor, cursor + rs2), which
   * must lie within the old ones and be exactly representable.
   */
  function CSetBoundsExact(lib: CompressLib, cs1: RegIdx, c1: Cap, rs2: u64): (r: Result<Cap>)
    ensures !c1.tag ==> r == Err(CheriFault(TagViolation, cs1))
    ensures c1.tag && c1.Sealed() ==> r == Err(CheriFault(SealViolation, cs1))
    ensures c1.tag && !c1.Sealed() && !(c1.base <= c1.cursor && c1.cursor + rs2 <= c1.top) ==>
      r == Err(CheriFault(LengthViolation, cs1))
    ensures c1.tag && !c1.Sealed() && c1.base <= c1.cursor && c1.cursor + rs2 <= c1.top ==>
      var cap := SetBounds(lib, c1, c1.cursor, c1.cursor + rs2);
      (r.Ok? <==> cap.base == c1.cursor && cap.top == c1.cursor + rs2) &&
      (r.Ok? ==> r.value == cap) &&
      (r.Err? ==> r.fault == CheriFault(RepresentabilityViolation, cs1))
    ensures r.Ok? ==> r.value.base == c1.cursor && r.value.top == c1.cursor + rs2
    ensures r.Ok? ==> c1.base <= r.value.base && r.value.top <= c1.top
    ensures r.Ok? && SetBoundsKeepsMetadata(lib) ==>
      r.value.tag && r.value.perms == c1.perms && r.value.otype == c1.otype
  {
    var newTop: u128 := c1.cursor + rs2;
    if !c1.tag then Err(CheriFault(TagViolation, cs1))
    else if c1.Sealed() then Err(CheriFault(SealViolation, cs1))
    else if c1.cursor < c1.base then Err(CheriFault(LengthViolation, cs1))
    else if newTop > c1.top then Err(CheriFault(LengthViolation, cs1))
    else
      var cap := SetBounds(lib, c1, c1.cursor, newTop);
      if cap.base != c1.cursor || cap.top != newTop then Err(CheriFault(RepresentabilityViolation, cs1))
      else Ok(cap)
  }

  /**
   * CSetBounds as written: the requested top is computed on `reg_t` and
   * compared with the cursor instead of the old top.
   */
  function CSetBoundsAsWritten(lib: CompressLib, cs1: RegIdx, c1: Cap, rs2: u64): (r: Result<Cap>)
    ensures r.Ok? ==> c1.tag && !c1.Sealed()
  {
    var newTop: u128 := Add64(c1.cursor, rs2);
    var oldTop: u128 := c1.cursor;
    if !c1.tag then Err(CheriFault(TagViolation, cs1))
    else if c1.Sealed() then Err(CheriFault(SealViolation, cs1))
    else if c1.cursor < c1.base then Err(CheriFault(LengthViolation, cs1))
    else if newTop > oldTop then Err(CheriFault(LengthViolation, cs1))
    else Ok(SetCapLib(lib.setBounds(CapLib(c1), c1.cursor, newTop)))
  }

  /** As written, CSetBounds refuses every non-empty region that does not wrap around 2^64. */
  lemma CSetBoundsAsWrittenRefusesNonEmpty(lib: CompressLib, cs1: RegIdx, c1: Cap, rs2: u64)
    requires c1.tag && !c1.Sealed() && c1.base <= c1.cursor
    requires 0 < rs2 && c1.cursor + rs2 < TWO64
    ensures CSetBoundsAsWritten(lib, cs1, c1, rs2) == Err(CheriFault(LengthViolation, cs1))
  {
  }

  /**
   * The requests that show it: 16 bytes at 0x1000 under the almighty
   * capability are refused as written; 32 bytes at 2^64 - 16, whose top
   * wraps to 0x10 on `reg_t`, are granted as written and refused when the
   * top is computed without wrap-around.
   */
  lemma CSetBoundsFindingWitness(lib: CompressLib)
    ensures CSetBoundsAsWritten(lib, 1, Almighty(0x1000), 0x10).Err?
    ensures CSetBounds(lib, 1, Almighty(0x1000), 0x10).Ok?
    ensures CSetBoundsAsWritten(lib, 1, Almighty(UINT64_MAX - 0xf), 0x20).Ok?
    ensures CSetBounds(lib, 1, Almighty(UINT64_MAX - 0xf), 0x20) == Err(CheriFault(LengthViolation, 1))
  {
  }

  /**
   * CSetBounds cd, cs1, rs2 as evidently intended: bounds covering
   * [cursor, cursor + rs2), with the top computed without wrap-around,
   * which must lie within the old bounds; the library may round them
   * outwards.
   */
  function CSetBounds(lib: CompressLib, cs1: RegIdx, c1: Cap, rs2: u64): (r: Result<Cap>)
    ensures r.Ok? <==> c1.tag && !c1.Sealed() && c1.base <= c1.cursor && c1.cursor + rs2 <= c1.top
    ensures !c1.tag ==> r == Err(CheriFault(TagViolation, cs1))
    ensures c1.tag && c1.Sealed() ==> r == Err(CheriFault(SealViolation, cs1))
    ensures c1.tag && !c1.Sealed() && !(c1.base <= c1.cursor && c1.cursor + rs2 <= c1.top) ==>
      r == Err(CheriFault(LengthViolation, cs1))
    ensures r.Ok? && SetBoundsCovers(lib) ==>
      r.value.base <= c1.cursor && c1.cursor + rs2 <= r.value.top
    ensures r.Ok? && SetBoundsKeepsMetadata(lib) ==>
      r.value.tag && r.value.perms == c1.perms && r.value.otype == c1.otype && r.value.reserved == c1.reserved
  {
    var newTop: u128 := c1.cursor + rs2;
    if !c1.tag then Err(CheriFault(TagViolation, cs1))
    else if c1.Sealed() then Err(CheriFault(SealViolation, cs1))
    else if c1.cursor < c1.base then Err(CheriFault(LengthViolation, cs1))
    else if newTop > c1.top then Err(CheriFault(LengthViolation, cs1))
    else Ok(SetCapLib(lib.setBounds(CapLib(c1), c1.cursor, newTop)))
  }

  /**
   * CSetBoundsImmediate with the immediate read as `insn.i_imm()`, that
   * is sign-extended, and the bounds assigned directly: base := cursor,
   * length := the immediate as a `cheri_length_t`.
   */
  function CSetBoundsImmediateAsWritten(cs1: RegIdx, c1: Cap, field: u12): (r: Result<Cap>)
    ensures r.Ok? ==> c1.tag && !c1.Sealed() && r.value.base == c1.cursor
  {
    var imm := ToU64(SignExtend12(field));
    var immLength: u128 := if SignExtend12(field) >= 0 then SignExtend12(field) else TWO128 + SignExtend12(field);
    var addr := Add64(c1.base, c1.Offset());
    if !c1.tag then Err(CheriFault(TagViolation, cs1))
    else if c1.Sealed() then Err(CheriFault(SealViolation, cs1))
    else if addr < c1.base then Err(CheriFault(LengthViolation, cs1))
    else if Add64(addr, imm) < addr then Err(CheriFault(LengthViolation, cs1))
    else if Add64(addr, imm) > Add128(c1.base, c1.Length()) then Err(CheriFault(LengthViolation, cs1))
    else Ok(c1.(base := addr, top := Add128(addr, immLength), cursor := Add64(addr, 0)))
  }

  /**
   * With the immediate field 0xFFF (-1 sign-extended) and the almighty
   * capability at address 0, every test passes and the result's top is
   * 2^128 - 1: a capability that reaches far beyond its authority.
   */
  lemma CSetBoundsImmediateFindingWitness()
    ensures CSetBoundsImmediateAsWritten(1, Almighty(0), 0xfff).Ok?
    ensures CSetBoundsImmediateAsWritten(1, Almighty(0), 0xfff).value.top == TWO128 - 1
    ensures CSetBoundsImmediate(1, Almighty(0), 0xfff).value.top == 0xfff
  {
  }

  /**
   * CSetBoundsImmediate cd, cs1, uimm as evidently intended: the 12-bit
   * immediate is an unsigned length, and the new bounds [cursor,
   * cursor + uimm) lie within the old ones.
   */
  function CSetBoundsImmediate(cs1: RegIdx, c1: Cap, field: u12): (r: Result<Cap>)
    ensures r.Ok? <==>
      c1.tag && !c1.Sealed() && c1.base <= c1.cursor && c1.cursor + field < TWO64 && c1.cursor + field <= c1.top
    ensures !c1.tag ==> r == Err(CheriFault(TagViolation, cs1))
    ensures c1.tag && c1.Sealed() ==> r == Err(CheriFault(SealViolation, cs1))
    ensures c1.tag && !c1.Sealed() && !(c1.base <= c1.cursor && c1.cursor + field < TWO64 && c1.cursor + field <= c1.top) ==>
      r == Err(CheriFault(LengthViolation, cs1))
    ensures r.Ok? ==> Within(r.value, c1)
    // only the bounds change: tag, permissions, user permissions, flags, object type and cursor are copied
    ensures r.Ok? ==> r.value == c1.(base := c1.cursor, top := c1.cursor + field)
  {
    var addr := Add64(c1.base, c1.Offset());
    if !c1.tag then Err(CheriFault(TagViolation, cs1))
    else if c1.Sealed() then Err(CheriFault(SealViolation, cs1))
    else if addr < c1.base then Err(CheriFault(LengthViolation, cs1))
    else if Add64(addr, field) < addr then Err(CheriFault(LengthViolation, cs1))
    else if Add64(addr, field) > Add128(c1.base, c1.Length()) then Err(CheriFault(LengthViolation, cs1))
    else Ok(c1.(base := addr, top := Add128(addr, field), cursor := Add64(addr, 0)))
  }
}
