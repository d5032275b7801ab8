/**
 * The instructions that adjust one field of a capability or convert
 * between capabilities and integers: CAndPerm, CSetFlags, CSetOffset,
 * CIncOffsetImmediate, CIncOffset, CSetAddr, CFromPtr, CToPtr,
 * CCopyType, CTestSubset, and AUIPC in capability mode.
 */
module ModifyInsns {
  import opened Words
  import opened CapTypes
  import opened Faults
  import BoundsInsns

  /** Bits 11..0 of `rs2`: the permission mask of CAndPerm. */
  function PermMask(rs2: u64): (m: Perms)
    ensures forall p: PermIndex :: p in m <==> TestBit(rs2, p)
  {
    set p: PermIndex | p < 12 && TestBit(rs2, p)
  }

  /** Bit `CHERI_PERM_BITS + u` of `rs2`, which grants user permission `u`. */
  predicate UPermBit(rs2: u64, u: UPermIndex)
  {
    TestBit(rs2, CHERI_PERM_BITS + u)
  }

  /** Bits 15..12 of `rs2`: the user-permission mask of CAndPerm. */
  function UPermMask(rs2: u64): (m: UPerms)
    ensures forall u: UPermIndex :: u in m <==> UPermBit(rs2, u)
  {
    set u: UPermIndex | u < 4 && UPermBit(rs2, u)
  }

  /**
   * CAndPerm cd, cs1, rs2: keep only the permissions and user permissions
   * that `rs2` also grants.
   */
  function CAndPerm(cs1: RegIdx, c1: Cap, rs2: u64): (r: Result<Cap>)
    ensures r.Ok? <==> c1.tag && !c1.Sealed()
    ensures r.Err? ==> r.fault == CheriFault(if !c1.tag then TagViolation else SealViolation, cs1)
    ensures r.Ok? ==> r.value.perms <= c1.perms && r.value.uperms <= c1.uperms
    ensures r.Ok? ==> forall p: PermIndex :: r.value.HasPerm(p) <==> c1.HasPerm(p) && TestBit(rs2, p)
    ensures r.Ok? ==> forall u: UPermIndex :: u in r.value.uperms <==> u in c1.uperms && UPermBit(rs2, u)
    ensures r.Ok? ==> r.value.(perms := c1.perms, uperms := c1.uperms) == c1
  {
    if !c1.tag then Err(CheriFault(TagViolation, cs1))
    else if c1.Sealed() then Err(CheriFault(SealViolation, cs1))
    else Ok(c1.(perms := c1.perms * PermMask(rs2), uperms := c1.uperms * UPermMask(rs2)))
  }

  /** Masking twice with the same `rs2` is masking once. */
  lemma CAndPermIdempotent(cs1: RegIdx, c1: Cap, rs2: u64)
    requires CAndPerm(cs1, c1, rs2).Ok?
    ensures CAndPerm(cs1, CAndPerm(cs1, c1, rs2).value, rs2) == CAndPerm(cs1, c1, rs2)
  {
    var once := CAndPerm(cs1, c1, rs2).value;
    assert once.perms * PermMask(rs2) == once.perms;
    assert once.uperms * UPermMask(rs2) == once.uperms;
  }

  /**
   * CSetFlags cd, cs1, rs2: the flags field takes bit 0 of `rs2`.  Only a
   * tagged sealed capability is refused; an untagged one is accepted.
   */
  function CSetFlags(cs1: RegIdx, c1: Cap, rs2: u64): (r: Result<Cap>)
    ensures r.Ok? <==> !(c1.tag && c1.Sealed())
    ensures r.Err? ==> r.fault == CheriFault(SealViolation, cs1)
    ensures r.Ok? ==> r.value.flags == rs2 % 2 && r.value.(flags := c1.flags) == c1
  {
    if c1.tag && c1.Sealed() then Err(CheriFault(SealViolation, cs1))
    else Ok(c1.(flags := rs2 % 2))
  }

  /**
   * The common tail of CSetOffset and CIncOffsetImmediate: keep `c1` if
   * its bounds stay representable at `newCursor`, otherwise start from
   * the null capability; either way the cursor becomes `newCursor`.
   */
  function MoveOrNull(lib: CompressLib, c1: Cap, newCursor: u64): (r: Cap)
    ensures r.cursor == newCursor
    ensures CursorRepresentable(lib, c1, newCursor) ==> r == c1.(cursor := newCursor)
    ensures !CursorRepresentable(lib, c1, newCursor) ==> r == Null(newCursor)
    ensures r.tag ==> c1.tag
  {
    var temp := if !lib.representableNewAddr(c1.Sealed(), c1.base, c1.Length(), c1.cursor, newCursor) then Null(0) else c1;
    temp.(cursor := newCursor)
  }

  /**
   * CSetOffset cd, cs1, rs2: the cursor becomes `base + rs2`; a capability
   * whose bounds would not be representable there becomes null.
   */
  function CSetOffset(lib: CompressLib, cs1: RegIdx, c1: Cap, rs2: u64): (r: Result<Cap>)
    ensures r.Ok? <==> !(c1.tag && c1.Sealed())
    ensures r.Err? ==> r.fault == CheriFault(SealViolation, cs1)
    ensures r.Ok? ==> r.value.cursor == Add64(c1.base, rs2) && (r.value.tag ==> c1.tag)
    ensures r.Ok? && CursorRepresentable(lib, c1, Add64(c1.base, rs2)) ==>
      r.value.Offset() == rs2 && r.value.(cursor := c1.cursor) == c1
    ensures r.Ok? && !CursorRepresentable(lib, c1, Add64(c1.base, rs2)) ==>
      !r.value.tag && r.value.base == 0 && r.value.top == MAX_CHERI_LENGTH && r.value.perms == {}
  {
    if c1.tag && c1.Sealed() then Err(CheriFault(SealViolation, cs1))
    else Ok(MoveOrNull(lib, c1, Add64(c1.base, rs2)))
  }

  /**
   * CIncOffsetImmediate cd, cs1, imm: the cursor moves by the
   * sign-extended 12-bit immediate, modulo 2^64; a capability whose bounds
   * would not be representable there becomes null.
   */
  function CIncOffsetImmediate(lib: CompressLib, cs1: RegIdx, c1: Cap, field: u12): (r: Result<Cap>)
    ensures r.Ok? <==> !(c1.tag && c1.Sealed())
    ensures r.Err? ==> r.fault == CheriFault(SealViolation, cs1)
    ensures r.Ok? ==> r.value.cursor == (c1.cursor + SignExtend12(field)) % TWO64 && (r.value.tag ==> c1.tag)
  {
    if c1.tag && c1.Sealed() then Err(CheriFault(SealViolation, cs1))
    else Ok(MoveOrNull(lib, c1, Add64(c1.cursor, ToU64(SignExtend12(field)))))
  }

  /** Incrementing the offset by an immediate is setting it to the old offset plus the immediate. */
  lemma IncOffsetImmediateIsSetOffset(lib: CompressLib, cs1: RegIdx, c1: Cap, field: u12)
    ensures CIncOffsetImmediate(lib, cs1, c1, field) ==
            CSetOffset(lib, cs1, c1, Add64(c1.Offset(), ToU64(SignExtend12(field))))
  {
    OffsetAdd(c1, ToU64(SignExtend12(field)));
    AddSubCancel(Add64(c1.cursor, ToU64(SignExtend12(field))), c1.base);
  }

  /**
   * CIncOffset cd, cs1, rs2: the offset grows by `rs2`, modulo 2^64, and
   * nothing else changes; there is no representability test, so the tag
   * survives even where CIncOffsetImmediate would clear it.
   */
  function CIncOffset(cs1: RegIdx, c1: Cap, rs2: u64): (r: Result<Cap>)
    ensures r.Ok? <==> !(c1.tag && c1.Sealed())
    ensures r.Err? ==> r.fault == CheriFault(SealViolation, cs1)
    ensures r.Ok? ==> r.value.Offset() == Add64(c1.Offset(), rs2) && r.value.(cursor := c1.cursor) == c1
  {
    OffsetAdd(c1, rs2);
    if c1.tag && c1.Sealed() then Err(CheriFault(SealViolation, cs1))
    else Ok(c1.(cursor := Add64(c1.cursor, rs2)))
  }

  /**
   * Whether CSetAddr's representability test passes: the library is
   * asked about offset `rs2 - base` with a length one greater than the
   * capability's.
   */
  predicate AddrRepresentable(lib: CompressLib, c1: Cap, rs2: u64)
  {
    lib.representableOffsets(c1.Sealed(), c1.base, Add128(c1.Length(), 1), Sub64(rs2, c1.base), Sub64(rs2, c1.base))
  }

  /**
   * CSetAddr cd, cs1, rs2: the address becomes `rs2` with the bounds and
   * permissions kept; only the tag is lost when the result is not
   * representable.
   */
  function CSetAddr(lib: CompressLib, cs1: RegIdx, c1: Cap, rs2: u64): (r: Result<Cap>)
    ensures r.Ok? <==> !(c1.tag && c1.Sealed())
    ensures r.Err? ==> r.fault == CheriFault(SealViolation, cs1)
    ensures r.Ok? ==> r.value.cursor == rs2 && r.value.(cursor := c1.cursor, tag := c1.tag) == c1
    ensures r.Ok? ==> (r.value.tag <==> c1.tag && AddrRepresentable(lib, c1, rs2))
  {
    AddSubCancel(rs2, c1.base);
    if c1.tag && c1.Sealed() then Err(CheriFault(SealViolation, cs1))
    else
      var temp := c1.(cursor := Add64(c1.base, Sub64(rs2, c1.base)));
      if !AddrRepresentable(lib, c1, rs2) then Ok(temp.(tag := false)) else Ok(temp)
  }

  /** CSetAddr and CSetOffset aim at the same address when the offset is `rs2 - base`. */
  lemma SetAddrIsSetOffset(lib: CompressLib, cs1: RegIdx, c1: Cap, rs2: u64)
    ensures CSetAddr(lib, cs1, c1, rs2).Ok? == CSetOffset(lib, cs1, c1, Sub64(rs2, c1.base)).Ok?
    ensures CSetAddr(lib, cs1, c1, rs2).Ok? ==>
      CSetAddr(lib, cs1, c1, rs2).value.cursor == CSetOffset(lib, cs1, c1, Sub64(rs2, c1.base)).value.cursor
  {
    AddSubCancel(rs2, c1.base);
  }

  /**
   * The fault index CFromPtr and CToPtr compute for their authority,
   * `((cs == 0) << 5) | cs`: for DDC this is `0x20`, the index of PCC.
   */
  function AuthIdxAsWritten(cs: nat): (r: RegIdx)
    requires cs < 32
    ensures cs == 0 ==> r == ScrIdx(CHERI_SCR_PCC)
  {
    (if cs == 0 then 0x20 else 0) + cs
  }

  /** As written, a fault on DDC is reported under PCC's index, unlike CBuildCap and the DDC accessors. */
  lemma AuthIdxFindingWitness()
    ensures AuthIdxAsWritten(0) == ScrIdx(CHERI_SCR_PCC) != BoundsInsns.AuthIdx(0) == ScrIdx(CHERI_SCR_DDC)
  {
  }

  /**
   * CFromPtr cd, cs1, rs2: 0 gives the null capability without any test;
   * otherwise the authority (`c1`, or DDC for c0) with its offset set to
   * `rs2`.
   */
  function CFromPtr(lib: CompressLib, ddc: Cap, cs1: nat, c1: Cap, rs2: u64): (r: Result<Cap>)
    requires cs1 < 32
    ensures rs2 == 0 ==> r == Ok(Null(0))
    ensures r.Err? ==> r.fault.CheriFault? && r.fault.reg == BoundsInsns.AuthIdx(cs1)
    ensures rs2 != 0 && !BoundsInsns.AuthOf(cs1, c1, ddc).tag ==>
      r == Err(CheriFault(TagViolation, BoundsInsns.AuthIdx(cs1)))
    ensures rs2 != 0 && BoundsInsns.AuthOf(cs1, c1, ddc).tag && BoundsInsns.AuthOf(cs1, c1, ddc).Sealed() ==>
      r == Err(CheriFault(SealViolation, BoundsInsns.AuthIdx(cs1)))
    ensures rs2 != 0 ==> (r.Ok? <==> BoundsInsns.AuthOf(cs1, c1, ddc).tag && !BoundsInsns.AuthOf(cs1, c1, ddc).Sealed())
    ensures rs2 != 0 && r.Ok? ==> r == Ok(SetOffset(lib, BoundsInsns.AuthOf(cs1, c1, ddc), rs2))
    ensures r.Ok? ==> (r.value.tag ==> BoundsInsns.AuthOf(cs1, c1, ddc).tag)
  {
    var auth := BoundsInsns.AuthOf(cs1, c1, ddc);
    var authidx := BoundsInsns.AuthIdx(cs1);
    if rs2 == 0 then Ok(Null(0))
    else if !auth.tag then Err(CheriFault(TagViolation, authidx))
    else if auth.Sealed() then Err(CheriFault(SealViolation, authidx))
    else Ok(SetOffset(lib, auth, rs2))
  }

  /**
   * CToPtr rd, cs1, cs2: the address of `c1` relative to the base of the
   * authority (`c2`, or DDC for c0), or 0 for an untagged `c1`.
   */
  function CToPtr(ddc: Cap, cs1: RegIdx, c1: Cap, cs2: nat, c2: Cap): (r: Result<u64>)
    requires cs2 < 32
    ensures r.Ok? <==> BoundsInsns.AuthOf(cs2, c2, ddc).tag && !(c1.tag && c1.Sealed())
    ensures r.Err? ==> r.fault == if !BoundsInsns.AuthOf(cs2, c2, ddc).tag
      then CheriFault(TagViolation, BoundsInsns.AuthIdx(cs2)) else CheriFault(SealViolation, cs1)
    ensures r.Ok? && !c1.tag ==> r.value == 0
    ensures r.Ok? && c1.tag ==> Add64(BoundsInsns.AuthOf(cs2, c2, ddc).base, r.value) == c1.cursor
  {
    var auth := BoundsInsns.AuthOf(cs2, c2, ddc);
    if !auth.tag then Err(CheriFault(TagViolation, BoundsInsns.AuthIdx(cs2)))
    else if c1.tag && c1.Sealed() then Err(CheriFault(SealViolation, cs1))
    else Ok(if c1.tag then Sub64(c1.cursor, auth.base) else 0)
  }

  /**
   * Converting a non-zero integer to a capability and back under the same
   * authority gives the integer back, when the library keeps the bounds
   * representable at the new address.
   */
  lemma FromPtrToPtr(lib: CompressLib, ddc: Cap, cs: nat, c: Cap, x: u64)
    requires cs < 32 && x != 0
    requires CFromPtr(lib, ddc, cs, c, x).Ok?
    requires CursorRepresentable(lib, BoundsInsns.AuthOf(cs, c, ddc), Add64(BoundsInsns.AuthOf(cs, c, ddc).base, x))
    ensures CToPtr(ddc, 1, CFromPtr(lib, ddc, cs, c, x).value, cs, c) == Ok(x)
  {
    var auth := BoundsInsns.AuthOf(cs, c, ddc);
    var p := CFromPtr(lib, ddc, cs, c, x).value;
    assert p == auth.(cursor := Add64(auth.base, x), reserved := 0);
    AddSubCancel(x, auth.base);
  }

  /**
   * CCopyType cd, cs1, cs2: `c1` with its address set to the object type
   * of `c2`, which must lie within `c1`'s bounds; an unsealed `c2` gives
   * the null capability with address all ones.
   */
  function CCopyType(cs1: RegIdx, c1: Cap, cs2: RegIdx, c2: Cap): (r: Result<Cap>)
    ensures r.Ok? <==> c1.tag && !c1.Sealed() && (c2.Sealed() ==> c1.base <= c2.otype < c1.top)
    ensures r.Err? ==> r.fault.CheriFault? && r.fault.reg == cs1
    ensures !c1.tag ==> r == Err(CheriFault(TagViolation, cs1))
    ensures c1.tag && c1.Sealed() ==> r == Err(CheriFault(SealViolation, cs1))
    ensures c1.tag && !c1.Sealed() && c2.Sealed() && !(c1.base <= c2.otype < c1.top) ==>
      r == Err(CheriFault(LengthViolation, cs1))
    ensures r.Ok? && !c2.Sealed() ==> r.value == Null(UINT64_MAX)
    ensures r.Ok? && c2.Sealed() ==>
      r.value.cursor == c2.otype && c1.base <= r.value.cursor < c1.top && r.value.(cursor := c1.cursor) == c1
  {
    if !c1.tag then Err(CheriFault(TagViolation, cs1))
    else if c1.Sealed() then Err(CheriFault(SealViolation, cs1))
    else if !c2.Sealed() then Ok(Null(Add64(0, UINT64_MAX)))
    else if c2.otype < c1.base then Err(CheriFault(LengthViolation, cs1))
    else if c2.otype >= Add128(c1.base, c1.Length()) then Err(CheriFault(LengthViolation, cs1))
    else Ok(c1.(cursor := Add64(c1.base, Sub64(c2.otype, c1.base))))
  }

  /** CTestSubset as written: the lengths are compared, not the tops. */
  function CTestSubsetAsWritten(ddc: Cap, cs1: nat, c1: Cap, c2: Cap): (r: u64)
    ensures r <= 1
  {
    var tmp := BoundsInsns.AuthOf(cs1, c1, ddc);
    if tmp.tag != c2.tag || c2.base < tmp.base || c2.Length() > tmp.Length() || !(c2.perms <= tmp.perms)
    then 0 else 1
  }

  /**
   * A region [0x80, 0x180) passes as a subset of [0, 0x100) under the
   * test as written, since its length is smaller; the corrected test
   * refuses it.
   */
  lemma CTestSubsetFindingWitness()
    ensures var tmp := Almighty(0).(top := 0x100);
      var c2 := Almighty(0x80).(base := 0x80, top := 0x180);
      CTestSubsetAsWritten(tmp, 1, tmp, c2) == 1 && c2.top > tmp.top && CTestSubset(tmp, 1, tmp, c2) == 0
  {
  }

  /**
   * CTestSubset rd, cs1, cs2 as evidently intended: 1 exactly when `c2`
   * has the same tag as the reference capability (`c1`, or DDC for c0)
   * and lies within its bounds and permissions.
   */
  function CTestSubset(ddc: Cap, cs1: nat, c1: Cap, c2: Cap): (r: u64)
    ensures r <= 1
    ensures r == 1 <==>
      BoundsInsns.AuthOf(cs1, c1, ddc).tag == c2.tag && BoundsInsns.Within(c2, BoundsInsns.AuthOf(cs1, c1, ddc))
  {
    var tmp := BoundsInsns.AuthOf(cs1, c1, ddc);
    if tmp.tag != c2.tag || c2.base < tmp.base || c2.top > tmp.top || !(c2.perms <= tmp.perms)
    then 0 else 1
  }

  /** Every capability is a subset of itself. */
  lemma CTestSubsetReflexive(c: Cap)
    ensures CTestSubset(c, 1, c, c) == 1
  {
  }

  /** Being a subset is transitive. */
  lemma CTestSubsetTransitive(a: Cap, b: Cap, c: Cap)
    requires CTestSubset(a, 1, a, b) == 1 && CTestSubset(b, 1, b, c) == 1
    ensures CTestSubset(a, 1, a, c) == 1
  {
  }

  /** What AUIPC writes: an integer register, or a capability register in capability mode. */
  datatype AuipcWrite = WriteRd(x: u64) | WriteCd(c: Cap)

  /**
   * AUIPC rd, imm: `pc + u_imm` in the integer register; with the merged
   * register file in capability mode, PCC with that offset in the
   * capability register.  `pcc` is the value the `PCC` accessor reads and
   * `uImm` the already sign-extended immediate.
   */
  function Auipc(lib: CompressLib, mergedRF: bool, pcc: Cap, pc: u64, uImm: u64, xlen: Xlen): (r: AuipcWrite)
    ensures r.WriteCd? <==> mergedRF && pcc.flags != 0
    ensures r.WriteRd? ==> r.x == SextXlen(Add64(uImm, pc), xlen)
    ensures r.WriteCd? ==> (r.c.tag ==> pcc.tag)
    ensures r.WriteCd? && CursorRepresentable(lib, pcc, Add64(pcc.base, Add64(pc, uImm))) ==>
      r.c.cursor == Add64(pcc.base, Add64(pc, uImm)) && r.c.base == pcc.base && r.c.top == pcc.top &&
      r.c.perms == pcc.perms && r.c.tag == pcc.tag
  {
    if mergedRF && pcc.flags != 0 then WriteCd(SetOffset(lib, pcc, Add64(pc, uImm)))
    else WriteRd(SextXlen(Add64(uImm, pc), xlen))
  }
}
