/**
 * The instructions that change the machine state beyond one destination
 * register: CJALR (jump through a capability), CCall (jump through a
 * sealed pair), CSpecialRW (read and write an SCR) and CLC (load a
 * capability from memory).  Each is a method on the `Machine`, with its
 * fault chain stated as a pure function.
 */
module ControlInsns {
  import opened Words
  import opened CapTypes
  import opened Faults
  import opened Checks
  import opened Machine

  /**
   * The checks of CJALR on the target `cb` as written: the end of the
   * first instruction, `cursor + 4`, is computed on `reg_t` and can wrap.
   */
  function JalrCheckAsWritten(cs1: RegNum, cb: Cap): (r: Result<()>)
    ensures r.Ok? ==> cb.tag && !cb.Sealed() && cb.HasPerm(PERMIT_EXECUTE) && cb.base <= cb.cursor
  {
    if !cb.tag then Err(CheriFault(TagViolation, cs1))
    else if cb.Sealed() then Err(CheriFault(SealViolation, cs1))
    else if !cb.HasPerm(PERMIT_EXECUTE) then Err(CheriFault(PermitExecuteViolation, cs1))
    else if cb.cursor < cb.base then Err(CheriFault(LengthViolation, cs1))
    else if Add64(cb.cursor, 4) > cb.top then Err(CheriFault(LengthViolation, cs1))
    else Ok(())
  }

  /**
   * A target two bytes below 2^64 under the almighty capability: as
   * written the sum wraps to 2 and the jump is allowed, though its first
   * instruction would run past the top.
   */
  lemma JalrCheckFindingWitness()
    ensures JalrCheckAsWritten(1, Almighty(UINT64_MAX - 1)).Ok?
    ensures Almighty(UINT64_MAX - 1).cursor + 4 > Almighty(UINT64_MAX - 1).top
    ensures JalrCheck(1, Almighty(UINT64_MAX - 1)) == Err(CheriFault(LengthViolation, 1))
  {
    assert Almighty(UINT64_MAX - 1).HasPerm(PERMIT_EXECUTE);
  }

  /**
   * The checks of CJALR on the target `cb` as evidently intended: tagged,
   * unsealed, executable, and its first four bytes within bounds; the
   * first failing check names `cs1`.
   */
  function JalrCheck(cs1: RegNum, cb: Cap): (r: Result<()>)
    ensures r.Ok? <==>
      cb.tag && !cb.Sealed() && cb.HasPerm(PERMIT_EXECUTE) && cb.base <= cb.cursor && cb.cursor + 4 <= cb.top
    ensures !cb.tag ==> r == Err(CheriFault(TagViolation, cs1))
    ensures cb.tag && cb.Sealed() ==> r == Err(CheriFault(SealViolation, cs1))
    ensures cb.tag && !cb.Sealed() && !cb.HasPerm(PERMIT_EXECUTE) ==> r == Err(CheriFault(PermitExecuteViolation, cs1))
    ensures cb.tag && !cb.Sealed() && cb.HasPerm(PERMIT_EXECUTE) && !(cb.base <= cb.cursor && cb.cursor + 4 <= cb.top) ==>
      r == Err(CheriFault(LengthViolation, cs1))
    ensures r.Err? ==> r.fault.CheriFault? && r.fault.reg == cs1
  {
    if !cb.tag then Err(CheriFault(TagViolation, cs1))
    else if cb.Sealed() then Err(CheriFault(SealViolation, cs1))
    else if !cb.HasPerm(PERMIT_EXECUTE) then Err(CheriFault(PermitExecuteViolation, cs1))
    else if cb.cursor < cb.base then Err(CheriFault(LengthViolation, cs1))
    else if cb.cursor + 4 > cb.top then Err(CheriFault(LengthViolation, cs1))
    else Ok(())
  }

  /** The link capability: PCC with offset `pc + 4`. */
  function LinkCap(pcc: Cap, pc: u64): (r: Cap)
    ensures r.Offset() == Add64(pc, 4)
    ensures r.(cursor := pcc.cursor) == pcc
  {
    AddSubCancel(Add64(pc, 4), pcc.base);
    pcc.(cursor := Add64(pcc.base, Add64(pc, 4)))
  }

  /** The register file after `WRITE_CD(v)`: c0 is never written. */
  function WrittenCd(regs: seq<Cap>, cd: RegNum, v: Cap): seq<Cap>
    requires |regs| == NUM_REGS
  {
    if cd == 0 then regs else regs[cd := v]
  }

  /**
   * CJALR cd, cs1 as evidently intended: after the checks, PCC becomes the
   * target with offset 0, `cd` receives the link capability (the old PCC
   * with offset `pc + 4`), and execution continues at the target's
   * address.
   */
  method CJalr(m: Machine, cd: RegNum, cs1: RegNum, pc: u64) returns (o: Outcome)
    requires m.Valid()
    modifies m, m.creg, m.scr
    ensures m.Valid()
    ensures var cb := old(m.creg[cs1]);
      JalrCheck(cs1, cb).Err? ==>
        o == Trap(JalrCheck(cs1, cb).fault) && m.ccsr == Ccsr(JalrCheck(cs1, cb).fault.cause, cs1) &&
        m.creg[..] == old(m.creg[..]) && m.scr[..] == old(m.scr[..]) &&
        m.State() == old(m.State()).(ccsr := m.ccsr)
    ensures var cb := old(m.creg[cs1]);
      JalrCheck(cs1, cb).Ok? ==>
        && o == Next(cb.cursor)
        && m.scr[..] == old(m.scr[..])[CHERI_SCR_PCC := cb.(cursor := cb.base)]
        && m.creg[..] == WrittenCd(old(m.creg[..]), cd,
             LinkCap(ReadScr(old(m.scr[CHERI_SCR_PCC]), CHERI_SCR_PCC, old(m.pc)), pc))
        && cb.base <= o.npc && o.npc + 4 <= cb.top
        // the new PCC's cursor is its base, so the coupled pc (an offset) is 0
        && m.State() == old(m.State()).(pc := 0)
  {
    var cb := m.creg[cs1];
    var check := JalrCheck(cs1, cb);
    if check.Err? {
      m.RaiseTrap(check.fault);
      return Trap(check.fault);
    }
    var temp := m.GetScr(CHERI_SCR_PCC);
    m.SetScr(CHERI_SCR_PCC, cb.(cursor := cb.base));
    m.WriteCreg(cd, LinkCap(temp, pc));
    var newPcc := m.scr[CHERI_SCR_PCC];
    o := Next(Add64(newPcc.base, cb.Offset()));
  }

  /**
   * CJALR as written: `PCC` names a copy returned by `get_scr`, so the
   * assignment to it changes no state; the SCR file keeps the old PCC and
   * the new pc is the old PCC's base plus the target's offset.
   */
  method CJalrAsWritten(m: Machine, cd: RegNum, cs1: RegNum, pc: u64) returns (o: Outcome)
    requires m.Valid()
    modifies m, m.creg
    ensures m.Valid()
    ensures m.scr[..] == old(m.scr[..])
    ensures var cb := old(m.creg[cs1]);
      JalrCheckAsWritten(cs1, cb).Ok? ==>
        && o == Next(Add64(old(m.scr[CHERI_SCR_PCC]).base, cb.Offset()))
        && m.creg[..] == WrittenCd(old(m.creg[..]), cd,
             LinkCap(ReadScr(old(m.scr[CHERI_SCR_PCC]), CHERI_SCR_PCC, old(m.pc)), pc))
        && m.State() == old(m.State())
    ensures var cb := old(m.creg[cs1]);
      JalrCheckAsWritten(cs1, cb).Err? ==>
        o == Trap(JalrCheckAsWritten(cs1, cb).fault) && m.creg[..] == old(m.creg[..]) &&
        m.State() == old(m.State()).(ccsr := Ccsr(JalrCheckAsWritten(cs1, cb).fault.cause, cs1))
  {
    var cb := m.creg[cs1];
    var check := JalrCheckAsWritten(cs1, cb);
    if check.Err? {
      m.RaiseTrap(check.fault);
      return Trap(check.fault);
    }
    var temp := m.GetScr(CHERI_SCR_PCC);
    var pccCopy := m.GetScr(CHERI_SCR_PCC);
    pccCopy := cb.(cursor := cb.base);
    m.WriteCreg(cd, LinkCap(temp, pc));
    var pcc := m.GetScr(CHERI_SCR_PCC);
    o := Next(Add64(pcc.base, cb.Offset()));
  }

  /**
   * The checks of CCall on the code capability `c2` (register `cs2`,
   * reported as `cd`) and the data capability `c1`: both tagged, both
   * sealed with the same object type, code executable, data not, and the
   * code's address below its top.
   */
  function CCallCheck(cd: RegNum, cs1: RegNum, c1: Cap, c2: Cap): (r: Result<()>)
    ensures r.Ok? <==>
      c1.tag && c2.tag && c1.Sealed() && c2.Sealed() && c1.otype == c2.otype &&
      c2.HasPerm(PERMIT_EXECUTE) && !c1.HasPerm(PERMIT_EXECUTE) && c2.cursor < c2.top
    // the tests in the order the source makes them; the first that fails names the fault
    ensures var t1 := c2.tag; var t2 := t1 && c1.tag; var t3 := t2 && c2.Sealed(); var t4 := t3 && c1.Sealed();
      var t5 := t4 && c2.otype == c1.otype; var t6 := t5 && c2.HasPerm(PERMIT_EXECUTE);
      var t7 := t6 && !c1.HasPerm(PERMIT_EXECUTE);
      && (!t1 ==> r == Err(CheriFault(TagViolation, cd)))
      && (t1 && !c1.tag ==> r == Err(CheriFault(TagViolation, cs1)))
      && (t2 && !c2.Sealed() ==> r == Err(CheriFault(SealViolation, cd)))
      && (t3 && !c1.Sealed() ==> r == Err(CheriFault(SealViolation, cs1)))
      && (t4 && c2.otype != c1.otype ==> r == Err(CheriFault(TypeViolation, cd)))
      && (t5 && !c2.HasPerm(PERMIT_EXECUTE) ==> r == Err(CheriFault(PermitExecuteViolation, cd)))
      && (t6 && c1.HasPerm(PERMIT_EXECUTE) ==> r == Err(CheriFault(PermitExecuteViolation, cs1)))
      && (t7 && c2.cursor >= c2.top ==> r == Err(CheriFault(LengthViolation, cd)))
    ensures r.Err? ==> r.fault.CheriFault? && (r.fault.reg == cd || r.fault.reg == cs1)
  {
    if !c2.tag then Err(CheriFault(TagViolation, cd))
    else if !c1.tag then Err(CheriFault(TagViolation, cs1))
    else if !c2.Sealed() then Err(CheriFault(SealViolation, cd))
    else if !c1.Sealed() then Err(CheriFault(SealViolation, cs1))
    else if c2.otype != c1.otype then Err(CheriFault(TypeViolation, cd))
    else if !c2.HasPerm(PERMIT_EXECUTE) then Err(CheriFault(PermitExecuteViolation, cd))
    else if c1.HasPerm(PERMIT_EXECUTE) then Err(CheriFault(PermitExecuteViolation, cs1))
    else if c2.cursor >= c2.top then Err(CheriFault(LengthViolation, cd))
    else Ok(())
  }

  /**
   * CCall cs1, cs2: after the checks, PCC keeps its own bounds and
   * permissions and takes the code capability's offset, which is also the
   * new pc; x1 receives `pc + 4`.
   */
  method CCall(m: Machine, cd: RegNum, cs1: RegNum, cs2: RegNum, pc: u64) returns (o: Outcome)
    requires m.Valid()
    modifies m, m.scr, m.xreg
    ensures m.Valid()
    ensures var check := CCallCheck(cd, cs1, old(m.creg[cs1]), old(m.creg[cs2]));
      check.Err? ==>
        o == Trap(check.fault) && m.ccsr == Ccsr(check.fault.cause, check.fault.reg) &&
        m.scr[..] == old(m.scr[..]) && m.xreg[..] == old(m.xreg[..]) &&
        m.State() == old(m.State()).(ccsr := m.ccsr)
    ensures var c2 := old(m.creg[cs2]);
      var pcc := old(m.scr[CHERI_SCR_PCC]);
      CCallCheck(cd, cs1, old(m.creg[cs1]), c2).Ok? ==>
        && o == Return(c2.Offset())
        && m.scr[..] == old(m.scr[..])[CHERI_SCR_PCC := pcc.(cursor := Add64(pcc.base, c2.Offset()))]
        && m.State() == old(m.State()).(pc := c2.Offset())
        && m.xreg[..] == old(m.xreg[..])[1 := Add64(pc, 4)]
  {
    var c1 := m.creg[cs1];
    var c2 := m.creg[cs2];
    var check := CCallCheck(cd, cs1, c1, c2);
    if check.Err? {
      m.RaiseTrap(check.fault);
      return Trap(check.fault);
    }
    var temp := m.GetScr(CHERI_SCR_PCC);
    temp := temp.(cursor := Add64(temp.base, c2.Offset()));
    AddSubCancel(c2.Offset(), temp.base);
    m.SetScr(CHERI_SCR_PCC, temp);
    m.WriteXreg(1, Add64(pc, 4));
    o := Return(c2.Offset());
  }

  /** How CSpecialRW treats an SCR: read-only, and whether ACCESS_SYSTEM_REGISTERS is needed. */
  datatype ScrRule = ScrRule(readOnly: bool, needAsr: bool)

  /**
   * The access table of CSpecialRW: PCC is read-only, PCC and DDC are open
   * to all, the twelve trap and scratch SCRs need the
   * ACCESS_SYSTEM_REGISTERS permission, and any other number is not an SCR.
   */
  function ScrAccessRule(chs: ScrNum): (r: Option<ScrRule>)
    ensures r == Some(ScrRule(true, false)) <==> chs == CHERI_SCR_PCC
    ensures r == Some(ScrRule(false, false)) <==> chs == CHERI_SCR_DDC
    ensures r.Some? ==> (r.value.needAsr <==> chs != CHERI_SCR_PCC && chs != CHERI_SCR_DDC)
    ensures r.None? <==> chs !in {0, 1, 4, 5, 6, 7, 12, 13, 14, 15, 28, 29, 30, 31}
  {
    if chs == CHERI_SCR_PCC then Some(ScrRule(true, false))
    else if chs == CHERI_SCR_DDC then Some(ScrRule(false, false))
    else if chs in {CHERI_SCR_UTCC, CHERI_SCR_UTDC, CHERI_SCR_USCRATCHC, CHERI_SCR_UEPCC,
                    CHERI_SCR_STCC, CHERI_SCR_STDC, CHERI_SCR_SSCRATCHC, CHERI_SCR_SEPCC,
                    CHERI_SCR_MTCC, CHERI_SCR_MTDC, CHERI_SCR_MSCRATCHC, CHERI_SCR_MEPCC}
    then Some(ScrRule(false, true))
    else None
  }

  /** Whether a CSpecialRW access under rule `rule` is refused, given PCC's permissions. */
  predicate ScrAccessRefused(rule: ScrRule, cs1: RegNum, pcc: Cap)
  {
    (rule.readOnly && cs1 != 0) || (rule.needAsr && !pcc.HasPerm(PERMIT_ACCESS_SYSTEM_REGISTERS))
  }

  /**
   * CSpecialRW cd, chs, cs1: `cd` receives the SCR's value read before
   * any write, and the SCR receives `cs1`'s; c0 as `cs1` means no write
   * and c0 as `cd` means no read-out.  A refused access raises
   * ACCESS_SYSTEM_REGISTERS naming `chs` and writes nothing.
   */
  method CSpecialRW(m: Machine, cd: RegNum, cs1: RegNum, chs: ScrNum) returns (o: Outcome)
    requires m.Valid()
    modifies m, m.creg, m.scr
    ensures m.Valid()
    ensures ScrAccessRule(chs).None? ==>
      o == Trap(IllegalInstruction) && m.creg[..] == old(m.creg[..]) && m.scr[..] == old(m.scr[..]) &&
      m.State() == old(m.State())
    ensures var pcc := ReadScr(old(m.scr[CHERI_SCR_PCC]), CHERI_SCR_PCC, old(m.pc));
      ScrAccessRule(chs).Some? && ScrAccessRefused(ScrAccessRule(chs).value, cs1, pcc) ==>
        o == Trap(CheriFault(AccessSystemRegistersViolation, chs)) &&
        m.State() == old(m.State()).(ccsr := Ccsr(AccessSystemRegistersViolation, chs)) &&
        m.creg[..] == old(m.creg[..]) && m.scr[..] == old(m.scr[..])
    ensures var pcc := ReadScr(old(m.scr[CHERI_SCR_PCC]), CHERI_SCR_PCC, old(m.pc));
      ScrAccessRule(chs).Some? && !ScrAccessRefused(ScrAccessRule(chs).value, cs1, pcc) ==>
        && o == Fallthrough
        && m.scr[..] == (if cs1 == 0 then old(m.scr[..]) else old(m.scr[..])[chs := old(m.creg[cs1])])
        && m.creg[..] == WrittenCd(old(m.creg[..]), cd, ReadScr(old(m.scr[chs]), chs, old(m.CoupledOffset(chs))))
        && (cs1 != 0 && Coupled(chs) ==> m.CoupledOffset(chs) == old(m.creg[cs1]).Offset())
        && m.State() == (if cs1 == 0 then old(m.State()) else WithCoupledOffset(old(m.State()), chs, old(m.creg[cs1]).Offset()))
  {
    var temp := m.GetScr(chs);
    var rule := ScrAccessRule(chs);
    if rule.None? {
      return Trap(IllegalInstruction);
    }
    var pcc := m.GetScr(CHERI_SCR_PCC);
    if ScrAccessRefused(rule.value, cs1, pcc) {
      var f := CheriFault(AccessSystemRegistersViolation, chs);
      m.RaiseTrap(f);
      return Trap(f);
    }
    if cs1 != 0 {
      m.SetScr(chs, m.creg[cs1]);
    }
    m.WriteCreg(cd, temp);
    o := Fallthrough;
  }

  /**
   * CLC cd, imm(cs1): in capability mode a capability load through `cs1`
   * at offset `imm`; otherwise through DDC at the address in integer
   * register `cs1` plus `imm`.  `cd` receives the loaded capability.
   */
  method CLC(lib: CompressLib, mmu: Mmu, m: Machine, cd: RegNum, cs1: RegNum, field: u12) returns (o: Outcome)
    requires m.Valid()
    modifies m, m.creg
    ensures m.Valid()
    ensures var imm := ToU64(SignExtend12(field));
      var capMode := old(m.scr[CHERI_SCR_PCC]).flags != 0;
      var acc := if capMode
        then MemopToAddr(old(m.creg[cs1]), cs1, imm, CAP_INMEM_BYTES, LoadCapAccess())
        else MemopToAddr(old(m.scr[CHERI_SCR_DDC]), ScrIdx(CHERI_SCR_DDC), Add64(old(m.xreg[cs1]), imm),
                         CAP_INMEM_BYTES, LoadCapAccess());
      && (acc.Err? ==> o == Trap(acc.fault) && m.creg[..] == old(m.creg[..]) &&
                       m.State() == old(m.State()).(ccsr := Ccsr(acc.fault.cause, acc.fault.reg)))
      && (acc.Ok? ==> o == Fallthrough && m.State() == old(m.State()) &&
                      (forall i :: 0 <= i < NUM_REGS && i != cd ==> m.creg[i] == old(m.creg[i])) &&
                      (cd != 0 ==> m.creg[cd].tag == m.GetTagTranslated(mmu.translate(acc.value))) &&
                      // `cd` receives the capability decoded from the stored bits, with the memory tag
                      (cd != 0 ==>
                         m.creg[cd] == FromInMem(lib, mmu.loadInMem(acc.value), m.GetTagTranslated(mmu.translate(acc.value)))))
  {
    var imm := ToU64(SignExtend12(field));
    var r: Result<Cap>;
    if m.CapMode() {
      r := m.CapLoadCap(lib, mmu, m.creg[cs1], cs1, imm);
    } else {
      r := m.DdcLoadCap(lib, mmu, Add64(m.xreg[cs1], imm));
    }
    if r.Err? {
      return Trap(r.fault);
    }
    m.WriteCreg(cd, r.value);
    o := Fallthrough;
  }
}
