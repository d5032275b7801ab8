/**
 * The trap-return instructions MRET and SRET (RISC-V privileged
 * architecture 1.11, section 3.3.2) and DRET (RISC-V external debug
 * support 0.13.2, section 4.6), with the CHERI additions: MRET and SRET
 * restore PCC from MEPCC and SEPCC.
 *
 * `mstatus` is a 64-bit word; each instruction rewrites three of its
 * fields and keeps every other bit.
 */
module TrapReturn {
  import opened Words
  import opened CapTypes
  import opened Faults
  import opened Machine

  const MSTATUS_SIE: bv64 := 0x2
  const MSTATUS_MIE: bv64 := 0x8
  const MSTATUS_SPIE: bv64 := 0x20
  const MSTATUS_MPIE: bv64 := 0x80
  const MSTATUS_SPP: bv64 := 0x100
  const MSTATUS_MPP: bv64 := 0x1800
  const MSTATUS_TSR: bv64 := 0x40_0000

  /** The fields MRET rewrites. */
  const MRET_FIELDS: bv64 := MSTATUS_MIE | MSTATUS_MPIE | MSTATUS_MPP
  /** The fields SRET rewrites. */
  const SRET_FIELDS: bv64 := MSTATUS_SIE | MSTATUS_SPIE | MSTATUS_SPP

  /** `get_field(s, MSTATUS_MPP)`: the privilege the trap came from. */
  function MppOf(s: bv64): (r: Priv)
    ensures r == PRV_U <==> s & MSTATUS_MPP == 0
    ensures r == PRV_M <==> s & MSTATUS_MPP == MSTATUS_MPP
  {
    var f := s & MSTATUS_MPP;
    if f == 0 then PRV_U else if f == 0x800 then PRV_S else if f == 0x1000 then 2 else PRV_M
  }

  /** `get_field(s, MSTATUS_SPP)`: user or supervisor. */
  function SppOf(s: bv64): (r: Priv)
    ensures r == PRV_U <==> s & MSTATUS_SPP == 0
    ensures r == PRV_U || r == PRV_S
  {
    if s & MSTATUS_SPP == 0 then PRV_U else PRV_S
  }

  /** `mstatus` after MRET: MIE := MPIE, MPIE := 1, MPP := U, the rest kept. */
  function MRetStatus(s: bv64): (r: bv64)
    ensures (r & MSTATUS_MIE != 0) <==> (s & MSTATUS_MPIE != 0)
    ensures r & MSTATUS_MPIE == MSTATUS_MPIE
    ensures MppOf(r) == PRV_U
    ensures r & !MRET_FIELDS == s & !MRET_FIELDS
  {
    var mie := if s & MSTATUS_MPIE != 0 then MSTATUS_MIE else 0;
    (s & !MRET_FIELDS) | mie | MSTATUS_MPIE
  }

  /** `mstatus` after SRET: SIE := SPIE, SPIE := 1, SPP := U, the rest kept. */
  function SRetStatus(s: bv64): (r: bv64)
    ensures (r & MSTATUS_SIE != 0) <==> (s & MSTATUS_SPIE != 0)
    ensures r & MSTATUS_SPIE == MSTATUS_SPIE
    ensures SppOf(r) == PRV_U
    ensures r & !SRET_FIELDS == s & !SRET_FIELDS
  {
    var sie := if s & MSTATUS_SPIE != 0 then MSTATUS_SIE else 0;
    (s & !SRET_FIELDS) | sie | MSTATUS_SPIE
  }

  /** MRET and SRET rewrite disjoint fields, so either order gives the same word. */
  lemma RetStatusesCommute(s: bv64)
    ensures MRetStatus(SRetStatus(s)) == SRetStatus(MRetStatus(s))
  {
  }

  /** The privilege SRET demands: machine mode when TSR traps it, else supervisor. */
  function SRetPrivilege(s: bv64): (r: Priv)
    ensures r == PRV_M <==> s & MSTATUS_TSR != 0
    ensures r == PRV_S <==> s & MSTATUS_TSR == 0
  {
    if s & MSTATUS_TSR != 0 then PRV_M else PRV_S
  }

  /**
   * MRET: from machine mode only.  PCC becomes MEPCC (its metadata, with
   * the address rebuilt from `mepc`), execution resumes at `mepc`, the
   * interrupt-enable stack pops and the privilege drops to MPP.
   */
  method MRet(m: Machine) returns (o: Outcome)
    requires m.Valid()
    modifies m, m.scr
    ensures m.Valid()
    ensures old(m.prv) < PRV_M ==>
      o == Trap(IllegalInstruction) && m.scr[..] == old(m.scr[..]) && m.State() == old(m.State())
    ensures old(m.prv) == PRV_M ==>
      && o == Serialized
      && m.scr[..] == old(m.scr[..])[CHERI_SCR_PCC := ReadScr(old(m.scr[CHERI_SCR_MEPCC]), CHERI_SCR_MEPCC, old(m.mepc))]
      && m.pc == old(m.mepc)
      && ReadScr(m.scr[CHERI_SCR_PCC], CHERI_SCR_PCC, m.pc) == ReadScr(old(m.scr[CHERI_SCR_MEPCC]), CHERI_SCR_MEPCC, old(m.mepc))
      && m.mstatus == MRetStatus(old(m.mstatus))
      && m.prv == MppOf(old(m.mstatus))
      && m.State() == old(m.State()).(pc := old(m.mepc), prv := MppOf(old(m.mstatus)), mstatus := MRetStatus(old(m.mstatus)))
  {
    if m.prv < PRV_M {
      return Trap(IllegalInstruction);
    }
    var mepc := m.mepc;
    var epcc := m.GetScr(CHERI_SCR_MEPCC);
    AddSubCancel(mepc, epcc.base);
    m.SetScr(CHERI_SCR_PCC, epcc);
    assert m.CoupledOffset(CHERI_SCR_SEPCC) == old(m.CoupledOffset(CHERI_SCR_SEPCC));
    assert m.CoupledOffset(CHERI_SCR_MEPCC) == old(m.CoupledOffset(CHERI_SCR_MEPCC));
    m.pc := mepc;
    var s := m.mstatus;
    var prevPrv := MppOf(s);
    s := MRetStatus(s);
    m.prv := prevPrv;
    m.mstatus := s;
    o := Serialized;
  }

  /**
   * SRET: needs the S extension and supervisor mode, or machine mode when
   * TSR is set.  Execution resumes at `sepc`, the supervisor
   * interrupt-enable stack pops, the privilege drops to SPP, and PCC
   * becomes SEPCC with the address rebuilt from `sepc`.
   */
  method SRet(m: Machine) returns (o: Outcome)
    requires m.Valid()
    modifies m, m.scr
    ensures m.Valid()
    ensures (!m.hasS || old(m.prv) < SRetPrivilege(old(m.mstatus))) ==>
      o == Trap(IllegalInstruction) && m.scr[..] == old(m.scr[..]) && m.State() == old(m.State())
    ensures (m.hasS && old(m.prv) >= SRetPrivilege(old(m.mstatus))) ==>
      && o == Serialized
      && m.scr[..] == old(m.scr[..])[CHERI_SCR_PCC := ReadScr(old(m.scr[CHERI_SCR_SEPCC]), CHERI_SCR_SEPCC, old(m.sepc))]
      && m.pc == old(m.sepc)
      && ReadScr(m.scr[CHERI_SCR_PCC], CHERI_SCR_PCC, m.pc) == ReadScr(old(m.scr[CHERI_SCR_SEPCC]), CHERI_SCR_SEPCC, old(m.sepc))
      && m.mstatus == SRetStatus(old(m.mstatus))
      && m.prv == SppOf(old(m.mstatus))
      && m.State() == old(m.State()).(pc := old(m.sepc), prv := SppOf(old(m.mstatus)), mstatus := SRetStatus(old(m.mstatus)))
  {
    if !m.hasS || m.prv < SRetPrivilege(m.mstatus) {
      return Trap(IllegalInstruction);
    }
    var sepc := m.sepc;
    m.pc := sepc;
    var s := m.mstatus;
    var prevPrv := SppOf(s);
    s := SRetStatus(s);
    m.prv := prevPrv;
    m.mstatus := s;
    var epcc := m.GetScr(CHERI_SCR_SEPCC);
    AddSubCancel(sepc, epcc.base);
    ghost var before := m.CoupledOffset(CHERI_SCR_MEPCC);
    m.SetScr(CHERI_SCR_PCC, epcc);
    assert m.CoupledOffset(CHERI_SCR_SEPCC) == sepc;
    assert m.CoupledOffset(CHERI_SCR_MEPCC) == before;
    o := Serialized;
  }

  /**
   * DRET: from debug mode only.  Execution resumes at `dpc` rebased onto
   * the stored PCC, the privilege becomes `dcsr.prv`, debug mode ends and
   * single-stepping starts when `dcsr.step` is set.
   */
  method DRet(m: Machine) returns (o: Outcome)
    requires m.Valid()
    modifies m
    ensures m.Valid()
    ensures !old(m.debugMode) ==>
      o == Trap(IllegalInstruction) && m.State() == old(m.State())
    ensures old(m.debugMode) ==>
      && o == Serialized
      && m.pc == Add64(old(m.dpc), m.scr[CHERI_SCR_PCC].base)
      && m.ToArchPc(m.pc) == old(m.dpc)
      && m.prv == old(m.dcsrPrv)
      && !m.debugMode
      && m.singleStep == (if old(m.dcsrStep) then StepStepping else old(m.singleStep))
      && m.State() == old(m.State()).(pc := m.pc, prv := m.prv, debugMode := false, singleStep := m.singleStep)
    ensures m.scr[..] == old(m.scr[..]) && m.mstatus == old(m.mstatus)
  {
    if !m.debugMode {
      return Trap(IllegalInstruction);
    }
    var dpc := m.FromArchPc(m.dpc);
    ArchPcRoundTrip(m, m.dpc);
    m.pc := dpc;
    m.prv := m.dcsrPrv;
    m.debugMode := false;
    if m.dcsrStep {
      m.singleStep := StepStepping;
    }
    o := Serialized;
  }
}
