/**
 * The state the CHERI extension (`cheri_t`) keeps and updates in place, and
 * the part of the hart's state (`processor_t`) its instructions touch: the
 * capability register file, the special capability register (SCR) file,
 * the integer registers, the tag memory, the capability cause register,
 * the pc and the trap CSRs coupled to the code capabilities.
 *
 * Four SCRs are stored split in two: the SCR file keeps the bounds and
 * metadata, and a hart register keeps the offset (pc for PCC, stvec for
 * STCC, sepc for SEPCC, mtvec for MTCC, mepc for MEPCC).  `SetScr` splits
 * a capability that way and `GetScr` joins it back.
 */
module Machine {
  import opened Words
  import opened CapTypes
  import opened Faults
  import opened Tags
  import opened Checks

  const NUM_REGS: nat := 32

  /** A capability or integer register number. */
  type RegNum = x: nat | x < 32

  /** Privilege levels (RISC-V privileged architecture 1.11, section 1.2). */
  type Priv = x: nat | x <= 3
  const PRV_U: Priv := 0
  const PRV_S: Priv := 1
  const PRV_M: Priv := 3

  /** `single_step`: the debug single-step state. */
  datatype StepState = StepNone | StepStepping | StepStepped

  /**
   * What executing one instruction hands back to the fetch loop: fall
   * through to the next instruction, the `npc` set by `set_pc`, a pc
   * returned directly, `PC_SERIALIZE_AFTER` once the pc is already in
   * `STATE.pc`, or the exception thrown.
   */
  datatype Outcome = Fallthrough | Next(npc: u64) | Return(target: u64) | Serialized | Trap(fault: Fault)

  /** The SCRs whose offset lives in a hart register rather than in the SCR file. */
  predicate Coupled(index: ScrNum)
  {
    index == CHERI_SCR_PCC || index == CHERI_SCR_STCC || index == CHERI_SCR_SEPCC ||
    index == CHERI_SCR_MTCC || index == CHERI_SCR_MEPCC
  }

  /**
   * The scalar state of the hart and of the extension: everything the
   * instructions touch except the register files and the tags.
   */
  datatype HartState = HartState(
    ccsr: u64, clen: nat,
    pc: u64, stvec: u64, sepc: u64, mtvec: u64, mepc: u64,
    prv: Priv, mstatus: bv64,
    debugMode: bool, dpc: u64, dcsrPrv: Priv, dcsrStep: bool, singleStep: StepState)

  /** `s` with the hart register that holds the offset of SCR `index` set to `offset`; `s` itself for an uncoupled SCR. */
  function WithCoupledOffset(s: HartState, index: ScrNum, offset: u64): HartState
  {
    if index == CHERI_SCR_PCC then s.(pc := offset)
    else if index == CHERI_SCR_STCC then s.(stvec := offset)
    else if index == CHERI_SCR_SEPCC then s.(sepc := offset)
    else if index == CHERI_SCR_MTCC then s.(mtvec := offset)
    else if index == CHERI_SCR_MEPCC then s.(mepc := offset)
    else s
  }

  /**
   * The capability `get_scr` evidently means to return: the stored one,
   * with its cursor rebuilt from the hart register for a coupled SCR.
   */
  function ReadScr(stored: Cap, index: ScrNum, coupledOffset: u64): (r: Cap)
    ensures r.base == stored.base && r.top == stored.top && r.perms == stored.perms
    ensures r.tag == stored.tag && r.otype == stored.otype
    ensures !Coupled(index) ==> r == stored
  {
    if Coupled(index) then stored.(cursor := Add64(stored.base, coupledOffset)) else stored
  }

  /**
   * `get_scr` as written: the cursor is always rebuilt as `base + offset`,
   * with offset 0 for an SCR that is not coupled.
   */
  function ReadScrAsWritten(stored: Cap, index: ScrNum, coupledOffset: u64): (r: Cap)
    ensures !Coupled(index) ==> r.cursor == stored.base
  {
    var offset := if Coupled(index) then coupledOffset else 0;
    stored.(cursor := Add64(stored.base, offset))
  }

  /**
   * Writing an SCR and reading it back returns the capability written:
   * `set_scr` stores the offset of a coupled SCR in its hart register,
   * and joining that offset back onto the base restores the cursor.
   */
  lemma ScrRoundTrip(v: Cap, index: ScrNum)
    ensures ReadScr(v, index, v.Offset()) == v
  {
  }

  /**
   * As written, an SCR that is not coupled loses its cursor on the way
   * back: writing the almighty capability with cursor 0x1000 to DDC and
   * reading it gives cursor 0.
   */
  lemma ScrRoundTripFailsAsWritten()
    ensures ReadScrAsWritten(Almighty(0x1000), CHERI_SCR_DDC, Almighty(0x1000).Offset()) != Almighty(0x1000)
  {
    assert ReadScrAsWritten(Almighty(0x1000), CHERI_SCR_DDC, Almighty(0x1000).Offset()).cursor == 0;
  }

  /** The SCRs `reset` gives every permission: the code capabilities and DDC. */
  const ALMIGHTY_AT_RESET: set<ScrNum> := {
    CHERI_SCR_PCC, CHERI_SCR_DDC, CHERI_SCR_UTCC, CHERI_SCR_UEPCC,
    CHERI_SCR_STCC, CHERI_SCR_SEPCC, CHERI_SCR_MTCC, CHERI_SCR_MEPCC}
  /** The SCRs `reset` sets to the null capability: the trap data and scratch capabilities. */
  const NULL_AT_RESET: set<ScrNum> := {
    CHERI_SCR_UTDC, CHERI_SCR_USCRATCHC, CHERI_SCR_STDC, CHERI_SCR_SSCRATCHC,
    CHERI_SCR_MTDC, CHERI_SCR_MSCRATCHC}

  /** The value `reset` leaves in SCR `i` (a slot it does not name keeps the cleared value). */
  function ResetScr(i: ScrNum): (c: Cap)
    ensures i == CHERI_SCR_PCC || i == CHERI_SCR_DDC ==> c == Almighty(0)
    ensures c.tag <==> i in ALMIGHTY_AT_RESET
    // every reset SCR has flags 0, so a reset hart runs in integer (not capability) mode
    ensures c.flags == 0
    ensures c.tag ==> !c.Sealed() && c.HasPerm(PERMIT_EXECUTE) && c.base == 0 && c.top == MAX_CHERI_LENGTH
  {
    ResetScrFile()[i]
  }

  /** The SCR file as `reset` leaves it: cleared, then fourteen slots written. */
  function ResetScrFile(): (f: seq<Cap>)
    ensures |f| == NUM_REGS
    ensures forall i: ScrNum :: i in ALMIGHTY_AT_RESET ==> f[i] == Almighty(0)
    ensures forall i: ScrNum :: i in NULL_AT_RESET ==> f[i] == Null(0)
    ensures forall i: ScrNum :: i !in ALMIGHTY_AT_RESET && i !in NULL_AT_RESET ==> f[i] == ZeroCap()
  {
    seq(NUM_REGS, _ => ZeroCap())
      [CHERI_SCR_PCC := Almighty(0)]
      [CHERI_SCR_DDC := Almighty(0)]
      [CHERI_SCR_UTCC := Almighty(0)]
      [CHERI_SCR_UTDC := Null(0)]
      [CHERI_SCR_USCRATCHC := Null(0)]
      [CHERI_SCR_UEPCC := Almighty(0)]
      [CHERI_SCR_STCC := Almighty(0)]
      [CHERI_SCR_STDC := Null(0)]
      [CHERI_SCR_SSCRATCHC := Null(0)]
      [CHERI_SCR_SEPCC := Almighty(0)]
      [CHERI_SCR_MTCC := Almighty(0)]
      [CHERI_SCR_MTDC := Null(0)]
      [CHERI_SCR_MSCRATCHC := Null(0)]
      [CHERI_SCR_MEPCC := Almighty(0)]
  }

  /** After reset, the default data capability authorises every kind of access. */
  lemma ResetDdcAuthorisesEverything(a: Access)
    ensures Authorises(ResetScr(CHERI_SCR_DDC), a)
  {
    var c := ResetScr(CHERI_SCR_DDC);
    forall i | 0 <= i < |Priority()|
      ensures Applies(Priority()[i], a) ==> Met(Priority()[i], c)
    {
      assert c.HasPerm(PERMIT_LOAD) && c.HasPerm(PERMIT_LOAD_CAPABILITY);
      assert c.HasPerm(PERMIT_STORE) && c.HasPerm(PERMIT_STORE_LOCAL_CAPABILITY);
    }
  }

  /** Spike's memory system, as the CHERI extension uses it. */
  datatype Mmu = Mmu(
    /** virtual to physical address (the `paddr` out-parameter of the accesses) */
    translate: u64 -> u64,
    /** `load_cheri_reg_inmem`: the compressed capability at a virtual address */
    loadInMem: u64 -> InMem,
    /** `load_<type>`: the value of `size` bytes at a virtual address */
    loadData: (u64, nat) -> u64)

  /** `sizeof(cheri_reg_inmem_t)`: the bytes a capability occupies in memory. */
  const CAP_INMEM_BYTES: u64 := 16
  /** `sizeof(cheri_reg_t)` on an LP64 host: the 16-byte-aligned register form. */
  const CHERI_REG_T_BYTES: u64 := 64

  class Machine {
    /** `state.reg_file`: capability registers, c0 hard-wired. */
    const creg: array<Cap>
    /** `state.scrs_reg_file`: special capability registers. */
    const scr: array<Cap>
    /** `STATE.XPR`: integer registers, x0 hard-wired. */
    const xreg: array<u64>
    /** `mem_tags`. */
    const tagMem: TagMemory
    /** `ccsr`: the capability cause register. */
    var ccsr: u64
    /** `clen`: the capability width in bits. */
    var clen: nat
    /** `STATE.pc` and the trap CSRs coupled to code capabilities. */
    var pc: u64
    var stvec: u64
    var sepc: u64
    var mtvec: u64
    var mepc: u64
    /** `STATE.prv`, `STATE.mstatus` and the debug state `dret` uses. */
    var prv: Priv
    var mstatus: bv64
    var debugMode: bool
    var dpc: u64
    var dcsrPrv: Priv
    var dcsrStep: bool
    var singleStep: StepState
    /** `get_xlen()` and `supports_extension('S')`. */
    const xlen: Xlen
    const hasS: bool

    ghost predicate Valid()
      reads this, tagMem
    {
      creg.Length == NUM_REGS && scr.Length == NUM_REGS && xreg.Length == NUM_REGS &&
      creg != scr && tagMem.Valid()
    }

    constructor (xlen: Xlen, hasS: bool)
      ensures Valid() && fresh(creg) && fresh(scr) && fresh(xreg) && fresh(tagMem) && fresh(tagMem.tags)
      ensures this.xlen == xlen && this.hasS == hasS
      ensures ccsr == 0 && clen == 0
    {
      creg := new Cap[NUM_REGS](_ => ZeroCap());
      scr := new Cap[NUM_REGS](_ => ZeroCap());
      xreg := new u64[NUM_REGS](_ => 0);
      tagMem := new TagMemory();
      ccsr, clen := 0, 0;
      pc, stvec, sepc, mtvec, mepc := 0, 0, 0, 0, 0;
      prv, mstatus := PRV_M, 0;
      debugMode, dpc, dcsrPrv, dcsrStep, singleStep := false, 0, PRV_M, false, StepNone;
      this.xlen, this.hasS := xlen, hasS;
    }

    /** The hart register holding the offset of a coupled SCR. */
    function CoupledOffset(index: ScrNum): u64
      reads this
    {
      if index == CHERI_SCR_PCC then pc
      else if index == CHERI_SCR_STCC then stvec
      else if index == CHERI_SCR_SEPCC then sepc
      else if index == CHERI_SCR_MTCC then mtvec
      else if index == CHERI_SCR_MEPCC then mepc
      else 0
    }

    /** The scalar fields, as one value. */
    function State(): HartState
      reads this
    {
      HartState(ccsr, clen, pc, stvec, sepc, mtvec, mepc, prv, mstatus, debugMode, dpc, dcsrPrv, dcsrStep, singleStep)
    }

    /**
     * `reset()`: clear the tags, `ccsr` and both register files, give
     * the code and default data capabilities every permission, clear the
     * scratch and trap data capabilities, and set `clen` to 2 * xlen.
     */
    method Reset()
      requires Valid()
      modifies this, creg, scr, tagMem.tags
      ensures Valid()
      ensures forall i :: 0 <= i < tagMem.tags.Length ==> !tagMem.tags[i]
      ensures creg[..] == seq(NUM_REGS, _ => ZeroCap())
      ensures scr[..] == ResetScrFile()
      ensures State() == old(State()).(ccsr := 0, clen := 2 * xlen)
      ensures Valid() && !CapMode()
      ensures xreg[..] == old(xreg[..])
    {
      tagMem.Reset();
      ccsr := 0;
      ClearRegisterFiles();
      WriteResetScrs();
      clen := 2 * xlen;
    }

    /** `reg_file.reset()` and `scrs_reg_file.reset()`: every slot cleared. */
    method ClearRegisterFiles()
      requires Valid()
      modifies creg, scr
      ensures creg[..] == seq(NUM_REGS, _ => ZeroCap())
      ensures scr[..] == seq(NUM_REGS, _ => ZeroCap())
    {
      var i := 0;
      while i < NUM_REGS
        invariant 0 <= i <= NUM_REGS
        invariant forall k :: 0 <= k < i ==> creg[k] == ZeroCap() && scr[k] == ZeroCap()
      {
        creg[i] := ZeroCap();
        scr[i] := ZeroCap();
        i := i + 1;
      }
    }

    /** The fourteen SCR writes of `reset`, onto a cleared SCR file. */
    method WriteResetScrs()
      requires Valid()
      requires scr[..] == seq(NUM_REGS, _ => ZeroCap())
      modifies scr
      ensures scr[..] == ResetScrFile()
    {
      scr[CHERI_SCR_PCC] := Almighty(0);
      scr[CHERI_SCR_DDC] := Almighty(0);
      scr[CHERI_SCR_UTCC] := Almighty(0);
      scr[CHERI_SCR_UTDC] := Null(0);
      scr[CHERI_SCR_USCRATCHC] := Null(0);
      scr[CHERI_SCR_UEPCC] := Almighty(0);
      scr[CHERI_SCR_STCC] := Almighty(0);
      scr[CHERI_SCR_STDC] := Null(0);
      scr[CHERI_SCR_SSCRATCHC] := Null(0);
      scr[CHERI_SCR_SEPCC] := Almighty(0);
      scr[CHERI_SCR_MTCC] := Almighty(0);
      scr[CHERI_SCR_MTDC] := Null(0);
      scr[CHERI_SCR_MSCRATCHC] := Null(0);
      scr[CHERI_SCR_MEPCC] := Almighty(0);
    }

    /**
     * `set_scr(index, val)`: store the capability; for a coupled SCR also
     * store its offset in the hart register.
     */
    method SetScr(index: ScrNum, val: Cap)
      requires Valid()
      modifies this, scr
      ensures Valid()
      ensures scr[..] == old(scr[..])[index := val]
      ensures Coupled(index) ==> CoupledOffset(index) == val.Offset()
      ensures forall j: ScrNum :: j != index ==> CoupledOffset(j) == old(CoupledOffset(j))
      ensures State() == WithCoupledOffset(old(State()), index, val.Offset())
    {
      scr[index] := val;
      var offset := Sub64(val.cursor, val.base);
      if index == CHERI_SCR_PCC {
        pc := offset;
      } else if index == CHERI_SCR_STCC {
        stvec := offset;
      } else if index == CHERI_SCR_SEPCC {
        sepc := offset;
      } else if index == CHERI_SCR_MTCC {
        mtvec := offset;
      } else if index == CHERI_SCR_MEPCC {
        mepc := offset;
      }
    }

    /** `get_scr(index)` as it is evidently meant to behave. */
    method GetScr(index: ScrNum) returns (r: Cap)
      requires Valid()
      ensures r == ReadScr(scr[index], index, CoupledOffset(index))
    {
      r := scr[index];
      if Coupled(index) {
        r := r.(cursor := Add64(r.base, CoupledOffset(index)));
      }
    }

    /** `get_scr(index)` as written. */
    method GetScrAsWritten(index: ScrNum) returns (r: Cap)
      requires Valid()
      ensures r == ReadScrAsWritten(scr[index], index, CoupledOffset(index))
    {
      r := scr[index];
      var offset := 0;
      if Coupled(index) {
        offset := CoupledOffset(index);
      }
      r := r.(cursor := Add64(r.base, offset));
    }

    /** `raise_trap(code, reg)`: record the fault in `ccsr` (the throw is the caller's `Err`). */
    method RaiseTrap(f: Fault)
      modifies this`ccsr
      ensures f.CheriFault? ==> ccsr == Ccsr(f.cause, f.reg)
      ensures !f.CheriFault? ==> ccsr == old(ccsr)
    {
      if f.CheriFault? {
        ccsr := Ccsr(f.cause, f.reg);
      }
    }

    /** `reg_file.write(i, v)`: a write to c0 is dropped. */
    method WriteCreg(i: RegNum, v: Cap)
      requires Valid()
      modifies creg
      ensures creg[..] == if i == 0 then old(creg[..]) else old(creg[..])[i := v]
    {
      if i != 0 {
        creg[i] := v;
      }
    }

    /** `XPR.write(i, v)`: a write to x0 is dropped. */
    method WriteXreg(i: RegNum, v: u64)
      requires Valid()
      modifies xreg
      ensures xreg[..] == if i == 0 then old(xreg[..]) else old(xreg[..])[i := v]
    {
      if i != 0 {
        xreg[i] := v;
      }
    }

    /** `get_mode()`: capability mode is the flag bit of the stored PCC. */
    predicate CapMode()
      requires Valid()
      reads this, tagMem, scr
    {
      scr[CHERI_SCR_PCC].flags != 0
    }

    /** `from_arch_pc(pc)`: an offset into the stored PCC to an address. */
    function FromArchPc(archPc: u64): u64
      requires Valid()
      reads this, tagMem, scr
    {
      Add64(archPc, scr[CHERI_SCR_PCC].base)
    }

    /** `to_arch_pc(pc)`: an address to an offset into the stored PCC. */
    function ToArchPc(addr: u64): u64
      requires Valid()
      reads this, tagMem, scr
    {
      Sub64(addr, scr[CHERI_SCR_PCC].base)
    }

    /** `get_tag_translated(paddr)`: no tag outside the tagged DRAM. */
    function GetTagTranslated(paddr: u64): bool
      requires Valid()
      reads this, tagMem, tagMem.tags
    {
      match GranuleOf(paddr)
      case None => false
      case Some(g) => tagMem.tags[g]
    }

    /** `set_tag_translated(paddr, val)`: a write outside the tagged DRAM is dropped. */
    method SetTagTranslated(paddr: u64, val: bool)
      requires Valid()
      modifies tagMem.tags
      ensures Valid()
      ensures GranuleOf(paddr).Some? ==> tagMem.tags[..] == old(tagMem.tags[..])[GranuleOf(paddr).value := val]
      ensures GranuleOf(paddr).None? ==> tagMem.tags[..] == old(tagMem.tags[..])
    {
      match GranuleOf(paddr)
      case None =>
      case Some(g) => tagMem.SetTag(g, val);
    }

    /**
     * `cap_load_cap(auth, authidx, offset)` reading `len` bytes' worth of
     * authority: check, load the compressed form, decompress it, and tag it
     * with the stored tag if `auth` may load capabilities.
     */
    method LoadCapOfLength(lib: CompressLib, mmu: Mmu, auth: Cap, authidx: RegIdx, offset: u64, len: u64)
      returns (r: Result<Cap>)
      requires Valid()
      modifies this`ccsr
      ensures var m := MemopToAddr(auth, authidx, offset, len, LoadCapAccess());
        && (r.Ok? <==> m.Ok?)
        && (m.Err? ==> r == Err(m.fault) && ccsr == Ccsr(m.fault.cause, m.fault.reg))
        && (m.Ok? ==> r.value.tag == GetTagTranslated(mmu.translate(m.value)) && ccsr == old(ccsr))
        && (m.Ok? ==> r.value == FromInMem(lib, mmu.loadInMem(m.value), GetTagTranslated(mmu.translate(m.value))))
    {
      var m := MemopToAddr(auth, authidx, offset, len, LoadCapAccess());
      if m.Err? {
        RaiseTrap(m.fault);
        return Err(m.fault);
      }
      var paddr := mmu.translate(m.value);
      var inmem := mmu.loadInMem(m.value);
      var ret := SetCapLib(lib.decompress(inmem.pesbt, inmem.cursor));
      ret := ret.(tag := auth.HasPerm(PERMIT_LOAD_CAPABILITY) && GetTagTranslated(paddr));
      return Ok(ret);
    }

    /** `cap_load_cap` with the authority checked over the 16 bytes of a stored capability. */
    method CapLoadCap(lib: CompressLib, mmu: Mmu, auth: Cap, authidx: RegIdx, offset: u64)
      returns (r: Result<Cap>)
      requires Valid()
      modifies this`ccsr
      ensures var m := MemopToAddr(auth, authidx, offset, CAP_INMEM_BYTES, LoadCapAccess());
        && (r.Ok? <==> m.Ok?)
        && (m.Err? ==> r == Err(m.fault) && ccsr == Ccsr(m.fault.cause, m.fault.reg))
        && (m.Ok? ==> r.value.tag == GetTagTranslated(mmu.translate(m.value)) && ccsr == old(ccsr))
        && (m.Ok? ==> r.value == FromInMem(lib, mmu.loadInMem(m.value), GetTagTranslated(mmu.translate(m.value))))
    {
      r := LoadCapOfLength(lib, mmu, auth, authidx, offset, CAP_INMEM_BYTES);
    }

    /** `cap_load_cap` as written: the authority is checked over `sizeof(cheri_reg_t)` bytes. */
    method CapLoadCapAsWritten(lib: CompressLib, mmu: Mmu, auth: Cap, authidx: RegIdx, offset: u64)
      returns (r: Result<Cap>)
      requires Valid()
      modifies this`ccsr
      ensures var m := MemopToAddr(auth, authidx, offset, CHERI_REG_T_BYTES, LoadCapAccess());
        && (r.Ok? <==> m.Ok?)
        && (m.Err? ==> r == Err(m.fault) && ccsr == Ccsr(m.fault.cause, m.fault.reg))
        && (m.Ok? ==> r.value.tag == GetTagTranslated(mmu.translate(m.value)) && ccsr == old(ccsr))
        && (m.Ok? ==> r.value == FromInMem(lib, mmu.loadInMem(m.value), GetTagTranslated(mmu.translate(m.value))))
    {
      r := LoadCapOfLength(lib, mmu, auth, authidx, offset, CHERI_REG_T_BYTES);
    }

    /** `ddc_load_cap(addr)`: `cap_load_cap` under the stored DDC. */
    method DdcLoadCap(lib: CompressLib, mmu: Mmu, addr: u64) returns (r: Result<Cap>)
      requires Valid()
      modifies this`ccsr
      ensures var m := MemopToAddr(scr[CHERI_SCR_DDC], ScrIdx(CHERI_SCR_DDC), addr, CAP_INMEM_BYTES, LoadCapAccess());
        && (r.Ok? <==> m.Ok?)
        && (m.Err? ==> r == Err(m.fault) && ccsr == Ccsr(m.fault.cause, m.fault.reg))
        && (m.Ok? ==> r.value.tag == GetTagTranslated(mmu.translate(m.value)) && ccsr == old(ccsr))
        && (m.Ok? ==> r.value == FromInMem(lib, mmu.loadInMem(m.value), GetTagTranslated(mmu.translate(m.value))))
    {
      r := CapLoadCap(lib, mmu, scr[CHERI_SCR_DDC], ScrIdx(CHERI_SCR_DDC), addr);
    }

    /** `cap_load_<type>(auth, authidx, offset)`: a `size`-byte data load. */
    method CapLoad(mmu: Mmu, auth: Cap, authidx: RegIdx, offset: u64, size: u64) returns (r: Result<u64>)
      requires Valid()
      modifies this`ccsr
      ensures var m := MemopToAddr(auth, authidx, offset, size, DataAccess(true));
        && (r.Ok? <==> m.Ok?)
        && (m.Ok? ==> r.value == mmu.loadData(m.value, size) && ccsr == old(ccsr))
        && (m.Err? ==> r == Err(m.fault) && ccsr == Ccsr(m.fault.cause, m.fault.reg))
    {
      var m := MemopToAddr(auth, authidx, offset, size, DataAccess(true));
      if m.Err? {
        RaiseTrap(m.fault);
        return Err(m.fault);
      }
      return Ok(mmu.loadData(m.value, size));
    }

    /** `ddc_load_<type>(addr)`. */
    method DdcLoad(mmu: Mmu, addr: u64, size: u64) returns (r: Result<u64>)
      requires Valid()
      modifies this`ccsr
      ensures var m := MemopToAddr(scr[CHERI_SCR_DDC], ScrIdx(CHERI_SCR_DDC), addr, size, DataAccess(true));
        && (r.Ok? <==> m.Ok?)
        && (m.Ok? ==> r.value == mmu.loadData(m.value, size) && ccsr == old(ccsr))
        && (m.Err? ==> r == Err(m.fault) && ccsr == Ccsr(m.fault.cause, m.fault.reg))
    {
      r := CapLoad(mmu, scr[CHERI_SCR_DDC], ScrIdx(CHERI_SCR_DDC), addr, size);
    }

    /**
     * `cap_store_<type>(auth, authidx, offset, val)`: a `size`-byte data
     * store, which clears the tag of the granule it lands in.
     */
    method CapStore(mmu: Mmu, auth: Cap, authidx: RegIdx, offset: u64, size: u64) returns (r: Result<()>)
      requires Valid()
      modifies this`ccsr, tagMem.tags
      ensures Valid()
      ensures var m := MemopToAddr(auth, authidx, offset, size, DataAccess(false));
        && (r.Ok? <==> m.Ok?)
        && (m.Ok? ==> !GetTagTranslated(mmu.translate(m.value)) && ccsr == old(ccsr))
        && (m.Ok? ==> forall q: u64 :: GranuleOf(q) != GranuleOf(mmu.translate(m.value)) ==>
                        GetTagTranslated(q) == old(GetTagTranslated(q)))
        && (m.Err? ==> r == Err(m.fault) && tagMem.tags[..] == old(tagMem.tags[..]) && ccsr == Ccsr(m.fault.cause, m.fault.reg))
    {
      var m := MemopToAddr(auth, authidx, offset, size, DataAccess(false));
      if m.Err? {
        RaiseTrap(m.fault);
        return Err(m.fault);
      }
      var paddr := mmu.translate(m.value);
      SetTagTranslated(paddr, false);
      return Ok(());
    }

    /** `ddc_store_<type>(addr, val)`. */
    method DdcStore(mmu: Mmu, addr: u64, size: u64) returns (r: Result<()>)
      requires Valid()
      modifies this`ccsr, tagMem.tags
      ensures Valid()
      ensures var m := MemopToAddr(scr[CHERI_SCR_DDC], ScrIdx(CHERI_SCR_DDC), addr, size, DataAccess(false));
        && (r.Ok? <==> m.Ok?)
        && (m.Ok? ==> !GetTagTranslated(mmu.translate(m.value)) && ccsr == old(ccsr))
        && (m.Ok? ==> forall q: u64 :: GranuleOf(q) != GranuleOf(mmu.translate(m.value)) ==>
                        GetTagTranslated(q) == old(GetTagTranslated(q)))
        && (m.Err? ==> r == Err(m.fault) && tagMem.tags[..] == old(tagMem.tags[..]) && ccsr == Ccsr(m.fault.cause, m.fault.reg))
    {
      r := CapStore(mmu, scr[CHERI_SCR_DDC], ScrIdx(CHERI_SCR_DDC), addr, size);
    }

    /**
     * `cap_store_cap(auth, authidx, offset, val)`: storing a tagged local
     * capability needs the store-local permission; the granule's tag
     * becomes the stored capability's tag.
     */
    method CapStoreCap(mmu: Mmu, auth: Cap, authidx: RegIdx, offset: u64, val: Cap)
      returns (r: Result<()>)
      requires Valid()
      modifies this`ccsr, tagMem.tags
      ensures Valid()
      ensures var m := MemopToAddr(auth, authidx, offset, CAP_INMEM_BYTES, StoreCapAccess(val));
        && (r.Ok? <==> m.Ok?)
        && (m.Ok? ==> GetTagTranslated(mmu.translate(m.value)) == (val.tag && GranuleOf(mmu.translate(m.value)).Some?))
        && (m.Ok? ==> ccsr == old(ccsr))
        && (m.Ok? ==> forall q: u64 :: GranuleOf(q) != GranuleOf(mmu.translate(m.value)) ==>
                        GetTagTranslated(q) == old(GetTagTranslated(q)))
        && (m.Err? ==> r == Err(m.fault) && tagMem.tags[..] == old(tagMem.tags[..]) && ccsr == Ccsr(m.fault.cause, m.fault.reg))
    {
      var m := MemopToAddr(auth, authidx, offset, CAP_INMEM_BYTES, StoreCapAccess(val));
      if m.Err? {
        RaiseTrap(m.fault);
        return Err(m.fault);
      }
      var paddr := mmu.translate(m.value);
      SetTagTranslated(paddr, val.tag);
      return Ok(());
    }

    /** `ddc_store_cap(addr, val)`. */
    method DdcStoreCap(mmu: Mmu, addr: u64, val: Cap) returns (r: Result<()>)
      requires Valid()
      modifies this`ccsr, tagMem.tags
      ensures Valid()
      ensures var m := MemopToAddr(scr[CHERI_SCR_DDC], ScrIdx(CHERI_SCR_DDC), addr, CAP_INMEM_BYTES, StoreCapAccess(val));
        && (r.Ok? <==> m.Ok?)
        && (m.Ok? ==> GetTagTranslated(mmu.translate(m.value)) == (val.tag && GranuleOf(mmu.translate(m.value)).Some?))
        && (m.Ok? ==> ccsr == old(ccsr))
        && (m.Ok? ==> forall q: u64 :: GranuleOf(q) != GranuleOf(mmu.translate(m.value)) ==>
                        GetTagTranslated(q) == old(GetTagTranslated(q)))
        && (m.Err? ==> r == Err(m.fault) && tagMem.tags[..] == old(tagMem.tags[..]) && ccsr == Ccsr(m.fault.cause, m.fault.reg))
    {
      r := CapStoreCap(mmu, scr[CHERI_SCR_DDC], ScrIdx(CHERI_SCR_DDC), addr, val);
    }
  }

  /** The access `cap_load_cap` requests. */
  function LoadCapAccess(): (a: Access)
    ensures WellFormedAccess(a)
  {
    Access(true, false, false, true, false)
  }

  /** The access a data load (`load`) or data store (`!load`) requests. */
  function DataAccess(load: bool): (a: Access)
    ensures WellFormedAccess(a)
  {
    Access(load, !load, false, false, false)
  }

  /** The access `cap_store_cap` requests: local when storing a tagged capability without the global permission. */
  function StoreCapAccess(val: Cap): (a: Access)
    ensures WellFormedAccess(a)
    ensures a.storeLocal <==> val.tag && !val.HasPerm(PERMIT_GLOBAL)
  {
    Access(false, true, false, true, val.tag && !val.HasPerm(PERMIT_GLOBAL))
  }

  /**
   * A capability load at the start of a 16-byte authority: the 16 bytes
   * loaded lie within it, but as written the check covers 64 bytes and
   * raises a length fault.
   */
  lemma LoadCapLengthFindingWitness()
    ensures var auth := Almighty(0).(top := 16);
      && MemopToAddr(auth, 1, 0, CHERI_REG_T_BYTES, LoadCapAccess()) == Err(CheriFault(LengthViolation, 1))
      && MemopToAddr(auth, 1, 0, CAP_INMEM_BYTES, LoadCapAccess()) == Ok(0)
  {
    var auth := Almighty(0).(top := 16);
    PriorityUnrolled(auth, LoadCapAccess());
    assert auth.HasPerm(PERMIT_LOAD) && auth.HasPerm(PERMIT_LOAD_CAPABILITY);
  }

  /** `from_arch_pc` undoes `to_arch_pc`, and the other way round. */
  lemma ArchPcRoundTrip(m: Machine, pc: u64)
    requires m.Valid()
    ensures m.FromArchPc(m.ToArchPc(pc)) == pc
    ensures m.ToArchPc(m.FromArchPc(pc)) == pc
  {
  }
}
