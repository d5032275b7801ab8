/**
 * How the CHERI extension reports an exception: `raise_trap` records the
 * cause and the offending register in the capability cause register
 * `ccsr` and throws.  In the model a thrown exception is the `Err` arm of
 * `Result`, and the value written to `ccsr` is `Ccsr`.
 */
module Faults {
  import opened Words

  /** Capability exception cause codes (CHERI ISA version 7, section 3.9). */
  datatype Cause =
    | LengthViolation
    | TagViolation
    | SealViolation
    | TypeViolation
    | RepresentabilityViolation
    | PermitExecuteViolation
    | PermitLoadViolation
    | PermitStoreViolation
    | PermitLoadCapabilityViolation
    | PermitStoreCapabilityViolation
    | PermitStoreLocalCapabilityViolation
    | PermitSealViolation
    | AccessSystemRegistersViolation
    | PermitUnsealViolation

  /** The numeric cause code written into bits 8 and up of `ccsr`. */
  function CauseCode(c: Cause): (code: nat)
    ensures 0 < code < 0x20
  {
    match c
    case LengthViolation => 0x01
    case TagViolation => 0x02
    case SealViolation => 0x03
    case TypeViolation => 0x04
    case RepresentabilityViolation => 0x0a
    case PermitExecuteViolation => 0x11
    case PermitLoadViolation => 0x12
    case PermitStoreViolation => 0x13
    case PermitLoadCapabilityViolation => 0x14
    case PermitStoreCapabilityViolation => 0x15
    case PermitStoreLocalCapabilityViolation => 0x16
    case PermitSealViolation => 0x17
    case AccessSystemRegistersViolation => 0x18
    case PermitUnsealViolation => 0x1b
  }

  /** Distinct causes are reported with distinct codes. */
  lemma CauseCodeInjective(a: Cause, b: Cause)
    ensures CauseCode(a) == CauseCode(b) ==> a == b
  {
  }

  /**
   * The register index a fault names: a capability register 0..31, or
   * `0x20 | n` for special capability register `n`.
   */
  type RegIdx = x: nat | x < 0x40

  /** `0x20 | n`: the index by which a fault names special capability register `n`. */
  function ScrIdx(n: ScrNum): (r: RegIdx)
    ensures r >= 0x20 && r % 0x20 == n
  {
    0x20 + n
  }

  datatype Fault =
    | CheriFault(cause: Cause, reg: RegIdx)
    /** `trap_illegal_instruction`, including a failed `require` */
    | IllegalInstruction
    /** a failed C `assert`, which stops the simulator */
    | HostAssertion

  datatype Result<T> = Ok(value: T) | Err(fault: Fault)

  /** Special capability register numbers (CHERI ISA version 7, section 5.3). */
  type ScrNum = x: nat | x < 0x20
  const CHERI_SCR_PCC: ScrNum := 0
  const CHERI_SCR_DDC: ScrNum := 1
  const CHERI_SCR_UTCC: ScrNum := 4
  const CHERI_SCR_UTDC: ScrNum := 5
  const CHERI_SCR_USCRATCHC: ScrNum := 6
  const CHERI_SCR_UEPCC: ScrNum := 7
  const CHERI_SCR_STCC: ScrNum := 12
  const CHERI_SCR_STDC: ScrNum := 13
  const CHERI_SCR_SSCRATCHC: ScrNum := 14
  const CHERI_SCR_SEPCC: ScrNum := 15
  const CHERI_SCR_MTCC: ScrNum := 28
  const CHERI_SCR_MTDC: ScrNum := 29
  const CHERI_SCR_MSCRATCHC: ScrNum := 30
  const CHERI_SCR_MEPCC: ScrNum := 31

  /** `(trap_code << 8) | trap_reg`, the value `raise_trap` stores in `ccsr`. */
  function Ccsr(cause: Cause, reg: RegIdx): (r: u64)
    ensures r / 0x100 == CauseCode(cause) && r % 0x100 == reg
  {
    CauseCode(cause) * 0x100 + reg
  }

  /** A `ccsr` value names exactly one cause and one register. */
  lemma CcsrInjective(c1: Cause, r1: RegIdx, c2: Cause, r2: RegIdx)
    requires Ccsr(c1, r1) == Ccsr(c2, r2)
    ensures c1 == c2 && r1 == r2
  {
    CauseCodeInjective(c1, c2);
  }
}
