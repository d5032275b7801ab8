# CHERI capability extension of the Spike RISC-V simulator, in Dafny

This project models the CHERI extension of the Spike RISC-V simulator and
proves properties of the model. CHERI replaces raw pointers with
*capabilities*: an address (the cursor) together with bounds, permissions,
an object type and a validity tag. The model covers five parts:

- **Capability value** (`cap_types.dfy`). The 128-bit `cheri_reg_t` record
  with its null and almighty constructors and its projections (`offset`,
  `length`, `sealed`). Its mutators (`set_cursor`, `set_offset`,
  `inc_offset`, `set_bounds`) are functions that return the new value.
  - The compression library (`cheri-compressed-cap`) is not part of this
    model. It is a parameter `CompressLib` of uninterpreted functions.
  - Facts about the library that some properties need are stated as
    explicit hypotheses: `SetBoundsKeepsMetadata`, `SetBoundsCovers` and
    `DecompressKeepsCursor`.
  - No encode/decode round trip is assumed.
- **Tag memory** (`tags.dfy`). One bit per 16-byte granule of the 2 GiB
  DRAM at `DRAM_BASE`. It is a class over an array, with the address to
  granule mapping `GranuleOf`.
- **Check engine** (`checks.dfy`). `memop_to_addr` is a priority chain:
  tag, seal, then the load, load-capability, store and store-local
  permissions, then bounds. It also covers `check_in_bounds` and the
  per-granule fetch check. A fault is the `Err` arm of `Result`, and
  `Ccsr` is the value `raise_trap` stores in the cause register.
- **Machine state** (`machine.dfy`). A `Machine` class holds:
  - the capability and integer register files;
  - the special capability register (SCR) file;
  - the pc, the trap CSRs, `ccsr`, `mstatus`, privilege and debug state.

  Its methods model `reset`, `set_scr`/`get_scr` and the tag accessors,
  plus the capability and data load/store wrappers that keep tag memory in
  step with memory.
  - PCC, STCC, SEPCC, MTCC and MEPCC are *coupled*. The SCR file keeps
    their metadata, and `pc`, `stvec`, `sepc`, `mtvec` and `mepc` keep
    their offsets.
- **Instructions**:
  - Pure fault chains are functions returning the value written to `cd`
    or `rd`: `bounds_insns.dfy`, `seal_insns.dfy` and `modify_insns.dfy`.
  - Instructions that change several pieces of machine state are methods
    on the `Machine`: CJALR, CCall, CSpecialRW and CLC in
    `control_insns.dfy`, and MRET, SRET and DRET in `trap_return.dfy`.

Integers are unbounded in Dafny. `reg_t` arithmetic is written out modulo
2^64 (`Add64`, `Sub64`), and `cheri_length_t` arithmetic modulo 2^128. The
permission and user-permission bit-fields are modelled as the sets of
their bit numbers that are 1: `&` is intersection, `|` is union, and a
subset test is `<=`.

Older instruction files use the field layout `base`/`offset`/`length`.
They are read through the single record as `offset = cursor - base` and
`length = top - base`, both wrapping. So `base + offset` is the cursor and
`base + length` is the top. Their `sealed` field is read as the `sealed()`
projection of the record, an object type other than `OTYPE_UNSEALED`, so
an assignment to `sealed` has no effect of its own and the object type
alone decides.

Where the code itself is evidently wrong, the model keeps two members. One
states the code as written, with a counterexample. The other is the
corrected definition, with the intended property proved; the rest of the
model uses it. Both are listed under "Findings".

## Model

| member | source | states |
|---|---|---|
| Words.SignExtend12 | cheri/insns/cincoffsetimmediate.h:6 | the 12-bit immediate read as a signed value in [-2048, 2048) congruent to the field |
| Words.SextXlen | riscv/insns/auipc.h:9 | `sext_xlen`: unchanged on RV64; on RV32 the low 32 bits kept and the value sign-extended |
| CapTypes.Cap.Offset | cheri/cheri_types.h:98 | base + offset is the cursor modulo 2^64, and offset = cursor - base when base <= cursor |
| CapTypes.Cap.Length | cheri/cheri_types.h:99 | base + length is the top modulo 2^128, and length = top - base when base <= top |
| CapTypes.Null | cheri/cheri_types.h:112-123 | the default value: untagged, unsealed (object type `OTYPE_UNSEALED`), no permissions or user permissions, flags 0, `reserved` 0, base 0, top 2^64, the given cursor |
| CapTypes.Almighty | cheri/cheri_types.h:125-138 | tagged, unsealed (object type `OTYPE_UNSEALED`), every permission and user permission, flags 0 (integer mode), `reserved` 0, base 0, top 2^64, the given cursor |
| CapTypes.ZeroCap | cheri/cheri.cc:428-430 | the value a cleared register file holds is untagged |
| CapTypes.CapLib | cheri/cheri_types.cc:40-52 | every field is copied to the library form unchanged |
| CapTypes.SetCapLib | cheri/cheri_types.cc:54-64 | converting back to the library form gives the library value it was built from |
| CapTypes.SetCapLibCapLib | cheri/cheri_types.cc:40-64 | `set_cap_lib(cap_lib())` leaves every field unchanged |
| CapTypes.FromInMem | cheri/cheri_types.cc:66-71 | the tag comes from the argument, never from the stored bits |
| CapTypes.ToInMem | cheri/cheri_types.cc:73-79 | the in-memory cursor is the capability's cursor verbatim |
| CapTypes.SetBounds | cheri/cheri_types.cc:81-86 | under the metadata hypothesis, tag, permissions, object type and flags are kept and `reserved` is cleared |
| CapTypes.SetCursor | cheri/cheri_types.cc:88-97 | the result is tagged iff the input was and the new cursor is representable; if representable, only the cursor changes (and `reserved` clears) |
| CapTypes.SetCursorAddress | cheri/cheri_types.cc:88-97 | when decompression keeps the cursor, `set_cursor` always lands on the requested address, representable or not |
| CapTypes.IncOffset | cheri/cheri_types.h:105-107 | never sets a tag; when representable, the offset grows by the increment modulo 2^64 |
| CapTypes.SetOffset | cheri/cheri_types.h:108-110 | never sets a tag; when representable, the offset is the one requested and the base is kept |
| CapTypes.OffsetAdd | cheri/cheri_types.h:105-107 | moving the cursor by `inc` moves the offset by `inc`, modulo 2^64 |
| CapTypes.IncOffsetIsSetOffset | cheri/cheri_types.h:105-110 | `inc_offset(i)` equals `set_offset(offset + i)` for every capability and increment |
| Faults.CauseCode | cheri/cheri.h:180-183 | every cause has a non-zero code below 0x20 |
| Faults.CauseCodeInjective | cheri/cheri.h:180-183 | distinct causes have distinct codes |
| Faults.ScrIdx | cheri/insns/cbuildcap.h:4 | `0x20 \| n` names SCR `n`: bit 5 set, low five bits `n` |
| Faults.Ccsr | cheri/cheri.h:180-183 | `(code << 8) \| reg`: the cause code above bit 8 and the register below |
| Faults.CcsrInjective | cheri/cheri.h:180-183 | a `ccsr` value determines both the cause and the register |
| Tags.ReserveAsWritten | riscv/tags.h:43-45 | `reserve(N)` gives capacity N but size 0 |
| Tags.ReservedStoreHasNoElement | riscv/tags.h:43-59 | as written, every index a later `setTag` uses is past the vector's size |
| Tags.TagMemory.constructor | riscv/tags.h:43-45 | N tags, all clear |
| Tags.TagMemory.Reset | riscv/tags.h:53-55 | every tag is cleared |
| Tags.TagMemory.SetTag | riscv/tags.h:57-59 | the one tag takes the value and every other index is unchanged |
| Tags.GranuleOf | cheri/cheri.cc:168-174 | an address has a granule iff it lies in the 2 GiB tagged DRAM (addresses below `DRAM_BASE` wrap and have none); that granule is below the tag count and holds the address |
| Checks.CheckInBounds | cheri/cheri.h:194-200 | succeeds iff base <= addr, addr + len does not reach 2^64, and addr + len <= top; else a length fault on `authidx` |
| Checks.FirstViolated | cheri/cheri.h:218-232 | the position of the first applicable requirement not met, with all earlier ones met; none iff all are met |
| Checks.BasePlusOffset | cheri/cheri.h:217 | `base + offset` is the cursor |
| Checks.MemopToAddr | cheri/cheri.h:207-234 | succeeds iff every applicable requirement holds and the range is in bounds; the address is cursor + offset modulo 2^64; the first violated requirement in priority order names the fault; otherwise a length fault |
| Checks.NullFailsTagCheck | cheri/cheri.h:218-219 | the null capability is refused with a tag fault for every well-formed access |
| Checks.FirstViolatedCons | cheri/cheri.h:218-232 | the first violation in a list is the head, or one past the first in the tail |
| Checks.PriorityUnrolled | cheri/cheri.h:218-232 | the fixed priority list spelled out: tag, seal, load, load-capability, store, store-local |
| Checks.IfetchGranule | cheri/cheri.h:146-157 | the first granule needs a tagged, unsealed PCC; every granule must lie within PCC's bounds over 2 bytes; faults name `0x20 \| PCC` |
| Checks.FetchOffsetLandsOnAddr | cheri/cheri.h:151-153 | the offset the fetch check computes brings the cursor back to exactly `addr` |
| Checks.FetchIgnoresExecutePermission | cheri/cheri.h:146-157 | removing PCC's execute permission changes no fetch check result |
| Machine.ReadScr | cheri/cheri.cc:488-518 | the SCR read keeps the stored bounds, permissions, tag and object type; an uncoupled SCR reads back exactly as stored |
| Machine.ReadScrAsWritten | cheri/cheri.cc:488-518 | as written, an uncoupled SCR reads back with cursor = base |
| Machine.ScrRoundTrip | cheri/cheri.cc:458-518 | reading an SCR after writing `v` gives `v` back, for every SCR |
| Machine.ScrRoundTripFailsAsWritten | cheri/cheri.cc:490-516 | as written, DDC written with cursor 0x1000 reads back differently |
| Machine.ResetScr | cheri/cheri.cc:433-452 | after reset an SCR is tagged iff it is PCC, DDC or one of the six trap-vector and exception-PC capabilities, and each tagged one is unsealed, executable and spans [0, 2^64); every slot has flags 0 |
| Machine.ResetScrFile | cheri/cheri.cc:430-452 | slot by slot: PCC, DDC, UTCC, UEPCC, STCC, SEPCC, MTCC and MEPCC almighty at address 0; UTDC, USCRATCHC, STDC, SSCRATCHC, MTDC and MSCRATCHC null; every other slot cleared |
| Machine.ResetDdcAuthorisesEverything | cheri/cheri.cc:436 | after reset DDC meets every requirement of every access |
| Machine.LoadCapLengthFindingWitness | cheri/cheri.h:265 | a 16-byte authority refuses the 64-byte check as written but allows the 16 bytes loaded |
| Machine.ArchPcRoundTrip | cheri/cheri.h:136-144 | `from_arch_pc` and `to_arch_pc` undo each other modulo 2^64 |
| Machine.LoadCapAccess | cheri/cheri.h:265-267 | the capability load's access flags satisfy the entry assertions |
| Machine.DataAccess | cheri/cheri.h:240-242 | data accesses satisfy the entry assertions |
| Machine.StoreCapAccess | cheri/cheri.h:315-319 | store-local is requested exactly when the value is tagged and lacks GLOBAL |
| Machine.Machine.constructor | cheri/cheri.h:125-126 | fresh register files and tag memory, `ccsr` 0 |
| Machine.Machine.Reset | cheri/cheri.cc:418-456 | tags cleared, capability registers cleared, SCR file as `ResetScrFile`; of the scalar state only `ccsr` (0) and `clen` (2 * xlen) change, pc, trap CSRs, privilege, `mstatus` and debug state untouched; integer registers untouched; afterwards the hart is in integer mode (PCC's flags are 0) |
| Machine.Machine.ClearRegisterFiles | cheri/cheri.cc:428-430 | both register files cleared |
| Machine.Machine.WriteResetScrs | cheri/cheri.cc:432-452 | the fourteen reset writes give `ResetScrFile` |
| Machine.Machine.SetScr | cheri/cheri.cc:458-486 | stores the value; a coupled SCR's hart register gets its offset; the rest of the scalar state (other hart registers, `ccsr`, `clen`, privilege, `mstatus`, debug state) unchanged |
| Machine.Machine.GetScr | cheri/cheri.cc:488-518 | the corrected read `ReadScr` of the stored SCR and its hart register |
| Machine.Machine.GetScrAsWritten | cheri/cheri.cc:488-518 | the read as written, `ReadScrAsWritten` |
| Machine.Machine.RaiseTrap | cheri/cheri.h:180-183 | a CHERI fault sets `ccsr` to its encoding; nothing else changes |
| Machine.Machine.WriteCreg | cheri/cheri.h:85 | writes one capability register; a write to c0 is dropped |
| Machine.Machine.WriteXreg | cheri/insns/ccall.h:25 | writes one integer register; a write to x0 is dropped |
| Machine.Machine.SetTagTranslated | cheri/cheri.cc:181-187 | in range, exactly one granule's tag changes; out of range, nothing changes |
| Machine.Machine.LoadCapOfLength | cheri/cheri.h:262-281 | succeeds iff the check does; a fault is returned and recorded in `ccsr`; success leaves `ccsr` and returns the capability decoded from the compressed form stored at the checked address, tagged with the memory tag at the translated address (the load-capability permission is implied by success) |
| Machine.Machine.CapLoadCap | cheri/cheri.h:262-281 | the corrected load, checking the 16 bytes of a stored capability: the same fault, `ccsr` and loaded-value clauses |
| Machine.Machine.CapLoadCapAsWritten | cheri/cheri.h:262-267 | the load as written, checking `sizeof(cheri_reg_t)` = 64 bytes; the same fault, `ccsr` and loaded-value clauses |
| Machine.Machine.DdcLoadCap | cheri/cheri.h:283-287 | the corrected load under the stored DDC with index `0x20 \| DDC`: the same fault, `ccsr` and loaded-value clauses |
| Machine.Machine.CapLoad | cheri/cheri.h:236-244 | a data load succeeds iff the check does and returns memory at the checked address |
| Machine.Machine.DdcLoad | cheri/cheri.h:246-250 | the same as `CapLoad` under the stored DDC with index `0x20 \| DDC`: the fault is the check's and is recorded in `ccsr`, success leaves `ccsr` |
| Machine.Machine.CapStore | cheri/cheri.h:289-299 | a data store clears the tag of its granule and no other and leaves `ccsr`; a fault is the check's, recorded in `ccsr`, and changes no tag |
| Machine.Machine.DdcStore | cheri/cheri.h:301-305 | the same as `CapStore` under the stored DDC with index `0x20 \| DDC`, fault, `ccsr` and untouched granules included |
| Machine.Machine.CapStoreCap | cheri/cheri.h:313-332 | a capability store sets its granule's tag to the value's tag (for an address in the tagged DRAM), no other, and leaves `ccsr`; a fault is the check's, recorded in `ccsr`, and changes no tag |
| Machine.Machine.DdcStoreCap | cheri/cheri.h:334-338 | the same as `CapStoreCap` under the stored DDC with index `0x20 \| DDC`, fault, `ccsr` and untouched granules included |
| BoundsInsns.AuthIdx | cheri/insns/cbuildcap.h:4 | c0 names DDC as `0x20 \| DDC`; any other register names itself |
| BoundsInsns.CBuildCap | cheri/insns/cbuildcap.h:3-30 | faults in order: untagged authority (tag), sealed authority (seal), template base below the authority's (length), template top above the authority's (length), inverted template (length, naming cs2), template permissions not a subset (access-permission cause); otherwise the result is `Rebuild` of the template, within the authority, with the template's bounds, cursor, permissions and flags |
| BoundsInsns.Rebuild | cheri/insns/cbuildcap.h:19-29 | the result has exactly the template's bounds, cursor and permissions, or the simulator stops; it always succeeds when the library reproduces the bounds and the cursor is representable; under the metadata hypothesis the result is tagged iff the authority is and the cursor is representable, and keeps the authority's object type |
| BoundsInsns.CSetBoundsExact | cheri/insns/csetboundsexact.h:3-21 | faults in order: untagged (tag), sealed (seal), cursor below base or [cursor, cursor + rs2) past the top (length), then succeeds iff the library's bounds are exact (else representability); on success the result is exactly the library's bounded capability, base = cursor and top = cursor + rs2, within the old bounds |
| BoundsInsns.CSetBoundsAsWritten | cheri/insns/csetbounds.h:7-21 | as written: only a tagged unsealed capability passes |
| BoundsInsns.CSetBoundsAsWrittenRefusesNonEmpty | cheri/insns/csetbounds.h:8-13 | as written, every non-empty request that does not wrap faults |
| BoundsInsns.CSetBoundsFindingWitness | cheri/insns/csetbounds.h:13 | 16 bytes at 0x1000 under the almighty capability: refused as written, granted corrected |
| BoundsInsns.CSetBounds | cheri/insns/csetbounds.h:7-21 | faults in order: untagged (tag), sealed (seal), then length unless [cursor, cursor + rs2), with its top computed without wrap-around, lies in the bounds; succeeds iff none applies; the library's bounds cover the request and keep the metadata |
| BoundsInsns.CSetBoundsImmediateAsWritten | cheri/insns/csetboundsimmediate.h:5-26 | as written: a result's base is the cursor |
| BoundsInsns.CSetBoundsImmediateFindingWitness | cheri/insns/csetboundsimmediate.h:14-23 | immediate 0xFFF at address 0 passes as written with top 2^128 - 1 |
| BoundsInsns.CSetBoundsImmediate | cheri/insns/csetboundsimmediate.h:5-26 | faults in order: untagged (tag), sealed (seal), out of bounds or wrapping (length); succeeds iff none applies; the result is the input with base = cursor and top = cursor + uimm, every other field (cursor, permissions, user permissions, flags, type, tag) copied, and lies within the old bounds |
| SealInsns.CSealAsWritten | cheri/insns/cseal.h:3-16 | as written: a result is `c1` sealed with type = `c2`'s address <= OTYPE_MAX |
| SealInsns.CSealFindingWitness | cheri/insns/cseal.h:8-9 | an authority whose address lies below its base seals as written (whenever the library finds the result representable); the corrected CSeal refuses with a length fault |
| SealInsns.CSeal | cheri/insns/cseal.h:3-16 | faults in order: tag of cs1, tag of cs2, seal of cs1, seal of cs2, missing seal permission, `c2`'s address outside its bounds, address above OTYPE_MAX (all length on cs2), then representability on cs1; succeeds iff none applies, giving `c1` sealed with that type, nothing else changed |
| SealInsns.CCSeal | cheri/insns/ccseal.h:3-17 | untagged `c1` faults first; an untagged or all-ones `c2` passes `c1` through; otherwise faults in order: sealed `c1`, sealed `c2`, no seal permission, address not below `c2`'s top, address above OTYPE_MAX; it succeeds iff none applies, with `c1` sealed with `c2`'s address |
| SealInsns.UnsealPerms | cheri/insns/cunseal.h:15 | a subset of `c1`'s permissions: every bit but GLOBAL kept, GLOBAL only if both have it |
| SealInsns.CUnsealAsWritten | cheri/insns/cunseal.h:3-17 | as written, every result is still sealed |
| SealInsns.CUnseal | cheri/insns/cunseal.h:3-17 | faults in order: tag of cs1, tag of cs2, `c1` unsealed, `c2` sealed, type mismatch, no unseal permission, `c2`'s address outside its bounds; succeeds iff none applies, giving exactly `c1` unsealed with the GLOBAL rule applied to its permissions |
| SealInsns.CUnsealFindingWitness | cheri/insns/cunseal.h:13-14 | a capability unsealed as written is still sealed, corrected not |
| SealInsns.CUnsealBaseFindingWitness | cheri/insns/cunseal.h:10 | an authority whose address lies below its base unseals as written, not corrected |
| SealInsns.SealUnsealRoundTrip | cheri/insns/cunseal.h:11-16 | sealing then unsealing with a global authority that may do both gives the original back |
| ModifyInsns.PermMask | cheri/insns/candperm.h:7 | permission `p` is in the mask iff bit `p` of rs2 is set |
| ModifyInsns.UPermMask | cheri/insns/candperm.h:8 | user permission `u` is in the mask iff bit 12 + `u` of rs2 is set |
| ModifyInsns.CAndPerm | cheri/insns/candperm.h:3-10 | succeeds iff tagged and unsealed; the result has exactly the permissions and exactly the user permissions in both `c1` and the mask; nothing else changes |
| ModifyInsns.CAndPermIdempotent | cheri/insns/candperm.h:7-8 | masking twice with the same rs2 is masking once |
| ModifyInsns.CSetFlags | cheri/insns/csetflags.h:3-10 | faults only when tagged and sealed; flags := bit 0 of rs2, nothing else changes |
| ModifyInsns.MoveOrNull | cheri/insns/csetoffset.h:5-10 | the cursor is the requested one; representable keeps the rest, otherwise null |
| ModifyInsns.CSetOffset | cheri/insns/csetoffset.h:3-12 | faults only when tagged and sealed; cursor = base + rs2; representable: offset rs2, nothing else changed; otherwise untagged null bounds |
| ModifyInsns.CIncOffsetImmediate | cheri/insns/cincoffsetimmediate.h:3-12 | faults only when tagged and sealed; cursor moves by the signed immediate modulo 2^64; never gains a tag |
| ModifyInsns.IncOffsetImmediateIsSetOffset | cheri/insns/cincoffsetimmediate.h:6 | incrementing by the immediate equals CSetOffset to offset + immediate |
| ModifyInsns.CIncOffset | cheri/insns/cincoffset.h:3-10 | faults only when tagged and sealed; offset grows by rs2 modulo 2^64 and nothing else changes, tag included |
| ModifyInsns.CSetAddr | cheri/insns/csetaddr.h:3-15 | faults only when tagged and sealed; cursor = rs2 with bounds and permissions kept; tagged iff tagged before and representable |
| ModifyInsns.SetAddrIsSetOffset | cheri/insns/csetaddr.h:8 | CSetAddr and CSetOffset with offset rs2 - base succeed together and reach the same address |
| ModifyInsns.AuthIdxAsWritten | cheri/insns/cfromptr.h:4 | as written, c0 names `0x20`, the index of PCC |
| ModifyInsns.AuthIdxFindingWitness | cheri/insns/cfromptr.h:4 | the as-written index for c0 differs from DDC's |
| ModifyInsns.CFromPtr | cheri/insns/cfromptr.h:3-16 | 0 gives null without any test; otherwise an untagged authority faults with a tag fault, a sealed one with a seal fault, both naming the authority; else the authority with offset rs2 |
| ModifyInsns.CToPtr | cheri/insns/ctoptr.h:3-12 | an untagged authority faults first, then a tagged sealed `c1`; the result is 0 for untagged `c1`, else its address relative to the authority's base |
| ModifyInsns.FromPtrToPtr | cheri/insns/ctoptr.h:11 | CToPtr after CFromPtr under the same authority gives the integer back, when representable |
| ModifyInsns.CCopyType | cheri/insns/ccopytype.h:3-16 | faults in order: untagged (tag), sealed (seal), a sealed `c2`'s type outside the bounds (length); succeeds iff none applies; unsealed `c2` gives null with address all ones; otherwise only the cursor changes, to the type |
| ModifyInsns.CTestSubsetAsWritten | cheri/insns/ctestsubset.h:3-14 | as written: the result is 0 or 1 |
| ModifyInsns.CTestSubsetFindingWitness | cheri/insns/ctestsubset.h:7-8 | a region past the top with a smaller length passes as written, not corrected |
| ModifyInsns.CTestSubset | cheri/insns/ctestsubset.h:3-14 | 1 iff the tags agree and `c2` is within the reference's bounds and permissions, else 0 |
| ModifyInsns.CTestSubsetReflexive | cheri/insns/ctestsubset.h:5-10 | every capability is a subset of itself |
| ModifyInsns.CTestSubsetTransitive | cheri/insns/ctestsubset.h:5-10 | subset is transitive |
| ModifyInsns.Auipc | riscv/insns/auipc.h:1-10 | a capability write iff merged register file and capability mode; the integer result is `sext_xlen(pc + imm)`; the capability result never gains a tag and, when representable, is PCC at address base + pc + imm |
| ControlInsns.JalrCheckAsWritten | cheri/insns/cjalr.h:8-27 | as written: success implies tagged, unsealed, executable, cursor >= base |
| ControlInsns.JalrCheckFindingWitness | cheri/insns/cjalr.h:22 | a target 2 bytes below 2^64 passes as written, though its instruction runs past the top |
| ControlInsns.JalrCheck | cheri/insns/cjalr.h:8-27 | passes iff tagged, unsealed, executable and [cursor, cursor + 4) lies in the bounds; tag, seal, execute and length faults in that order, all naming cs1 |
| ControlInsns.LinkCap | cheri/insns/cjalr.h:37-44 | PCC with offset pc + 4 and nothing else changed |
| ControlInsns.CJalr | cheri/insns/cjalr.h:3-58 | a fault traps with `ccsr` set and changes no register, SCR or other scalar state; otherwise PCC becomes the target at offset 0, `cd` the link capability, the next pc the target address, whose 4 bytes lie in its bounds, and only pc (0) changes among the scalar state |
| ControlInsns.CJalrAsWritten | cheri/insns/cjalr.h:37-57 | as written: a fault traps, leaves the registers and sets only `ccsr`; a jump leaves the SCR file and every scalar field unchanged, writes the link capability to `cd`, and the next pc is the old PCC base plus the target's offset |
| ControlInsns.CCallCheck | cheri/insns/ccall.h:3-10 | faults in order: tag of cd, tag of cs1, seal of cd, seal of cs1, type mismatch, code not executable, data executable, code address not below its top; passes iff none applies; faults on the code capability name cd |
| ControlInsns.CCall | cheri/insns/ccall.h:3-28 | a fault traps with `ccsr` set and changes no SCR, x-register or other scalar state; otherwise PCC keeps its metadata with the code's offset, pc = that offset and nothing else scalar changes, x1 = pc + 4 |
| ControlInsns.ScrAccessRule | cheri/insns/cspecialrw.h:5-27 | PCC read-only, PCC and DDC open, the twelve other listed SCRs need ACCESS_SYSTEM_REGISTERS, any other number is not an SCR |
| ControlInsns.CSpecialRW | cheri/insns/cspecialrw.h:3-44 | no SCR: illegal instruction, no register, SCR or scalar state changed; refused: fault naming chs, only `ccsr` set; otherwise `cd` gets the value read before the write, the SCR gets `cs1` unless c0, and only the coupled hart register changes |
| ControlInsns.CLC | cheri/insns/clc.h:3-7 | through `cs1` with the immediate in capability mode, else through DDC at x[cs1] + imm; a fault traps, leaves the registers and sets only `ccsr`; success writes only `cd`, which receives the capability decoded from memory at the checked address with the memory tag, and changes no scalar state |
| TrapReturn.MppOf | riscv/insns/mret.h:8 | U iff MPP is 0 and M iff MPP is 3 |
| TrapReturn.SppOf | riscv/insns/sret.h:6 | U iff SPP is clear, otherwise S |
| TrapReturn.MRetStatus | riscv/insns/mret.h:7-11 | MIE := MPIE, MPIE := 1, MPP := U, every other bit kept |
| TrapReturn.SRetStatus | riscv/insns/sret.h:5-9 | SIE := SPIE, SPIE := 1, SPP := U, every other bit kept |
| TrapReturn.RetStatusesCommute | riscv/insns/mret.h:7-11 | the MRET and SRET updates touch disjoint bits and commute |
| TrapReturn.SRetPrivilege | riscv/insns/sret.h:2 | SRET needs M when TSR is set, else S |
| TrapReturn.MRet | riscv/insns/mret.h:1-13 | below M: illegal instruction, nothing changed; otherwise PCC reads back as MEPCC did, pc = mepc, `mstatus` as `MRetStatus`, privilege = old MPP, and no other scalar state (trap CSRs, `ccsr`, `clen`, debug state) changes |
| TrapReturn.SRet | riscv/insns/sret.h:1-15 | without S or below the required privilege: illegal instruction, nothing changed; otherwise pc = sepc, `mstatus` as `SRetStatus`, privilege = old SPP, PCC reads back as SEPCC did, and no other scalar state changes |
| TrapReturn.DRet | riscv/insns/dret.h:1-11 | outside debug mode: illegal instruction, nothing changed; otherwise pc = dpc rebased on PCC, privilege = dcsr.prv, debug mode off, stepping iff dcsr.step, and no SCR, `mstatus` or other scalar state changes |

## Left out

- The MMU: translation, page faults, TLB and memory contents. `Mmu` is a parameter of uninterpreted functions. Data values are whatever `loadData` returns, and stores do not model memory contents, only tags.
- The compression library (representability, compress, decompress, setbounds): uninterpreted; no encode/decode round trip is assumed.
- The `_ebt` cached field of `cheri_reg_t`: it lives inside the library's encoding and is not modelled.
- Numbers that are not in the files modelled here come from their standards:
  - cause codes, permission bit numbers and SCR numbers from CHERI ISA version 7;
  - the `mstatus` bit positions from the RISC-V privileged architecture 1.11;
  - `DRAM_BASE` 0x8000_0000.
- The `CSR` macro of cspecialrw.h is not part of this model. It is taken as `get_scr`/`set_scr` on the selected SCR, and the `CHERI_CSR_*` numbers as the SCR numbers.
- `regfile_t` is not part of this model. A write to register 0 is taken to be dropped.
- CSR write masking (`set_csr`) and privilege legalization (`set_privilege`): CSRs and privilege are stored as written.
- Alignment of `set_pc` and of jump targets: cjalr.h has no alignment check either.
- The merged register file appears only in `Auipc`, as a parameter. The other instructions use the separate capability register file.
- The pc convention of the templates is not modelled. The model takes `pc` as the offset `set_scr` stores. `from_arch_pc` in DRET produces an address, so the two agree only when PCC's base is 0.
- `CHERI_REG_T_BYTES` is `sizeof(cheri_reg_t)` on an LP64 host (64 bytes, from the field layout at cheri/cheri_types.h:79-85). It is not a constant in the source.
- Scalar load/store wrappers for each C type are one method each (`CapLoad`, `CapStore`) taking the size.
- The template instruction files that are superseded or foreign:
  - sqddc.h and csc.h call members the extension no longer has;
  - ccallfast.h writes only temporaries;
  - creadhpmcounter.h reads cache-simulator counters;
  - the floating-point load/store files rely on macros that are not part of this model.
- The disassembler, instruction registration and the interactive debugger.
- Concurrency: instructions run one at a time.
- ModifyInsns.CAndPerm reads `rs2` as a 64-bit word. Bits above 15 are ignored, as the masks in the source do.
- Tags.TagMemory.constructor models the intended N cleared tags rather than the empty vector `reserve` leaves.
- Machine.Machine.CapLoadCap, the other capability loads and ControlInsns.CLC state the loaded value as `FromInMem` of the stored compressed form with the memory tag alone: success already implies the load-capability permission, so the AND with it in cheri/cheri.h:278-279 adds nothing.
- BoundsInsns.CSetBounds, BoundsInsns.CSetBoundsExact and CapTypes.SetBounds state metadata and covering only under the explicit library hypotheses `SetBoundsKeepsMetadata` and `SetBoundsCovers`.

- CapTypes.SetCursor, ModifyInsns.CSetAddr: an inexact cursor move is modelled as the code does it. `set_cursor` decodes the value's own compressed form at the new cursor, untagged, and CSetAddr only clears the tag; neither yields the null capability.
- ModifyInsns.CIncOffset, SealInsns.CCSeal: no representability test, as in the code (both carry a FIXME).
- SealInsns.CCSeal: like cheri/insns/cseal.h before its correction, does not test `c2`'s address against its base; modelled as written, without a finding of its own.
- ControlInsns.CCall: keeps PCC's own metadata and moves only its offset, and reports faults on cs2 under `cd`, as the code does; the unsealed code capability is not installed as PCC.
- Checks.MemopToAddr: no execute-permission test, as in the code; the fetch check does not test it either (`Checks.FetchIgnoresExecutePermission`).
- ControlInsns.CSpecialRW: reports its fault with the raw SCR number, without bit 5, as the code does.

## Findings

| source | as written | input that shows it | evidently intended | confidence | as-written member | corrected member |
|---|---|---|---|---|---|---|
| cheri/insns/cunseal.h:14 | the unsealed result gets object type 0. The file is written for the older layout with a separate `sealed` bit, where `sealed = 0; otype = 0` does unseal; read against the current record, where sealed means an object type other than `OTYPE_UNSEALED` (cheri/cheri_types.h:100) and the `sealed = 0` store has no effect of its own, the result is still sealed. The defect is a gap left by the migration to the new layout, not wrong logic in the old one | `c1` almighty sealed with type 5, `c2` almighty at address 5 | object type `OTYPE_UNSEALED` | not executed | SealInsns.CUnsealFindingWitness | SealInsns.CUnseal |
| cheri/insns/csetbounds.h:13 | the new top is compared with the cursor (`old_top` is set to the cursor on line 8), so every non-empty request faults; and the new top of line 7 is summed on `reg_t` and wraps, so a request running past 2^64 passes | almighty at 0x1000, rs2 = 0x10 (refused); almighty at 2^64 - 16, rs2 = 0x20 (granted) | compare the unwrapped top with the old top, as cheri/insns/csetboundsexact.h:11 does | not executed | BoundsInsns.CSetBoundsFindingWitness | BoundsInsns.CSetBounds |
| cheri/insns/csetboundsimmediate.h:14 | the immediate is sign-extended (`i_imm`), so -1 passes both wrap tests and becomes a length of 2^128 - 1 | almighty at address 0, immediate field 0xFFF | an unsigned 12-bit length, as the disassembler's `uimm` operand says | not executed | BoundsInsns.CSetBoundsImmediateFindingWitness | BoundsInsns.CSetBoundsImmediate |
| cheri/insns/ctestsubset.h:8 | lengths are compared instead of tops, so a region past the top can pass | reference [0, 0x100), `c2` [0x80, 0x180) | `c2.top <= top` | not executed | ModifyInsns.CTestSubsetFindingWitness | ModifyInsns.CTestSubset |
| cheri/insns/cjalr.h:22 | `cursor + 4` is computed on `reg_t` and wraps | almighty target at address 2^64 - 2 | the sum without wrap-around | not executed | ControlInsns.JalrCheckFindingWitness | ControlInsns.JalrCheck |
| cheri/insns/cjalr.h:39 | `PCC` is a copy returned by `get_scr`, so the assignment does not install the target | any successful jump: the SCR file is unchanged | `set_scr(PCC, target with offset 0)` | not executed | ControlInsns.CJalrAsWritten | ControlInsns.CJalr |
| cheri/cheri.cc:516 | every uncoupled SCR reads back with cursor = base | DDC written as almighty with cursor 0x1000 reads back with cursor 0 | the stored cursor for an uncoupled SCR (read-after-write, `Machine.ScrRoundTrip`) | not executed | Machine.ScrRoundTripFailsAsWritten | Machine.ReadScr |
| riscv/tags.h:44 | `reserve(N)` leaves the vector empty, so every `setTag`/`getTag` indexes past its end | any index below N | a vector of N cleared tags | not executed | Tags.ReservedStoreHasNoElement | Tags.TagMemory.constructor |
| cheri/cheri.h:265 | the capability load checks `sizeof(cheri_reg_t)` = 64 bytes but loads 16 | a 16-byte authority at address 0 | check the 16 bytes of `cheri_reg_inmem_t`, as `cap_store_cap` does | not executed | Machine.LoadCapLengthFindingWitness | Machine.Machine.CapLoadCap |
| cheri/insns/cseal.h:8 | the sealing authority's address is not tested against its base | authority [0x100, 0x200) at address 0x10 seals with type 0x10 | the address must lie in [base, top) | not executed | SealInsns.CSealFindingWitness | SealInsns.CSeal |
| cheri/insns/cunseal.h:10 | the unsealing authority's address is not tested against its base | authority [0x100, 0x200) at address 0x10 unseals type 0x10 | the address must lie in [base, top) | not executed | SealInsns.CUnsealBaseFindingWitness | SealInsns.CUnseal |
| cheri/insns/cfromptr.h:4 | the fault index for DDC is `(1 << 5) \| 0` = 0x20, the index of PCC | cs1 = 0 with an untagged DDC | `0x20 \| CHERI_SCR_DDC`, as cheri/insns/cbuildcap.h:4 computes | not executed | ModifyInsns.AuthIdxFindingWitness | ModifyInsns.CFromPtr |
| cheri/insns/ctoptr.h:4 | the same index expression: the fault for DDC names 0x20, the index of PCC | cs2 = 0 with an untagged DDC | `0x20 \| CHERI_SCR_DDC` | not executed | ModifyInsns.AuthIdxFindingWitness | ModifyInsns.CToPtr |
