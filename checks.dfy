/**
 * The authorisation checks every capability-mediated memory access goes
 * through: `check_in_bounds`, `memop_to_addr` and the per-granule
 * instruction fetch check `check_ifetch_granule`.  They only read their
 * arguments; a fault is the `Err` they return (the trap register write
 * that accompanies it is `Machine.RaiseTrap`).
 */
module Checks {
  import opened Words
  import opened CapTypes
  import opened Faults

  /** The flags `memop_to_addr` receives. */
  datatype Access = Access(load: bool, store: bool, execute: bool, capOp: bool, storeLocal: bool)

  /**
   * The three `assert`s at the head of `memop_to_addr`: at least one of
   * load and store, or else execute; store-local only on a capability
   * store; never execute a capability.
   */
  predicate WellFormedAccess(a: Access)
  {
    (a.load || a.store) != a.execute &&
    ((a.capOp && a.store) || !a.storeLocal) &&
    !(a.execute && a.capOp)
  }

  /**
   * `check_in_bounds(auth, authidx, addr, len)`.  The end of the access is
   * computed on `reg_t`, so an access that reaches 2^64 faults even under
   * a capability whose top is 2^64.
   */
  function CheckInBounds(auth: Cap, authidx: RegIdx, addr: u64, len: u64): (r: Result<()>)
    ensures r.Ok? <==> auth.base <= addr && addr + len < TWO64 && addr + len <= auth.top
    ensures r.Err? ==> r.fault == CheriFault(LengthViolation, authidx)
  {
    var end := Add64(addr, len);
    if addr < auth.base || end > Add128(auth.base, auth.Length()) || end < addr then
      Err(CheriFault(LengthViolation, authidx))
    else
      Ok(())
  }

  /** The conditions `memop_to_addr` tests before the bounds, in the order it tests them. */
  datatype Requirement = Tagged | Unsealed | MayLoad | MayLoadCap | MayStore | MayStoreLocal

  function Priority(): seq<Requirement>
  {
    [Tagged, Unsealed, MayLoad, MayLoadCap, MayStore, MayStoreLocal]
  }

  /** Whether access `a` is subject to requirement `q`. */
  predicate Applies(q: Requirement, a: Access)
  {
    match q
    case Tagged => true
    case Unsealed => true
    case MayLoad => a.load
    case MayLoadCap => a.load && a.capOp
    case MayStore => a.store
    case MayStoreLocal => a.store && a.storeLocal
  }

  /** Whether capability `c` meets requirement `q`. */
  predicate Met(q: Requirement, c: Cap)
  {
    match q
    case Tagged => c.tag
    case Unsealed => !c.Sealed()
    case MayLoad => c.HasPerm(PERMIT_LOAD)
    case MayLoadCap => c.HasPerm(PERMIT_LOAD_CAPABILITY)
    case MayStore => c.HasPerm(PERMIT_STORE)
    case MayStoreLocal => c.HasPerm(PERMIT_STORE_LOCAL_CAPABILITY)
  }

  /** The cause reported when requirement `q` is not met. */
  function Violation(q: Requirement): Cause
  {
    match q
    case Tagged => TagViolation
    case Unsealed => SealViolation
    case MayLoad => PermitLoadViolation
    case MayLoadCap => PermitLoadCapabilityViolation
    case MayStore => PermitStoreViolation
    case MayStoreLocal => PermitStoreLocalCapabilityViolation
  }

  /** The position of the first requirement in `qs` that applies to `a` and that `c` fails. */
  function FirstViolated(qs: seq<Requirement>, c: Cap, a: Access): (r: Option<nat>)
    ensures r.None? <==> forall i :: 0 <= i < |qs| ==> (Applies(qs[i], a) ==> Met(qs[i], c))
    ensures r.Some? ==> r.value < |qs| && Applies(qs[r.value], a) && !Met(qs[r.value], c)
    ensures r.Some? ==> forall j :: 0 <= j < r.value ==> (Applies(qs[j], a) ==> Met(qs[j], c))
  {
    if qs == [] then None
    else if Applies(qs[0], a) && !Met(qs[0], c) then Some(0)
    else
      match FirstViolated(qs[1..], c, a)
      case None => None
      case Some(k) => Some(k + 1)
  }

  /** Every requirement that applies to `a` is met by `c`. */
  predicate Authorises(c: Cap, a: Access)
  {
    forall i :: 0 <= i < |Priority()| ==> (Applies(Priority()[i], a) ==> Met(Priority()[i], c))
  }

  /** `base + offset()`, on `reg_t`, is the cursor. */
  lemma BasePlusOffset(c: Cap)
    ensures Add64(c.base, c.Offset()) == c.cursor
  {
  }

  /**
   * `memop_to_addr(auth, authidx, offset, len, ...)`: the address the
   * access touches, `cursor + offset` on `reg_t`, once `auth` has passed
   * the tag, seal and permission tests in order and then the bounds.
   * There is no test of the execute permission.
   */
  function MemopToAddr(auth: Cap, authidx: RegIdx, offset: u64, len: u64, a: Access): (r: Result<u64>)
    requires WellFormedAccess(a)
    ensures r.Ok? <==>
      Authorises(auth, a) && CheckInBounds(auth, authidx, Add64(auth.cursor, offset), len).Ok?
    ensures r.Ok? ==> r.value == Add64(auth.cursor, offset)
    ensures FirstViolated(Priority(), auth, a).Some? ==>
      r == Err(CheriFault(Violation(Priority()[FirstViolated(Priority(), auth, a).value]), authidx))
    ensures FirstViolated(Priority(), auth, a).None? && r.Err? ==>
      r.fault == CheriFault(LengthViolation, authidx)
  {
    var addr := Add64(Add64(auth.base, auth.Offset()), offset);
    PriorityUnrolled(auth, a);
    if !auth.tag then
      Err(CheriFault(TagViolation, authidx))
    else if auth.Sealed() then
      Err(CheriFault(SealViolation, authidx))
    else if a.load && !auth.HasPerm(PERMIT_LOAD) then
      Err(CheriFault(PermitLoadViolation, authidx))
    else if a.load && a.capOp && !auth.HasPerm(PERMIT_LOAD_CAPABILITY) then
      Err(CheriFault(PermitLoadCapabilityViolation, authidx))
    else if a.store && !auth.HasPerm(PERMIT_STORE) then
      Err(CheriFault(PermitStoreViolation, authidx))
    else if a.store && a.storeLocal && !auth.HasPerm(PERMIT_STORE_LOCAL_CAPABILITY) then
      Err(CheriFault(PermitStoreLocalCapabilityViolation, authidx))
    else
      match CheckInBounds(auth, authidx, addr, len)
      case Err(f) => Err(f)
      case Ok(_) => Ok(addr)
  }

  /** The null capability is refused by its tag, whatever the access. */
  lemma NullFailsTagCheck(cursor: u64, authidx: RegIdx, offset: u64, len: u64, a: Access)
    requires WellFormedAccess(a)
    ensures MemopToAddr(Null(cursor), authidx, offset, len, a) == Err(CheriFault(TagViolation, authidx))
  {
    PriorityUnrolled(Null(cursor), a);
  }

  /** One step of `FirstViolated`: the head, or the first violation in the tail, shifted by one. */
  lemma FirstViolatedCons(q: Requirement, qs: seq<Requirement>, c: Cap, a: Access)
    ensures FirstViolated([q] + qs, c, a) ==
      if Applies(q, a) && !Met(q, c) then Some(0)
      else if FirstViolated(qs, c, a).Some? then Some(FirstViolated(qs, c, a).value + 1)
      else None
  {
    assert ([q] + qs)[1..] == qs;
  }

  /** `FirstViolated` over the fixed priority list, spelled out. */
  lemma PriorityUnrolled(c: Cap, a: Access)
    ensures FirstViolated(Priority(), c, a) ==
      if !c.tag then Some(0)
      else if c.Sealed() then Some(1)
      else if a.load && !c.HasPerm(PERMIT_LOAD) then Some(2)
      else if a.load && a.capOp && !c.HasPerm(PERMIT_LOAD_CAPABILITY) then Some(3)
      else if a.store && !c.HasPerm(PERMIT_STORE) then Some(4)
      else if a.store && a.storeLocal && !c.HasPerm(PERMIT_STORE_LOCAL_CAPABILITY) then Some(5)
      else None
  {
    assert [MayStoreLocal] + [] == [MayStoreLocal];
    assert [MayStore] + [MayStoreLocal] == [MayStore, MayStoreLocal];
    assert [MayLoadCap] + [MayStore, MayStoreLocal] == [MayLoadCap, MayStore, MayStoreLocal];
    assert [MayLoad] + [MayLoadCap, MayStore, MayStoreLocal] == [MayLoad, MayLoadCap, MayStore, MayStoreLocal];
    assert [Unsealed] + [MayLoad, MayLoadCap, MayStore, MayStoreLocal] ==
      [Unsealed, MayLoad, MayLoadCap, MayStore, MayStoreLocal];
    assert [Tagged] + [Unsealed, MayLoad, MayLoadCap, MayStore, MayStoreLocal] == Priority();
    FirstViolatedCons(MayStoreLocal, [], c, a);
    FirstViolatedCons(MayStore, [MayStoreLocal], c, a);
    FirstViolatedCons(MayLoadCap, [MayStore, MayStoreLocal], c, a);
    FirstViolatedCons(MayLoad, [MayLoadCap, MayStore, MayStoreLocal], c, a);
    FirstViolatedCons(Unsealed, [MayLoad, MayLoadCap, MayStore, MayStoreLocal], c, a);
    FirstViolatedCons(Tagged, [Unsealed, MayLoad, MayLoadCap, MayStore, MayStoreLocal], c, a);
  }

  /**
   * `check_ifetch_granule(start_addr, addr)` against the stored PCC: the
   * first granule of an instruction is checked like a memory access at
   * `addr`; later granules only against the bounds.
   */
  function IfetchGranule(pcc: Cap, startAddr: u64, addr: u64): (r: Result<()>)
    ensures r.Ok? <==>
      (startAddr == addr ==> pcc.tag && !pcc.Sealed()) &&
      pcc.base <= addr && addr + 2 < TWO64 && addr + 2 <= pcc.top
    ensures r.Err? ==> r.fault == CheriFault(
      if startAddr == addr && !pcc.tag then TagViolation
      else if startAddr == addr && pcc.Sealed() then SealViolation
      else LengthViolation,
      ScrIdx(CHERI_SCR_PCC))
  {
    var authidx := ScrIdx(CHERI_SCR_PCC);
    if startAddr == addr then
      var offset := Sub64(Sub64(addr, pcc.base), pcc.Offset());
      FetchOffsetLandsOnAddr(pcc, addr);
      match MemopToAddr(pcc, authidx, offset, 2, Access(false, false, true, false, false))
      case Err(f) => Err(f)
      case Ok(_) => Ok(())
    else
      CheckInBounds(pcc, authidx, addr, 2)
  }

  /** The offset the fetch check passes to `memop_to_addr` brings the cursor back to `addr`. */
  lemma FetchOffsetLandsOnAddr(pcc: Cap, addr: u64)
    ensures Add64(pcc.cursor, Sub64(Sub64(addr, pcc.base), pcc.Offset())) == addr
  {
  }

  /** Instruction fetch does not depend on the execute permission of PCC. */
  lemma FetchIgnoresExecutePermission(pcc: Cap, startAddr: u64, addr: u64)
    ensures IfetchGranule(pcc.(perms := pcc.perms - {PERMIT_EXECUTE}), startAddr, addr) ==
            IfetchGranule(pcc, startAddr, addr)
  {
  }
}
