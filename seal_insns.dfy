/**
 * Sealing: CSeal, CCSeal and CUnseal.  A sealed capability carries the
 * object type taken from the address of a sealing authority (`c2`), and
 * only a matching authority with the unseal permission restores it.
 */
module SealInsns {
  import opened Words
  import opened CapTypes
  import opened Faults

  /** `c2` may seal or unseal with object type `t`: its address is `t` and lies within its bounds. */
  predicate TypeAuthorised(c2: Cap, t: nat)
  {
    c2.cursor == t && c2.base <= c2.cursor && c2.cursor < c2.top
  }

  /**
   * CSeal as written: the authority's address is tested against its top
   * and against `OTYPE_MAX`, but not against its base.
   */
  function CSealAsWritten(lib: CompressLib, cs1: RegIdx, c1: Cap, cs2: RegIdx, c2: Cap): (r: Result<Cap>)
    ensures r.Ok? ==> c2.cursor <= OTYPE_MAX && r.value == c1.(otype := c2.cursor) && r.value.Sealed()
  {
    if !c1.tag then Err(CheriFault(TagViolation, cs1))
    else if !c2.tag then Err(CheriFault(TagViolation, cs2))
    else if c1.Sealed() then Err(CheriFault(SealViolation, cs1))
    else if c2.Sealed() then Err(CheriFault(SealViolation, cs2))
    else if !c2.HasPerm(PERMIT_SEAL) then Err(CheriFault(PermitSealViolation, cs2))
    else if c2.cursor >= c2.top then Err(CheriFault(LengthViolation, cs2))
    else if c2.cursor > OTYPE_MAX then Err(CheriFault(LengthViolation, cs2))
    else if !lib.representableSeal(true, c1.base, c1.Length(), c1.Offset()) then
      Err(CheriFault(RepresentabilityViolation, cs1))
    else Ok(c1.(otype := c2.cursor))
  }

  /**
   * A sealing authority for the types [0x100, 0x200) whose address is
   * 0x10: as written it seals with type 0x10, outside what it authorises,
   * whenever the library finds the sealed capability representable; the
   * corrected CSeal refuses.
   */
  lemma CSealFindingWitness(lib: CompressLib)
    ensures var c2 := Almighty(0x10).(base := 0x100, top := 0x200);
      && (CSealAsWritten(lib, 1, Almighty(0), 2, c2).Ok? <==> lib.representableSeal(true, 0, TWO64, 0))
      && !TypeAuthorised(c2, 0x10)
      && CSeal(lib, 1, Almighty(0), 2, c2) == Err(CheriFault(LengthViolation, 2))
  {
    var c2 := Almighty(0x10).(base := 0x100, top := 0x200);
    assert c2.HasPerm(PERMIT_SEAL);
    assert Almighty(0).Length() == TWO64;
  }

  /**
   * CSeal cd, cs1, cs2 as evidently intended: `c1` sealed with the object
   * type given by the address of `c2`, which must be within `c2`'s bounds,
   * at most `OTYPE_MAX`, and carry the seal permission.
   */
  function CSeal(lib: CompressLib, cs1: RegIdx, c1: Cap, cs2: RegIdx, c2: Cap): (r: Result<Cap>)
    ensures r.Ok? <==>
      c1.tag && c2.tag && !c1.Sealed() && !c2.Sealed() && c2.HasPerm(PERMIT_SEAL) &&
      TypeAuthorised(c2, c2.cursor) && c2.cursor <= OTYPE_MAX &&
      lib.representableSeal(true, c1.base, c1.Length(), c1.Offset())
    ensures r.Ok? ==> r.value == c1.(otype := c2.cursor) && r.value.Sealed()
    // the tests in the order the source makes them; the first that fails names the fault
    ensures var t1 := c1.tag; var t2 := t1 && c2.tag; var t3 := t2 && !c1.Sealed(); var t4 := t3 && !c2.Sealed();
      var t5 := t4 && c2.HasPerm(PERMIT_SEAL); var t6 := t5 && TypeAuthorised(c2, c2.cursor);
      var t7 := t6 && c2.cursor <= OTYPE_MAX;
      && (!t1 ==> r == Err(CheriFault(TagViolation, cs1)))
      && (t1 && !c2.tag ==> r == Err(CheriFault(TagViolation, cs2)))
      && (t2 && c1.Sealed() ==> r == Err(CheriFault(SealViolation, cs1)))
      && (t3 && c2.Sealed() ==> r == Err(CheriFault(SealViolation, cs2)))
      && (t4 && !c2.HasPerm(PERMIT_SEAL) ==> r == Err(CheriFault(PermitSealViolation, cs2)))
      && (t5 && !TypeAuthorised(c2, c2.cursor) ==> r == Err(CheriFault(LengthViolation, cs2)))
      && (t6 && c2.cursor > OTYPE_MAX ==> r == Err(CheriFault(LengthViolation, cs2)))
      && (t7 && !lib.representableSeal(true, c1.base, c1.Length(), c1.Offset()) ==>
            r == Err(CheriFault(RepresentabilityViolation, cs1)))
  {
    if !c1.tag then Err(CheriFault(TagViolation, cs1))
    else if !c2.tag then Err(CheriFault(TagViolation, cs2))
    else if c1.Sealed() then Err(CheriFault(SealViolation, cs1))
    else if c2.Sealed() then Err(CheriFault(SealViolation, cs2))
    else if !c2.HasPerm(PERMIT_SEAL) then Err(CheriFault(PermitSealViolation, cs2))
    else if c2.cursor < c2.base then Err(CheriFault(LengthViolation, cs2))
    else if c2.cursor >= c2.top then Err(CheriFault(LengthViolation, cs2))
    else if c2.cursor > OTYPE_MAX then Err(CheriFault(LengthViolation, cs2))
    else if !lib.representableSeal(true, c1.base, c1.Length(), c1.Offset()) then
      Err(CheriFault(RepresentabilityViolation, cs1))
    else Ok(c1.(otype := c2.cursor))
  }

  /**
   * CCSeal cd, cs1, cs2: seal `c1` with `c2`'s address, unless `c2` is
   * untagged or its address is all ones, in which case `c1` passes
   * through unchanged.  There is no representability test.
   */
  function CCSeal(cs1: RegIdx, c1: Cap, cs2: RegIdx, c2: Cap): (r: Result<Cap>)
    ensures !c1.tag ==> r == Err(CheriFault(TagViolation, cs1))
    ensures c1.tag && (!c2.tag || c2.cursor == UINT64_MAX) ==> r == Ok(c1)
    ensures r.Ok? && r.value != c1 ==>
      c2.tag && c2.HasPerm(PERMIT_SEAL) && c2.cursor < c2.top && c2.cursor <= OTYPE_MAX &&
      r.value == c1.(otype := c2.cursor) && r.value.Sealed() && !c1.Sealed()
    ensures r.Ok? ==> r.value.tag
    // the sealing path: the tests in the order the source makes them, and success when all pass
    ensures var t0 := c1.tag && c2.tag && c2.cursor != UINT64_MAX;
      var t1 := t0 && !c1.Sealed(); var t2 := t1 && !c2.Sealed(); var t3 := t2 && c2.HasPerm(PERMIT_SEAL);
      var t4 := t3 && c2.cursor < c2.top; var t5 := t4 && c2.cursor <= OTYPE_MAX;
      && (t0 && c1.Sealed() ==> r == Err(CheriFault(SealViolation, cs1)))
      && (t1 && c2.Sealed() ==> r == Err(CheriFault(SealViolation, cs2)))
      && (t2 && !c2.HasPerm(PERMIT_SEAL) ==> r == Err(CheriFault(PermitSealViolation, cs2)))
      && (t3 && c2.cursor >= c2.top ==> r == Err(CheriFault(LengthViolation, cs2)))
      && (t4 && c2.cursor > OTYPE_MAX ==> r == Err(CheriFault(LengthViolation, cs2)))
      && (t0 ==> (r.Ok? <==> t5))
      && (t5 ==> r == Ok(c1.(otype := c2.cursor)))
  {
    if !c1.tag then Err(CheriFault(TagViolation, cs1))
    else if !c2.tag || c2.cursor == UINT64_MAX then Ok(c1)
    else if c1.Sealed() then Err(CheriFault(SealViolation, cs1))
    else if c2.Sealed() then Err(CheriFault(SealViolation, cs2))
    else if !c2.HasPerm(PERMIT_SEAL) then Err(CheriFault(PermitSealViolation, cs2))
    else if c2.cursor >= c2.top then Err(CheriFault(LengthViolation, cs2))
    else if c2.cursor > OTYPE_MAX then Err(CheriFault(LengthViolation, cs2))
    else Ok(c1.(otype := c2.cursor))
  }

  /** The permissions CUnseal keeps: GLOBAL only if the authority has it too. */
  function UnsealPerms(p1: Perms, p2: Perms): (r: Perms)
    ensures r <= p1
    ensures forall p: PermIndex :: p != PERMIT_GLOBAL ==> (p in r <==> p in p1)
    ensures PERMIT_GLOBAL in r <==> PERMIT_GLOBAL in p1 && PERMIT_GLOBAL in p2
  {
    p1 * (p2 + (ALL_PERMS - {PERMIT_GLOBAL}))
  }

  /**
   * CUnseal as written: the result's object type is set to 0 rather than
   * to the unsealed type, so by the `sealed()` test the result is still
   * sealed.
   */
  function CUnsealAsWritten(cs1: RegIdx, c1: Cap, cs2: RegIdx, c2: Cap): (r: Result<Cap>)
    ensures r.Ok? ==> r.value.Sealed()
  {
    if !c1.tag then Err(CheriFault(TagViolation, cs1))
    else if !c2.tag then Err(CheriFault(TagViolation, cs2))
    else if !c1.Sealed() then Err(CheriFault(SealViolation, cs1))
    else if c2.Sealed() then Err(CheriFault(SealViolation, cs2))
    else if c2.cursor != c1.otype then Err(CheriFault(TypeViolation, cs2))
    else if !c2.HasPerm(PERMIT_UNSEAL) then Err(CheriFault(PermitUnsealViolation, cs2))
    else if c2.cursor >= c2.top then Err(CheriFault(LengthViolation, cs2))
    else Ok(c1.(otype := 0, perms := UnsealPerms(c1.perms, c2.perms)))
  }

  /**
   * CUnseal cd, cs1, cs2 as evidently intended: `c1`, sealed with the type
   * given by `c2`'s address, comes back unsealed; GLOBAL survives only if
   * both carry it.  Like CSeal, the authority's address must lie within
   * its bounds.
   */
  function CUnseal(cs1: RegIdx, c1: Cap, cs2: RegIdx, c2: Cap): (r: Result<Cap>)
    ensures r.Ok? <==>
      c1.tag && c2.tag && c1.Sealed() && !c2.Sealed() && c2.HasPerm(PERMIT_UNSEAL) &&
      TypeAuthorised(c2, c1.otype)
    ensures r.Ok? ==> !r.value.Sealed() && r.value.tag
    ensures r.Ok? ==> r.value.perms <= c1.perms
    ensures r.Ok? ==> (r.value.HasPerm(PERMIT_GLOBAL) <==> c1.HasPerm(PERMIT_GLOBAL) && c2.HasPerm(PERMIT_GLOBAL))
    // only the object type and the GLOBAL permission change: bounds, cursor, other permissions,
    // user permissions and flags are kept
    ensures r.Ok? ==> r.value == c1.(otype := OTYPE_UNSEALED, perms := UnsealPerms(c1.perms, c2.perms))
    // the tests in the order the source makes them; the first that fails names the fault
    ensures var t1 := c1.tag; var t2 := t1 && c2.tag; var t3 := t2 && c1.Sealed(); var t4 := t3 && !c2.Sealed();
      var t5 := t4 && c2.cursor == c1.otype; var t6 := t5 && c2.HasPerm(PERMIT_UNSEAL);
      && (!t1 ==> r == Err(CheriFault(TagViolation, cs1)))
      && (t1 && !c2.tag ==> r == Err(CheriFault(TagViolation, cs2)))
      && (t2 && !c1.Sealed() ==> r == Err(CheriFault(SealViolation, cs1)))
      && (t3 && c2.Sealed() ==> r == Err(CheriFault(SealViolation, cs2)))
      && (t4 && c2.cursor != c1.otype ==> r == Err(CheriFault(TypeViolation, cs2)))
      && (t5 && !c2.HasPerm(PERMIT_UNSEAL) ==> r == Err(CheriFault(PermitUnsealViolation, cs2)))
      && (t6 && !TypeAuthorised(c2, c1.otype) ==> r == Err(CheriFault(LengthViolation, cs2)))
  {
    if !c1.tag then Err(CheriFault(TagViolation, cs1))
    else if !c2.tag then Err(CheriFault(TagViolation, cs2))
    else if !c1.Sealed() then Err(CheriFault(SealViolation, cs1))
    else if c2.Sealed() then Err(CheriFault(SealViolation, cs2))
    else if c2.cursor != c1.otype then Err(CheriFault(TypeViolation, cs2))
    else if !c2.HasPerm(PERMIT_UNSEAL) then Err(CheriFault(PermitUnsealViolation, cs2))
    else if c2.cursor < c2.base then Err(CheriFault(LengthViolation, cs2))
    else if c2.cursor >= c2.top then Err(CheriFault(LengthViolation, cs2))
    else Ok(c1.(otype := OTYPE_UNSEALED, perms := UnsealPerms(c1.perms, c2.perms)))
  }

  /** The capability as written unseals a capability to: object type 0, which `sealed()` reads as sealed. */
  lemma CUnsealFindingWitness()
    ensures var c1 := Almighty(0).(otype := 5);
      var c2 := Almighty(5);
      && CUnsealAsWritten(1, c1, 2, c2).Ok? && CUnsealAsWritten(1, c1, 2, c2).value.Sealed()
      && CUnseal(1, c1, 2, c2).Ok? && !CUnseal(1, c1, 2, c2).value.Sealed()
  {
    assert Almighty(5).HasPerm(PERMIT_UNSEAL);
  }

  /**
   * An unsealing authority for the types [0x100, 0x200) whose address is
   * 0x10 unseals a capability of type 0x10 as written; the corrected
   * CUnseal refuses, as CSeal refuses to seal with it.
   */
  lemma CUnsealBaseFindingWitness()
    ensures var c1 := Almighty(0).(otype := 0x10);
      var c2 := Almighty(0x10).(base := 0x100, top := 0x200);
      && CUnsealAsWritten(1, c1, 2, c2).Ok?
      && !TypeAuthorised(c2, c1.otype)
      && CUnseal(1, c1, 2, c2) == Err(CheriFault(LengthViolation, 2))
  {
    assert Almighty(0x10).HasPerm(PERMIT_UNSEAL);
  }

  /**
   * Sealing and then unsealing with one authority that may do both and
   * is global gives back the original capability.
   */
  lemma SealUnsealRoundTrip(lib: CompressLib, c1: Cap, c2: Cap)
    requires CSeal(lib, 1, c1, 2, c2).Ok?
    requires c2.HasPerm(PERMIT_UNSEAL) && c2.HasPerm(PERMIT_GLOBAL)
    ensures CUnseal(1, CSeal(lib, 1, c1, 2, c2).value, 2, c2) == Ok(c1)
  {
    var s := CSeal(lib, 1, c1, 2, c2).value;
    assert UnsealPerms(c1.perms, c2.perms) == c1.perms;
  }
}
