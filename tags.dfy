/**
 * The tag memory: one validity bit per 16-byte capability granule of
 * physical memory (`tags_t<bool, N>` in `mem_tags`).  The CHERI extension
 * sizes it for a 2 GiB DRAM, so it holds 2^31 / 16 tags.
 */
module Tags {
  import opened Words

  /** `sizeof(cheri_reg_inmem_t)`: the size of a capability granule. */
  const CAP_SIZE_BYTES: nat := 16
  /** `BIT(31) / sizeof(cheri_reg_inmem_t)`: the `N` of `mem_tags`. */
  const TAG_COUNT: nat := 0x8000_0000 / CAP_SIZE_BYTES
  /** Spike's physical base of DRAM. */
  const DRAM_BASE: u64 := 0x8000_0000

  /**
   * A `std::vector` as far as element access is concerned: `size` elements
   * are readable and writable, `capacity` are allocated.
   */
  datatype VectorShape = VectorShape(size: nat, capacity: nat)

  /** `tags.reserve(N)` on a fresh vector: storage for N elements, none of them present. */
  function ReserveAsWritten(n: nat): (v: VectorShape)
    ensures v.capacity == n
  {
    VectorShape(0, n)
  }

  /**
   * The tag store as the `tags_t` constructor leaves it has no element at
   * all: every index `setTag` or `getTag` is ever given lies beyond its
   * end, and the `std::fill` of `reset` fills nothing.
   */
  lemma ReservedStoreHasNoElement(i: nat)
    requires i < TAG_COUNT
    ensures ReserveAsWritten(TAG_COUNT).size <= i
  {
  }

  /**
   * `tags_t<bool, TAG_COUNT>` with the storage its constructor evidently
   * means to create: TAG_COUNT tags, all clear.
   */
  class TagMemory {
    const tags: array<bool>

    ghost predicate Valid()
      reads this
    {
      tags.Length == TAG_COUNT
    }

    constructor ()
      ensures Valid() && fresh(tags)
      ensures forall i :: 0 <= i < tags.Length ==> !tags[i]
    {
      tags := new bool[TAG_COUNT](_ => false);
    }

    /** `reset()`: clear every tag. */
    method Reset()
      requires Valid()
      modifies tags
      ensures forall i :: 0 <= i < tags.Length ==> !tags[i]
    {
      var i := 0;
      while i < tags.Length
        invariant 0 <= i <= tags.Length
        invariant forall k :: 0 <= k < i ==> !tags[k]
      {
        tags[i] := false;
        i := i + 1;
      }
    }

    /** `setTag(i, v)`: one tag changes, the others keep their value. */
    method SetTag(i: nat, v: bool)
      requires Valid() && i < TAG_COUNT
      modifies tags
      ensures tags[..] == old(tags[..])[i := v]
    {
      tags[i] := v;
    }

    /** `getTag(i)`. */
    function GetTag(i: nat): bool
      requires Valid() && i < TAG_COUNT
      reads this, tags
    {
      tags[i]
    }
  }

  /**
   * The tag index of physical address `paddr`: `(paddr - DRAM_BASE) >> 4`
   * on `reg_t`, when that is below TAG_COUNT.  Exactly the addresses of
   * the 2 GiB DRAM have one, and it is the granule that holds the address.
   */
  function GranuleOf(paddr: u64): (g: Option<nat>)
    ensures g.Some? <==> DRAM_BASE <= paddr < DRAM_BASE + TAG_COUNT * CAP_SIZE_BYTES
    ensures g.Some? ==> g.value < TAG_COUNT
    ensures g.Some? ==>
      DRAM_BASE + CAP_SIZE_BYTES * g.value <= paddr < DRAM_BASE + CAP_SIZE_BYTES * (g.value + 1)
  {
    var idx := Sub64(paddr, DRAM_BASE) / CAP_SIZE_BYTES;
    if idx >= TAG_COUNT then None else Some(idx)
  }
}
