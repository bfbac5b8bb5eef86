/** Single bits of a 32-bit register value.

    A bit is named by its mask: a word with exactly one bit set.  "Every
    other bit is unchanged" is then a statement over all such masks, which
    the solver decides without arithmetic on bit positions. */
module Bits {

  /** `m` has exactly one bit set. */
  predicate IsBit(m: bv32) {
    m != 0 && m & (m - 1) == 0
  }

  /** The bit selected by the single-bit mask `m` is set in `w`. */
  predicate Has(w: bv32, m: bv32) {
    w & m != 0
  }

  /** `a` and `b` agree on every bit except those of `except`. */
  ghost predicate SameBitsExcept(a: bv32, b: bv32, except: bv32) {
    forall m | IsBit(m) && m & except == 0 :: Has(a, m) == Has(b, m)
  }

  /** A mask disjoint from `except` sees the same bits of `a` whether or
      not the bits of `except` are first cleared from `a`. */
  lemma AndOutside(a: bv32, m: bv32, except: bv32)
    requires m & except == 0
    ensures a & m == (a & !except) & m
  {
  }

  /** Two words equal once the bits of `except` are cleared agree on every
      single bit outside `except`. */
  lemma MaskedEqualSameBits(a: bv32, b: bv32, except: bv32)
    requires a & !except == b & !except
    ensures SameBitsExcept(a, b, except)
  {
    forall m | IsBit(m) && m & except == 0
      ensures Has(a, m) == Has(b, m)
    {
      AndOutside(a, m, except);
      AndOutside(b, m, except);
    }
  }
}
