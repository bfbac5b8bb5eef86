/** The Debug Control Block (DCB) of an ARMv7-M core: its four debug
    registers and the three control operations built on them (enable
    trace, disable trace, ask whether a debugger is attached).

    Register and bit names follow section C1.6 of the ARMv7-M Architecture
    Reference Manual. Each volatile access is modelled as a plain field
    read or write. The one hardware side effect the driver documents is
    modelled too: reading DHCSR clears its two sticky status flags. */
module Dcb {
  import opened Bits

  /** DEMCR.TRCENA, bit 24: global enable of the DWT and ITM trace units. */
  const DEMCR_TRCENA: bv32 := 1 << 24

  /** DHCSR.C_DEBUGEN, bit 0: halting debug is enabled by a debugger. */
  const DHCSR_C_DEBUGEN: bv32 := 0x1

  /** DHCSR.S_RETIRE_ST, bit 24: an instruction retired since the last read. */
  const DHCSR_S_RETIRE_ST: bv32 := 1 << 24

  /** DHCSR.S_RESET_ST, bit 25: the core was reset since the last read. */
  const DHCSR_S_RESET_ST: bv32 := 1 << 25

  /** The bits of DHCSR that a read clears. */
  const DHCSR_STICKY: bv32 := DHCSR_S_RESET_ST | DHCSR_S_RETIRE_ST

  // ---------------------------------------------------------------------
  // The pure parts: what each access does to a register value.
  // ---------------------------------------------------------------------

  /** The closure `enable_trace` passes to `modify`: TRCENA forced on,
      every other bit of DEMCR kept. */
  function TraceOn(w: bv32): (r: bv32)
    ensures Has(r, DEMCR_TRCENA)
    ensures SameBitsExcept(r, w, DEMCR_TRCENA)
  {
    MaskedEqualSameBits(w | DEMCR_TRCENA, w, DEMCR_TRCENA);
    w | DEMCR_TRCENA
  }

  /** The closure `disable_trace` passes to `modify`: TRCENA forced off,
      every other bit of DEMCR kept. */
  function TraceOff(w: bv32): (r: bv32)
    ensures !Has(r, DEMCR_TRCENA)
    ensures SameBitsExcept(r, w, DEMCR_TRCENA)
  {
    MaskedEqualSameBits(w & !DEMCR_TRCENA, w, DEMCR_TRCENA);
    w & !DEMCR_TRCENA
  }

  /** The value DHCSR holds after it has been read: S_RESET_ST and
      S_RETIRE_ST cleared, every other bit kept. */
  function DhcsrAfterRead(v: bv32): (r: bv32)
    ensures !Has(r, DHCSR_S_RESET_ST) && !Has(r, DHCSR_S_RETIRE_ST)
    ensures SameBitsExcept(r, v, DHCSR_STICKY)
  {
    MaskedEqualSameBits(v & !DHCSR_STICKY, v, DHCSR_STICKY);
    v & !DHCSR_STICKY
  }

  /** The test `is_debugger_attached` applies to the DHCSR value it read. */
  function DebuggerAttached(v: bv32): (attached: bool)
    ensures attached <==> Has(v, DHCSR_C_DEBUGEN)
  {
    v & 0x1 == 1
  }

  // ---------------------------------------------------------------------
  // Sequences of trace calls.
  // ---------------------------------------------------------------------

  /** A call of `enable_trace` or of `disable_trace`. */
  datatype TraceCall = Enable | Disable

  /** What one trace call does to DEMCR. */
  function Apply(c: TraceCall, w: bv32): (r: bv32) {
    match c
    case Enable => TraceOn(w)
    case Disable => TraceOff(w)
  }

  /** DEMCR after the calls `cs`, made in order, starting from `w`. */
  function ApplyAll(cs: seq<TraceCall>, w: bv32): (r: bv32)
    decreases |cs|
  {
    if cs == [] then w else ApplyAll(cs[1..], Apply(cs[0], w))
  }

  /** Enabling twice is enabling once. */
  lemma TraceOnIdempotent(w: bv32)
    ensures TraceOn(TraceOn(w)) == TraceOn(w)
  {
  }

  /** Disabling twice is disabling once. */
  lemma TraceOffIdempotent(w: bv32)
    ensures TraceOff(TraceOff(w)) == TraceOff(w)
  {
  }

  /** Enable then disable gives the start value with TRCENA clear; this is
      the start value itself exactly when TRCENA was clear to begin with. */
  lemma EnableThenDisable(w: bv32)
    ensures TraceOff(TraceOn(w)) == TraceOff(w)
    ensures TraceOff(TraceOn(w)) == w <==> !Has(w, DEMCR_TRCENA)
  {
  }

  /** Disable then enable gives the start value with TRCENA set; this is
      the start value itself exactly when TRCENA was set to begin with. */
  lemma DisableThenEnable(w: bv32)
    ensures TraceOn(TraceOff(w)) == TraceOn(w)
    ensures TraceOn(TraceOff(w)) == w <==> Has(w, DEMCR_TRCENA)
  {
  }

  /** Of two consecutive trace calls only the second matters: the four
      cases above, one per pair of calls. */
  lemma SecondCallWins(c: TraceCall, d: TraceCall, w: bv32)
    ensures Apply(d, Apply(c, w)) == Apply(d, w)
  {
    match c
    case Enable =>
      TraceOnIdempotent(w);
      EnableThenDisable(w);
    case Disable =>
      DisableThenEnable(w);
      TraceOffIdempotent(w);
  }

  /** After any non-empty run of trace calls DEMCR is what the last call
      alone would have made of the start value. */
  lemma {:induction false} LastCallWins(cs: seq<TraceCall>, w: bv32)
    requires cs != []
    ensures ApplyAll(cs, w) == Apply(cs[|cs| - 1], w)
    decreases |cs|
  {
    if |cs| > 1 {
      LastCallWins(cs[1..], Apply(cs[0], w));
      SecondCallWins(cs[0], cs[|cs| - 1], w);
    }
  }

  /** Two non-empty runs of trace calls that end in the same call leave
      DEMCR in the same state. */
  lemma SameLastCallSameResult(cs: seq<TraceCall>, ds: seq<TraceCall>, w: bv32)
    requires cs != [] && ds != []
    requires cs[|cs| - 1] == ds[|ds| - 1]
    ensures ApplyAll(cs, w) == ApplyAll(ds, w)
  {
    LastCallWins(cs, w);
    LastCallWins(ds, w);
  }

  /** No run of trace calls changes a DEMCR bit other than TRCENA, and
      TRCENA ends up as the last call set it (or untouched, if none). */
  lemma {:induction false} TraceCallsTouchOnlyTrcena(cs: seq<TraceCall>, w: bv32)
    ensures SameBitsExcept(ApplyAll(cs, w), w, DEMCR_TRCENA)
    ensures Has(ApplyAll(cs, w), DEMCR_TRCENA) <==>
              if cs == [] then Has(w, DEMCR_TRCENA) else cs[|cs| - 1] == Enable
  {
    if cs != [] {
      LastCallWins(cs, w);
    }
  }

  /** A DHCSR read keeps C_DEBUGEN, so a second query right after a first
      gives the same answer; and a second read clears nothing more. */
  lemma DhcsrReadKeepsDebugen(v: bv32)
    ensures DebuggerAttached(DhcsrAfterRead(v)) == DebuggerAttached(v)
    ensures DhcsrAfterRead(DhcsrAfterRead(v)) == DhcsrAfterRead(v)
  {
  }

  // ---------------------------------------------------------------------
  // The register block and the driver's operations on it.
  // ---------------------------------------------------------------------

  /** The four memory-mapped DCB registers, in address order (offsets 0,
      4, 8 and 12). DCRSR is write-only: it is a ghost field, so compiled
      code can never read it; WriteDcrsr records the written value for
      specifications only. */
  class RegisterBlock {
    /** Debug Halting Control and Status Register (read-write). */
    var dhcsr: bv32
    /** Debug Core Register Selector Register (write-only). */
    ghost var dcrsr: bv32
    /** Debug Core Register Data Register (read-write). */
    var dcrdr: bv32
    /** Debug Exception and Monitor Control Register (read-write). */
    var demcr: bv32

    /** Reads DHCSR. The read returns the current value and, as a hardware
        side effect, clears S_RESET_ST and S_RETIRE_ST. */
    method ReadDhcsr() returns (v: bv32)
      modifies this`dhcsr
      ensures v == old(dhcsr)
      ensures dhcsr == DhcsrAfterRead(old(dhcsr))
    {
      v := dhcsr;
      dhcsr := DhcsrAfterRead(dhcsr);
    }

    /** Writes DHCSR. */
    method WriteDhcsr(v: bv32)
      modifies this`dhcsr
      ensures dhcsr == v
    {
      dhcsr := v;
    }

    /** Writes DCRSR, the write-only register; there is no read. */
    method WriteDcrsr(v: bv32)
      modifies this`dcrsr
      ensures dcrsr == v
    {
      dcrsr := v;
    }

    /** Reads DCRDR; the read has no side effect. */
    method ReadDcrdr() returns (v: bv32)
      ensures v == dcrdr
    {
      v := dcrdr;
    }

    /** Writes DCRDR. */
    method WriteDcrdr(v: bv32)
      modifies this`dcrdr
      ensures dcrdr == v
    {
      dcrdr := v;
    }

    /** Reads DEMCR; the read has no side effect. */
    method ReadDemcr() returns (v: bv32)
      ensures v == demcr
    {
      v := demcr;
    }

    /** Writes DEMCR. */
    method WriteDemcr(v: bv32)
      modifies this`demcr
      ensures demcr == v
    {
      demcr := v;
    }

    /** Read-modify-write of DEMCR: reads it, applies `f`, writes the
        result back. Not atomic: another context may write in between. */
    method ModifyDemcr(f: bv32 -> bv32)
      modifies this`demcr
      ensures demcr == f(old(demcr))
    {
      var w := ReadDemcr();
      WriteDemcr(f(w));
    }

    /** `DCB::enable_trace`: sets TRCENA in DEMCR and changes nothing else. */
    method EnableTrace()
      modifies this`demcr
      ensures demcr == Apply(Enable, old(demcr))
      ensures Has(demcr, DEMCR_TRCENA)
      ensures SameBitsExcept(demcr, old(demcr), DEMCR_TRCENA)
      ensures dhcsr == old(dhcsr) && dcrsr == old(dcrsr) && dcrdr == old(dcrdr)
    {
      ModifyDemcr(TraceOn);
    }

    /** `DCB::disable_trace`: clears TRCENA in DEMCR and changes nothing else. */
    method DisableTrace()
      modifies this`demcr
      ensures demcr == Apply(Disable, old(demcr))
      ensures !Has(demcr, DEMCR_TRCENA)
      ensures SameBitsExcept(demcr, old(demcr), DEMCR_TRCENA)
      ensures dhcsr == old(dhcsr) && dcrsr == old(dcrsr) && dcrdr == old(dcrdr)
    {
      ModifyDemcr(TraceOff);
    }

    /** `DCB::is_debugger_attached`: true exactly when C_DEBUGEN was set in
        DHCSR at the time of the read. Not a pure query: the read clears
        S_RESET_ST and S_RETIRE_ST, and nothing else changes. On Cortex-M0
        class cores software access to DHCSR is implementation defined and
        may always read as "no debugger"; the model follows the ARMv7-M
        behaviour. */
    method IsDebuggerAttached() returns (attached: bool)
      modifies this`dhcsr
      ensures attached <==> Has(old(dhcsr), DHCSR_C_DEBUGEN)
      ensures !Has(dhcsr, DHCSR_S_RESET_ST) && !Has(dhcsr, DHCSR_S_RETIRE_ST)
      ensures SameBitsExcept(dhcsr, old(dhcsr), DHCSR_STICKY)
      ensures dcrsr == old(dcrsr) && dcrdr == old(dcrdr) && demcr == old(demcr)
    {
      var v := ReadDhcsr();
      attached := DebuggerAttached(v);
    }
  }
}
