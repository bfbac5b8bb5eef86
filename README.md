# Debug Control Block driver (cortex-m), modelled in Dafny

This project models the Debug Control Block (DCB) driver of the `cortex-m`
crate, `src/peripheral/dcb.rs`. The DCB is a block of four memory-mapped
32-bit debug registers of an ARMv7-M core:

- DHCSR, read-write: halting control and status.
- DCRSR, write-only: selects a core register.
- DCRDR, read-write: transfers core register data.
- DEMCR, read-write: exception and monitor control.

The driver offers three operations on the block:

- `enable_trace` sets TRCENA (bit 24 of DEMCR) with one read-modify-write.
- `disable_trace` clears TRCENA the same way.
- `is_debugger_attached` reads DHCSR and tests C_DEBUGEN (bit 0). That read
  has a hardware side effect: it clears the sticky flags S_RESET_ST (bit 25)
  and S_RETIRE_ST (bit 24), as section C1.6 of the ARMv7-M Architecture
  Reference Manual describes.

Files:

- `bits.dfy` (module `Bits`) names a single bit by its one-bit mask. It
  defines "two words agree on every bit outside a mask" and proves that
  equality after masking gives exactly that.
- `dcb.dfy` (module `Dcb`) holds the register-bit constants and the pure
  register transformations. `TraceOn` and `TraceOff` are the closures the
  driver passes to `modify`. `DhcsrAfterRead` is the effect of a DHCSR read,
  and `DebuggerAttached` is the bit-0 test.
- `dcb.dfy` also holds lemmas about runs of trace calls, and the class
  `RegisterBlock`. The class has one `bv32` field per register, accessor
  methods that follow each field's access mode, and the three driver
  operations as methods that update the fields in place.

DCRSR is a `ghost` field. `WriteDcrsr` records the written value for
specifications only, and compiled code cannot read it, which mirrors the
`WO<u32>` access mode.

`disable_trace` after `enable_trace` does not give TRCENA back its earlier
value; it always clears it. `EnableThenDisable` proves that the pair gives
back the original DEMCR exactly when TRCENA was clear to begin with.

## Model

| member | source | states |
|---|---|---|
| `Dcb.TraceOn` | src/peripheral/dcb.rs:29 | the enable closure leaves TRCENA (bit 24) set and every other bit of the word as it was |
| `Dcb.TraceOff` | src/peripheral/dcb.rs:35 | the disable closure leaves TRCENA clear and every other bit of the word as it was |
| `Dcb.DhcsrAfterRead` | src/peripheral/dcb.rs:46-47 | after a read, DHCSR has S_RESET_ST and S_RETIRE_ST clear and every other bit as before |
| `Dcb.DebuggerAttached` | src/peripheral/dcb.rs:49 | the test `& 0x1 == 1` is true exactly when C_DEBUGEN (bit 0) is set |
| `Dcb.TraceOnIdempotent` | src/peripheral/dcb.rs:29 | enabling trace twice gives the same DEMCR as enabling once |
| `Dcb.TraceOffIdempotent` | src/peripheral/dcb.rs:35 | disabling trace twice gives the same DEMCR as disabling once |
| `Dcb.EnableThenDisable` | src/peripheral/dcb.rs:27-36 | enable then disable equals disable alone, and gives back the start value exactly when TRCENA was clear |
| `Dcb.DisableThenEnable` | src/peripheral/dcb.rs:27-36 | disable then enable equals enable alone, and gives back the start value exactly when TRCENA was set |
| `Dcb.SecondCallWins` | src/peripheral/dcb.rs:27-36 | for any two consecutive trace calls, the result is what the second call alone makes of the start value |
| `Dcb.LastCallWins` | src/peripheral/dcb.rs:27-36 | after any non-empty run of trace calls, DEMCR is what the last call alone makes of the start value |
| `Dcb.SameLastCallSameResult` | src/peripheral/dcb.rs:27-36 | two runs of trace calls that end in the same call leave DEMCR equal |
| `Dcb.TraceCallsTouchOnlyTrcena` | src/peripheral/dcb.rs:27-36 | no run of trace calls changes a DEMCR bit other than TRCENA; TRCENA ends as the last call left it, or untouched by an empty run |
| `Dcb.DhcsrReadKeepsDebugen` | src/peripheral/dcb.rs:46-49 | a DHCSR read keeps C_DEBUGEN, so a second query gives the same answer, and a second read clears nothing more |
| `Dcb.RegisterBlock.ReadDhcsr` | src/peripheral/dcb.rs:13 | a DHCSR read returns the register's value and then clears its two sticky flags, touching nothing else |
| `Dcb.RegisterBlock.WriteDhcsr` | src/peripheral/dcb.rs:13 | a DHCSR write stores the value and changes no other register |
| `Dcb.RegisterBlock.WriteDcrsr` | src/peripheral/dcb.rs:15 | a DCRSR write records the value for specifications and changes no other register; the write-only register has no read method |
| `Dcb.RegisterBlock.ReadDcrdr` | src/peripheral/dcb.rs:17 | a DCRDR read returns the register's value and changes nothing |
| `Dcb.RegisterBlock.WriteDcrdr` | src/peripheral/dcb.rs:17 | a DCRDR write stores the value and changes no other register |
| `Dcb.RegisterBlock.ReadDemcr` | src/peripheral/dcb.rs:19 | a DEMCR read returns the register's value and changes nothing |
| `Dcb.RegisterBlock.WriteDemcr` | src/peripheral/dcb.rs:19 | a DEMCR write stores the value and changes no other register |
| `Dcb.RegisterBlock.ModifyDemcr` | src/peripheral/dcb.rs:19 | the read-modify-write of DEMCR leaves `f` applied to the old value, and the other registers unchanged |
| `Dcb.RegisterBlock.EnableTrace` | src/peripheral/dcb.rs:27-30 | `enable_trace` sets TRCENA, keeps every other DEMCR bit, and leaves DHCSR, DCRSR and DCRDR unchanged |
| `Dcb.RegisterBlock.DisableTrace` | src/peripheral/dcb.rs:33-36 | `disable_trace` clears TRCENA, keeps every other DEMCR bit, and leaves DHCSR, DCRSR and DCRDR unchanged |
| `Dcb.RegisterBlock.IsDebuggerAttached` | src/peripheral/dcb.rs:48-50 | the answer is true exactly when C_DEBUGEN was set before the read; the read clears S_RESET_ST and S_RETIRE_ST, keeps every other DHCSR bit, and leaves the other registers unchanged |

## Left out

- Volatile access and ordering: the `RW` and `WO` wrappers come from the `volatile_register` crate, which is not part of this model. Every register access is a plain field read or write.
- Atomicity of `modify`: nothing is modelled that could access DEMCR between the read and the write, such as an interrupt handler, a second core or the debugger. The code promises no atomicity either.
- Registers changing on their own: the hardware can set DHCSR status bits or change DEMCR between accesses. The model's registers change only through its methods.
- Singleton ownership of the block: the `DCB` handle and `Self::ptr()` come from the `peripheral` module, which is not part of this model. `is_debugger_attached` is an associated function that reaches the block through `Self::ptr()`. It is modelled as a method of the one `RegisterBlock` object, like the other two operations.
- `#[repr(C)]` layout and the block's base address: these are placement, not behaviour. The field order in `RegisterBlock` follows the offsets 0, 4, 8 and 12.
- Cortex-M0 behaviour: on those cores, software access to DHCSR is implementation defined and may always read "no debugger". This is noted in a comment, not in a contract.
- `unsafe` blocks and the raw-pointer dereference: they have no counterpart in Dafny.
- Dcb.RegisterBlock.WriteDhcsr: a real DHCSR write is ignored unless its upper half holds the DBGKEY value, and the status bits are read-only. The model stores the written value as it is, like any `RW` register. The driver never writes DHCSR.
- Dcb.RegisterBlock.WriteDcrsr: the written value is kept only for specifications; compiled code stores nothing, so the runtime store of the write-only register is not modelled. The core-register transfer protocol that a DCRSR write starts (DCRDR filled, S_REGRDY in DHCSR) is not modelled. The driver never uses it.
