# rustos-old driver core in Dafny

This project models three parts of a small x86-64 kernel written in Rust and proves
properties about them:

- **The VGA text console writer** (`src/vga/text.rs`). The writer keeps a 25 x 80 grid of
  character cells, a cursor (`row_position`, `column_position`) and a colour. It writes bytes,
  breaks lines, scrolls, and clears rows and the whole buffer. It keeps the hardware cursor
  in step by writing to the CRT controller's ports. `VgaText.Console` is the writer's state
  as a value and gives each operation as a step function. `VgaText.Writer` is the object the
  kernel updates in place, over a two-dimensional array of cells. Each of its methods is
  proved to perform the matching step.
- **CPU exception dispatch** (`src/interrupts/mod.rs`). This covers the page-fault
  error-code flags and `from_bits`, and the interrupt descriptor table built at boot. It
  covers the two entry trampolines (`handler!` and `handler_with_error_code!`), modelled as
  stack-pointer arithmetic on a small CPU state. It also covers whether each handler
  returns. `Interrupts.Cpu.RaiseException` connects them: the CPU pushes a frame, the table's
  trampoline runs, and the handler sees that frame.
- **The 16550-style UART driver** (`src/io/serial.rs`). Register offsets, the divisor-latch
  access bit (DLAB), the baud-rate divisor, the divisor-latch byte split and the
  line-status guards are modelled over a register file keyed by port offset. Every `inb`
  and `outb` is recorded on a bus log. The driver is modelled as written. In particular,
  `set_divisor_latch` sends the latch's low byte to offset 1, and `get_divisor_latch` ors
  the two bytes together without a shift. So a latch reads back unchanged only when it is
  below 256 (`Serial.LatchRoundTrip`), and a rate reads back as itself exactly when it is
  above 450 (`Serial.BaudRoundTrip`). At 300 baud, `get_baud_rate` reports 893
  (`Serial.BaudRateAt300ReadsBackAs893`). On a 16550, offset 0 holds the divisor's low byte
  and offset 1 its high byte, so the device is programmed with the divisor's bytes swapped
  (`Serial.DeviceLatchIsByteSwapped`): after `Port::init` it divides by 0x100, not 1.

Port I/O is an output log (`VgaText.CrtController`, `Serial.Port.bus`) and the
device's registers are a map, not hardware. Data words in the interrupt model are `bv64`.
Stack addresses are integers below 2^64, and their arithmetic wraps as 64-bit registers
do. Port values are integers in 0..255, and the UART driver's bitwise operations on them
are spelled out arithmetically (`Serial.BitOr` for `|`).

A handler must not fail while decoding the page-fault error code: a failure inside an
exception handler risks a further fault. The code does not meet this, and the model follows
the code. `page_fault_handler` calls `PageFaultErrorCode::from_bits(error_code).unwrap()`
(`src/interrupts/mod.rs:91`). For a code with any bit above bit 4, that unwrap panics, and
the panic handler loops forever. `Interrupts.HandlerControl` therefore gives `Hang` for a
page fault exactly when `from_bits` rejects the code.

Files: `common.dfy` (`Option`, `Byte`), `vga_text.dfy` (module `VgaText`),
`interrupts.dfy` (module `Interrupts`), `serial.dfy` (module `Serial`).

## Model

| member | source | states |
|---|---|---|
| VgaText.CursorPosition | src/vga/text.rs:38-39 | the position sent always fits in 16 bits; for an on-screen cursor it is exactly `row * 80 + column`, with no truncation |
| VgaText.CursorWrites | src/vga/text.rs:38-47 | four writes: select register 0x0F on port 0x3D4, send the low byte on 0x3D5, select 0x0E, send the high byte; together the two data bytes give back the position |
| VgaText.CursorFitsInSixteenBits | src/vga/text.rs:38-47 | for every valid cursor, the position is the cell index itself (at most 2000) and low byte + 256 * high byte equals it |
| VgaText.Console.NewLine | src/vga/text.rs:106-122 | keeps the cursor invariant (row <= 24, column <= 80); the column becomes 0; the row advances by one, or stays at 24 on the last row; the cursor is re-sent |
| VgaText.NewLineScrollsOnlyOnLastRow | src/vga/text.rs:107-120 | off the last row, no cell changes; on the last row, every row r in 1..24 moves to r - 1 and row 24 becomes blanks in the current colour |
| VgaText.Console.WriteByte | src/vga/text.rs:74-92 | keeps the cursor invariant and the colour; a newline leaves column 0; any other byte leaves the column at least 1; the port log is that of `new_line` (for a newline or a full line) or unchanged, followed by the writes that send the final cursor |
| VgaText.WriteByteStoresOneCell | src/vga/text.rs:77-88 | a non-newline byte written before the end of the line is stored with the current colour at the pre-write cursor, the column advances by one, and no other cell changes |
| VgaText.WriteByteBreaksFullLine | src/vga/text.rs:78-88 | a non-newline byte written at column 80 first breaks the line and lands in column 0 of the new row; only that cell differs from the line-broken screen |
| VgaText.WriteNewlineStoresNoCell | src/vga/text.rs:75-76 | a newline writes no cell: the screen and cursor are those of `new_line`, and off the last row the screen is unchanged |
| VgaText.Console.WriteStr | src/vga/text.rs:94-98 | keeps the cursor invariant and the colour; a non-empty string adds to the port log |
| VgaText.WriteStrEndsWithCursor | src/vga/text.rs:91-98 | after a non-empty string, the last four port writes send the writer's final cursor, so the hardware cursor ends where the writer's does |
| VgaText.WriteStrSnoc | src/vga/text.rs:94-98 | writing a string and then one byte equals writing the extended string (the fold of `write_byte`) |
| VgaText.WriteStrAppend | src/vga/text.rs:94-98 | writing s then t equals writing s + t |
| VgaText.WriteStrWithinLine | src/vga/text.rs:94-98 | a newline-free string that fits on the line is laid out left to right from the cursor; the column advances by its length and every other cell is unchanged |
| VgaText.Console.ClearBuffer | src/vga/text.rs:134-139 | every cell becomes a blank in the current colour; the cursor stays where it was and is re-sent |
| VgaText.Console.ClearAndHome | src/vga/text.rs:30-36 | every cell blank, cursor at (0, 0), and the hardware cursor sent twice: first the old position, then (0, 0) |
| VgaText.CrtController.Outb | src/vga/text.rs:43-46 | one port write is appended to the log |
| VgaText.UpdateCursor | src/vga/text.rs:38-47 | the log grows by exactly the four cursor writes for (row, column) |
| VgaText.Writer.constructor | src/vga/text.rs:7-12 | the writer starts at (0, 0) over the existing buffer contents |
| VgaText.Writer.ClearRow | src/vga/text.rs:124-132 | all 80 cells of the row become blanks in the current colour; every other cell is unchanged |
| VgaText.Writer.NewLine | src/vga/text.rs:106-122 | the in-place row copy, clear and cursor update perform `Console.NewLine` on the writer's state, and keep the array equal to the screen |
| VgaText.Writer.WriteByte | src/vga/text.rs:74-92 | the in-place write performs `Console.WriteByte` |
| VgaText.Writer.WriteStr | src/vga/text.rs:94-98 | the loop performs `Console.WriteStr` on the whole string |
| VgaText.Writer.FmtWriteStr | src/vga/text.rs:142-148 | same effect as `write_str`, and the result is always `Ok` |
| VgaText.Writer.ClearBuffer | src/vga/text.rs:134-139 | the row loop performs `Console.ClearBuffer` |
| VgaText.ClearBuffer | src/vga/text.rs:30-36 | the free `clear_buffer` performs `Console.ClearAndHome` |
| Interrupts.FromBits | src/interrupts/mod.rs:58-66 | `from_bits` succeeds exactly when no bit above bit 4 is set (`code & !0x1F == 0`), and then keeps the code unchanged |
| Interrupts.Encode | src/interrupts/mod.rs:58-66 | every combination of the five named flags is accepted by `from_bits` |
| Interrupts.Decode | src/interrupts/mod.rs:58-66 | reads each of the five named flags from its bit (0 to 4); encoding the decoded flags gives back the code with every unnamed bit cleared (`bits & all()`) |
| Interrupts.DecodeEncode | src/interrupts/mod.rs:58-66 | bit 0 is protection violation, bit 1 write, bit 2 user mode, bit 3 malformed table and bit 4 instruction fetch: decoding an encoded cause gives it back |
| Interrupts.EncodeDecode | src/interrupts/mod.rs:58-66 | every accepted code is the encoding of its decoded flags |
| Interrupts.SupervisorWriteToMissingPage | src/interrupts/mod.rs:58-66 | code 2 decodes as a write from supervisor code to a page that is not present |
| Interrupts.WrappingArithmetic | src/interrupts/mod.rs:9-14 | the `sub rsp`/`add rsp` steps are subtraction and addition modulo 2^64, and each undoes the other |
| Interrupts.ReadFrame | src/interrupts/mod.rs:99-107 | the handler's view of `&ExceptionStackFrame`: the five fields in declaration order at offsets 0, 8, 16, 24 and 32 from the frame address (`repr(C)`), with wrapping address arithmetic |
| Interrupts.StoreFrame | src/interrupts/mod.rs:99-107 | after the five pushes, the frame reads back field by field at offsets 0, 8, 16, 24 and 32 in the order ip, cs, flags, sp, ss |
| Interrupts.PushFrame | src/interrupts/mod.rs:99-107 | the pushed frame is readable where the trampoline expects it (at entry rsp, or 8 above it when an error code is pushed), the error code sits at entry rsp, and the stack top above the frame is 16-byte aligned |
| Interrupts.CpuPushesErrorCode | src/interrupts/mod.rs:52-53 | the vectors whose exception entry pushes an error code, which the `handler_with_error_code!` trampoline expects (8, 10 to 14, 17, 21, 29 and 30); all of them are exception vectors below 32 |
| Interrupts.BootBinding | src/interrupts/mod.rs:46-56 | exactly vectors 0, 3, 6, 8 and 14 have an entry; each entry's trampoline shape matches whether the CPU pushes an error code for that vector, and its handler's signature |
| Interrupts.Idt.constructor | src/interrupts/mod.rs:48 | a new table has 256 vectors and none has a handler |
| Interrupts.Idt.SetHandler | src/interrupts/mod.rs:49-53 | the vector's entry becomes the trampoline; no other entry changes |
| Interrupts.BuildIdt | src/interrupts/mod.rs:46-56 | after the five `set_handler` calls, every vector holds its boot binding and no other vector is set |
| Interrupts.HandlerControl | src/interrupts/mod.rs:81-93 | the double-fault handler never returns; the page-fault handler returns exactly when `from_bits` accepts the code; the other three handlers return |
| Interrupts.Cpu.Call | src/interrupts/mod.rs:10-12 | the return address is pushed below the call-site rsp, one handler call is recorded with `rdi`/`rsi` as arguments, and rsp is restored if the handler returns |
| Interrupts.Cpu.HandlerWrapper | src/interrupts/mod.rs:3-22 | the handler's frame argument is the entry rsp; the call is made 8 bytes lower, which is 16-byte aligned when the stack top above the frame (entry rsp + 40) is, as the CPU leaves it; `iretq` sees the entry rsp; the frame is untouched |
| Interrupts.Cpu.HandlerWithErrorCodeWrapper | src/interrupts/mod.rs:24-44 | the word at entry rsp becomes the error-code argument and the frame argument is entry rsp + 8; the call is made at entry rsp, which is 16-byte aligned when the stack top above the frame (entry rsp + 48, with the error code) is, as the CPU leaves it; `iretq` sees that frame address exactly when the handler returns, and it halts otherwise; a double fault never reaches `iretq`; the frame is untouched |
| Interrupts.DeliveredVector | src/interrupts/mod.rs:46-56 | an exception on a vector with a gate is delivered on that vector; on a vector the table leaves unset it is delivered as a double fault (vector 8) |
| Interrupts.Cpu.RaiseException | src/interrupts/mod.rs:3-56 | with a table whose entries suit their vectors, a raised exception calls the bound handler exactly once, on an aligned stack, with exactly the pushed frame and error code; it resumes through `iretq`, popping that frame, exactly when the handler returns, and halts otherwise; a vector without a gate is delivered as a double fault with error code 0, which with the boot table halts; with no double-fault gate either, nothing is called (triple fault) |
| Serial.BitOr | src/io/serial.rs:78 | the bitwise or is at least each operand and at most their sum |
| Serial.Discriminant | src/io/serial.rs:20-31 | the `repr(u8)` discriminant of each register; bit 7 (the tag) is set exactly for the two divisor-latch registers |
| Serial.Offset | src/io/serial.rs:20-31 | masking a register's discriminant with 0x7F gives an offset below 8 |
| Serial.PortAddress | src/io/serial.rs:49-58 | the port `read_register` and `write_register` use, `io_base` plus the masked offset, always one of the eight ports from the I/O base |
| Serial.OffsetsCollideOnlyForLatch | src/io/serial.rs:22-31 | two registers share a port address exactly when equal, or DivisorLatchLow and Data (offset 0), or DivisorLatchHigh and InterruptEnable (offset 1) |
| Serial.WithDlab | src/io/serial.rs:61-65 | bit 7 of the line-control byte is set and bits 0 to 6 are kept |
| Serial.WithoutDlab | src/io/serial.rs:67-71 | bit 7 is cleared and bits 0 to 6 are kept |
| Serial.DlabSetClear | src/io/serial.rs:61-71 | set then clear restores a byte whose DLAB was clear; set and clear are each idempotent |
| Serial.DataReady | src/io/serial.rs:101-103 | `lsr & 1 == 1`: bit 0 of line status is set, which is exactly when or-ing in bit 0 changes nothing |
| Serial.TransmitterEmpty | src/io/serial.rs:112-114 | `lsr & 0x20 != 0`: bit 5 of line status is set, which is exactly when or-ing in 0x20 changes nothing |
| Serial.SplitLatch | src/io/serial.rs:81-83 | the two bytes written are the latch's low and high bytes; together they hold the whole latch |
| Serial.CombineLatch | src/io/serial.rs:73-79 | the or of the two bytes never exceeds one byte and is at least each byte |
| Serial.LatchRoundTrip | src/io/serial.rs:73-88 | reading back what `set_divisor_latch` wrote gives the latch if and only if the latch is below 256 |
| Serial.Divisor | src/io/serial.rs:94-99 | no divisor (a panic) exactly when the rate is 0 or does not divide 115200; otherwise divisor times rate is 115200, except at rate 1, where the truncated divisor is 115200 - 65536 |
| Serial.BaudRate | src/io/serial.rs:90-92 | no rate (a division-by-zero panic) exactly for latch 0; otherwise the rate is 115200 divided by the latch, rounded down |
| Serial.BaudAfterSet | src/io/serial.rs:73-99 | the rate `get_baud_rate` reports after a successful `set_baud_rate`: there always is one (no division by zero), and it is always above 450, because the read-back latch is a single non-zero byte |
| Serial.BaudRoundTripAbove450 | src/io/serial.rs:90-99 | for a rate above 450 that divides 115200, the rate read back after setting it is that rate |
| Serial.OneByteLatchIsFast | src/io/serial.rs:90-92 | any non-zero latch below 256 reads back as a rate above 450 |
| Serial.BaudRoundTripFailsUpTo450 | src/io/serial.rs:73-99 | for a rate from 1 to 450 that divides 115200, the rate read back after setting it is never that rate |
| Serial.BaudRoundTrip | src/io/serial.rs:73-99 | for every rate `set_baud_rate` accepts, `get_baud_rate` reports it back if and only if it is above 450 |
| Serial.DeviceLatch | src/io/serial.rs:24-25 | the divisor a 16550 uses has the byte at offset 1 as its high byte and the byte at offset 0 as its low byte |
| Serial.DeviceLatchIsByteSwapped | src/io/serial.rs:81-88 | `set_divisor_latch` programs the device with the latch's bytes swapped; the device uses the latch itself only when both bytes are equal |
| Serial.BaudRateAt300ReadsBackAs893 | src/io/serial.rs:73-99 | setting 300 baud writes divisor 0x180 as bytes 0x80 and 0x01, which read back as 0x81, so `get_baud_rate` reports 893 |
| Serial.TransmitAccesses | src/io/serial.rs:124-129 | two bus accesses per byte, and the odd-numbered ones are the bytes of the string, in order, written to Data |
| Serial.Port.Init | src/io/serial.rs:40-47 | divisor 1 is split as written: offset 1 gets 1 and offset 0 gets 0, so the device divisor is 0x100 although it reads back as 1; DLAB ends clear, FIFOControl holds 0xC7, and the bus log is the latch write followed by the FIFO write |
| Serial.Port.ReadRegister | src/io/serial.rs:49-53 | returns the register at the masked offset and logs that `inb` |
| Serial.Port.WriteRegister | src/io/serial.rs:55-59 | only the masked offset changes, and the `outb` is logged |
| Serial.Port.SetDlab | src/io/serial.rs:61-65 | only the line-control register changes, to the byte with DLAB set; one read and one write are logged |
| Serial.Port.ClearDlab | src/io/serial.rs:67-71 | only the line-control register changes, to the byte with DLAB clear |
| Serial.Port.GetDivisorLatch | src/io/serial.rs:73-79 | returns offset 1 or-ed with offset 0, read with DLAB set; afterwards only DLAB differs (clear) |
| Serial.Port.SetDivisorLatch | src/io/serial.rs:81-88 | offsets 1 and 0 receive the latch's low and high byte, bracketed by DLAB set and clear |
| Serial.Port.GetBaudRate | src/io/serial.rs:90-92 | the rate computed from the latch read back, or none where the division by zero panics; only DLAB changes (clear), and the bus log is that of `get_divisor_latch` |
| Serial.Port.SetBaudRate | src/io/serial.rs:94-99 | nothing happens when the rate does not divide 115200 (the panic); otherwise the latch bytes of the truncated divisor are written, with the bus log of `set_divisor_latch` |
| Serial.Port.HasAvailableByte | src/io/serial.rs:101-103 | true exactly when bit 0 of line status is set |
| Serial.Port.ReadByte | src/io/serial.rs:105-110 | `None`, with Data left unread, unless bit 0 of line status is set; otherwise the Data register |
| Serial.Port.HasWriteSpace | src/io/serial.rs:112-114 | true exactly when bit 5 of line status is set |
| Serial.Port.WriteByte | src/io/serial.rs:116-122 | false with nothing written unless bit 5 of line status is set; otherwise Data receives the byte and the result is true |
| Serial.Port.WriteStr | src/io/serial.rs:124-129 | each byte is checked and written to Data in order, and the result is always false |

## Left out

- `src/lib.rs` (boot entry, panic and unwind hooks) is not part of this model. The panic
  handler's `loop {}` appears only as `Hang` in `Interrupts.HandlerControl`.
- Real port I/O and the text buffer at 0xb8000 are not modelled as hardware. The buffer is the
  writer's `array2`, and `outb`/`inb` are entries in an output log. The CRT controller does not
  answer reads.
- `print`, `print!`, `println!` and `write_fmt` are left out, and so is the report text of each
  handler (`Debug` formatting is a foreign library). Strings are their byte sequences.
- `spin::Mutex` and `lazy_static` are left out: the `WRITER`, `IDT` and `COM1`..`COM4` statics, and
  the deadlock hazard when a handler prints while the writer is locked. These are concurrency
  concerns. The statics' initialisers are modelled as `VgaText.Writer.constructor`,
  `Interrupts.BuildIdt` and `Serial.Port.Init`.
- The colour-code packing (`ColorCode::new`) lives in `src/vga/mod.rs`, which is not part of this
  model. A colour is an opaque attribute byte.
- `src/interrupts/idt.rs` is not part of this model: gate-descriptor encoding, `Idt::load` and
  `init`. The table is 256 optional trampolines.
- The `cr2()` read is left out, and so are the exact semantics of `asm!`, naked functions and
  `iretq` beyond the stack-pointer arithmetic.
- Interrupts.Cpu.Call: a handler's body is abstracted to whether it returns
  (`Interrupts.HandlerControl`). Its own stack use below the return address is not modelled.
- Interrupts.Cpu.RaiseException: a vector without a gate goes straight to the double fault with
  error code 0. The intermediate #NP or #GP is not modelled, nor are the other pairs of faults
  that escalate to a double fault. `Shutdown` stands for the triple fault.
- Interrupts.PushFrame: this is the CPU's 64-bit exception entry without a stack switch (no IST,
  no privilege change). It is the environment of the trampolines, not code of the kernel.
- Serial.Port.Init: every port method requires `io_base + 7` to fit in 16 bits. The u16 overflow
  of `io_base + offset` for a base above 0xFFF8 is not modelled.
- The DLAB bit does not bank registers in the model. Offsets 0 and 1 are one register each,
  whatever the bit says, so divisor-latch values and Data/InterruptEnable share storage.
- Serial.Port.WriteStr: requires bit 5 of line status to be set when the string is not empty. Then
  every `write_byte` succeeds at its first attempt. The busy-wait retry that follows a failed
  `write_byte` is not modelled, because with a static register file it would never end.
- Serial.Port.GetBaudRate and Serial.Port.SetBaudRate: a panic is modelled as an absent result
  (`None`, or `false` with nothing changed). What the panic message prints is left out.
