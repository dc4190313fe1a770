/**
 * CPU exception dispatch: the page-fault error-code flags, the interrupt descriptor
 * table built at boot, the two entry trampolines that turn the hardware's exception
 * entry into a call of an ordinary handler, and each handler's decision to resume
 * or never return.
 *
 * Data words are `bv64`. Stack addresses (the values of `rsp` and `rdi`) are
 * integers below 2^64 whose arithmetic wraps exactly as the 64-bit registers do.
 * Stack memory is a map from byte address to the 64-bit word stored there; a word
 * never written reads as 0.
 */
module Interrupts {
  import opened Common

  type Word = bv64

  // ---------------------------------------------------------------------------
  // Page-fault error code

  const PROTECTION_VIOLATION: Word := 1 << 0
  const CAUSED_BY_WRITE: Word := 1 << 1
  const USER_MODE: Word := 1 << 2
  const MALFORMED_TABLE: Word := 1 << 3
  const INSTRUCTION_FETCH: Word := 1 << 4

  /** The union of the five named flags, `PageFaultErrorCode::all()`. */
  const ALL_FLAGS: Word := PROTECTION_VIOLATION | CAUSED_BY_WRITE | USER_MODE | MALFORMED_TABLE | INSTRUCTION_FETCH

  /** A set of page-fault flags, held as its bits. */
  datatype PageFaultErrorCode = PageFaultErrorCode(bits: Word)
  {
    predicate Contains(flag: Word) {
      bits & flag == flag
    }
  }

  /** `PageFaultErrorCode::from_bits`: the flags, if no bit outside the five named ones is set. */
  function FromBits(code: Word): (r: Option<PageFaultErrorCode>)
    ensures r.Some? <==> code < 0x20
    ensures r.Some? ==> r.value.bits == code
  {
    if code & !ALL_FLAGS == 0 then Some(PageFaultErrorCode(code)) else None
  }

  /** The error code read flag by flag, as the handler's report names them. */
  datatype FaultCause = FaultCause(
    protectionViolation: bool,  // set: protection violation; clear: page not present
    causedByWrite: bool,        // set: write access; clear: read access
    userMode: bool,             // set: user-privilege code; clear: supervisor code
    malformedTable: bool,       // a reserved bit was set in a page-table entry
    instructionFetch: bool)     // the access was an instruction fetch

  function Decode(f: PageFaultErrorCode): (c: FaultCause)
    ensures Encode(c) == f.bits & ALL_FLAGS
  {
    FaultCause(f.Contains(PROTECTION_VIOLATION), f.Contains(CAUSED_BY_WRITE), f.Contains(USER_MODE),
               f.Contains(MALFORMED_TABLE), f.Contains(INSTRUCTION_FETCH))
  }

  /** The error code whose flags are exactly those of `c`. */
  function Encode(c: FaultCause): (code: Word)
    ensures FromBits(code).Some?
  {
    (if c.protectionViolation then PROTECTION_VIOLATION else 0)
    | (if c.causedByWrite then CAUSED_BY_WRITE else 0)
    | (if c.userMode then USER_MODE else 0)
    | (if c.malformedTable then MALFORMED_TABLE else 0)
    | (if c.instructionFetch then INSTRUCTION_FETCH else 0)
  }

  /** Bit 0 is the protection violation, bit 1 the write, bit 2 user mode, bit 3 a
      malformed table and bit 4 an instruction fetch: decoding recovers every flag set. */
  lemma DecodeEncode(c: FaultCause)
    ensures Decode(FromBits(Encode(c)).value) == c
  {
  }

  /** Every error code `from_bits` accepts is the encoding of its decoded flags. */
  lemma EncodeDecode(code: Word)
    requires FromBits(code).Some?
    ensures Encode(Decode(FromBits(code).value)) == code
  {
  }

  /** A supervisor-mode write to a page that is not present reports code 2, which decodes
      as a write, with no protection violation, from supervisor code. */
  lemma SupervisorWriteToMissingPage()
    ensures FromBits(2).Some?
    ensures Decode(FromBits(2).value) == FaultCause(false, true, false, false, false)
  {
  }

  // ---------------------------------------------------------------------------
  // Exception stack frame

  const WORD_MODULUS: int := 0x1_0000_0000_0000_0000

  /** A 64-bit register value used as a stack address. */
  type Address = a: int | 0 <= a < WORD_MODULUS

  /** `a + k` in a 64-bit register. */
  function Add64(a: Address, k: nat): Address
    requires k < WORD_MODULUS
  {
    if a + k < WORD_MODULUS then a + k else a + k - WORD_MODULUS
  }

  /** `a - k` in a 64-bit register. */
  function Sub64(a: Address, k: nat): Address
    requires k < WORD_MODULUS
  {
    if a >= k then a - k else a - k + WORD_MODULUS
  }

  /** The two are addition and subtraction modulo 2^64, and each undoes the other. */
  lemma WrappingArithmetic(a: Address, k: nat)
    requires k < WORD_MODULUS
    ensures Add64(a, k) == (a + k) % WORD_MODULUS
    ensures Sub64(a, k) == (a - k) % WORD_MODULUS
    ensures Add64(Sub64(a, k), k) == a && Sub64(Add64(a, k), k) == a
  {
  }

  /** A wrapping subtraction keeps the remainder modulo 16, since 2^64 is a multiple of 16. */
  lemma Sub64Aligned(a: Address, k: nat)
    requires k < WORD_MODULUS
    ensures Sub64(a, k) % 16 == (a - k) % 16
  {
  }

  const WORD_SIZE: nat := 8

  /** The five words the CPU pushes on every exception, lowest address first. */
  datatype ExceptionStackFrame = ExceptionStackFrame(
    instructionPointer: Word,
    codeSegment: Word,
    cpuFlags: Word,
    stackPointer: Word,
    stackSegment: Word)

  type Memory = map<Address, Word>

  function Load(mem: Memory, addr: Address): Word {
    if addr in mem then mem[addr] else 0
  }

  /** The frame a handler sees through `&ExceptionStackFrame` at `addr`: the fields in
      declaration order at offsets 0, 8, 16, 24 and 32 (`repr(C)`). */
  function ReadFrame(mem: Memory, addr: Address): ExceptionStackFrame {
    ExceptionStackFrame(Load(mem, addr), Load(mem, Add64(addr, 8)), Load(mem, Add64(addr, 16)),
                        Load(mem, Add64(addr, 24)), Load(mem, Add64(addr, 32)))
  }

  /** True when `a` is none of the five words of a frame at `base`. */
  predicate OutsideFrame(base: Address, a: Address) {
    a != base && a != Add64(base, 8) && a != Add64(base, 16) && a != Add64(base, 24) && a != Add64(base, 32)
  }

  /** The words just below a frame (where the error code and the return address go)
      are outside it. */
  lemma BelowFrameIsOutside(base: Address, k: nat)
    requires 0 < k <= 16
    ensures OutsideFrame(base, Sub64(base, k))
  {
  }

  /** A store outside the frame leaves the frame as the handler reads it. */
  lemma StoreOutsideFrame(mem: Memory, base: Address, a: Address, v: Word)
    requires OutsideFrame(base, a)
    ensures ReadFrame(mem[a := v], base) == ReadFrame(mem, base)
  {
  }

  /** The five words of a frame are distinct addresses, even where the frame wraps
      around the top of the address space. */
  lemma FrameWordsDistinct(base: Address)
    ensures base != Add64(base, 8) && base != Add64(base, 16) && base != Add64(base, 24) && base != Add64(base, 32)
    ensures Add64(base, 8) != Add64(base, 16) && Add64(base, 8) != Add64(base, 24) && Add64(base, 8) != Add64(base, 32)
    ensures Add64(base, 16) != Add64(base, 24) && Add64(base, 16) != Add64(base, 32)
    ensures Add64(base, 24) != Add64(base, 32)
  {
  }

  /** The CPU's five pushes, seen from their lowest address `base`: the stack segment
      first at `base + 32`, the instruction pointer last at `base`. */
  function StoreFrame(mem: Memory, base: Address, frame: ExceptionStackFrame): (m: Memory)
    ensures ReadFrame(m, base) == frame
  {
    FrameWordsDistinct(base);
    var m1 := mem[Add64(base, 32) := frame.stackSegment];
    var m2 := m1[Add64(base, 24) := frame.stackPointer];
    var m3 := m2[Add64(base, 16) := frame.cpuFlags];
    var m4 := m3[Add64(base, 8) := frame.codeSegment];
    m4[base := frame.instructionPointer]
  }

  /** Exception entry as the CPU performs it in 64-bit mode (the environment of the
      trampolines): align the stack to 16 bytes, push the frame, then the error code if
      the vector has one. Gives the new memory and the stack pointer at the
      trampoline's entry. */
  function PushFrame(mem: Memory, rsp: Address, frame: ExceptionStackFrame, errorCode: Option<Word>): (r: (Memory, Address))
    ensures ReadFrame(r.0, if errorCode.Some? then Add64(r.1, 8) else r.1) == frame
    ensures errorCode.Some? ==> Load(r.0, r.1) == errorCode.value
    ensures (if errorCode.Some? then r.1 + 48 else r.1 + 40) % 16 == 0
  {
    var top := rsp - rsp % 16;
    var base := Sub64(top, 40);
    var m := StoreFrame(mem, base, frame);
    match errorCode
    case None => (m, base)
    case Some(e) =>
      var entry := Sub64(base, 8);
      BelowFrameIsOutside(base, 8);
      StoreOutsideFrame(m, base, entry, e);
      assert Add64(entry, 8) == base;
      (m[entry := e], entry)
  }

  // ---------------------------------------------------------------------------
  // Handlers, trampolines and the descriptor table

  datatype Handler = DivideByZero | Breakpoint | InvalidOpcode | DoubleFault | PageFault

  /** `handler!` wraps a handler taking only the frame; `handler_with_error_code!` one
      that also takes the error code. */
  datatype Shape = NoErrorCode | WithErrorCode

  datatype Trampoline = Trampoline(shape: Shape, handler: Handler)

  /** The casts inside the two macros only accept a handler of the matching signature. */
  predicate WellTyped(t: Trampoline) {
    t.shape == WithErrorCode <==> t.handler in {DoubleFault, PageFault}
  }

  /** The vectors for which the CPU pushes an error code: 8, 10 to 14, 17 and 21 from
      table 6-1 of the Intel SDM volume 3, and 29 (#VC) and 30 (#SX) from section 8.2 of
      the AMD64 Architecture Programmer's Manual volume 2. */
  predicate CpuPushesErrorCode(vector: nat)
    ensures CpuPushesErrorCode(vector) ==> vector < 32
  {
    vector in {8, 10, 11, 12, 13, 14, 17, 21, 29, 30}
  }

  /** A table entry suits its vector when its trampoline expects an error code exactly
      when the CPU pushes one. */
  predicate SuitsVector(vector: nat, t: Trampoline) {
    WellTyped(t) && (t.shape == WithErrorCode <==> CpuPushesErrorCode(vector))
  }

  /** The entry the boot-time `IDT` holds for each vector. */
  function BootBinding(vector: nat): (t: Option<Trampoline>)
    ensures t.Some? <==> vector in {0, 3, 6, 8, 14}
    ensures t.Some? ==> SuitsVector(vector, t.value)
  {
    if vector == 0 then Some(Trampoline(NoErrorCode, DivideByZero))
    else if vector == 3 then Some(Trampoline(NoErrorCode, Breakpoint))
    else if vector == 6 then Some(Trampoline(NoErrorCode, InvalidOpcode))
    else if vector == 8 then Some(Trampoline(WithErrorCode, DoubleFault))
    else if vector == 14 then Some(Trampoline(WithErrorCode, PageFault))
    else None
  }

  /** What a handler does after reporting. */
  datatype Control = Resume | Hang

  /** `double_fault_handler` ends in `loop {}`; `page_fault_handler` unwraps `from_bits`, and
      the panic on an unknown bit ends in the `loop {}` of `panic_fmt`; the others return. */
  function HandlerControl(h: Handler, errorCode: Word): (c: Control)
    ensures h == DoubleFault ==> c == Hang
    ensures h == PageFault ==> (c == Resume <==> FromBits(errorCode).Some?)
    ensures h in {DivideByZero, Breakpoint, InvalidOpcode} ==> c == Resume
  {
    match h
    case DoubleFault => Hang
    case PageFault => if FromBits(errorCode).None? then Hang else Resume
    case _ => Resume
  }

  /** The interrupt descriptor table, one optional trampoline per vector. Gate encoding
      and loading live in interrupts/idt.rs, which is not part of this model. */
  class Idt {
    const entries: array<Option<Trampoline>>

    /** `Idt::new`: no vector has a handler. */
    constructor ()
      ensures fresh(entries) && entries.Length == 256
      ensures forall v | 0 <= v < entries.Length :: entries[v] == None
    {
      entries := new Option<Trampoline>[256](_ => None);
    }

    /** `Idt::set_handler`: the vector's entry becomes the trampoline; the last call wins. */
    method SetHandler(vector: nat, t: Trampoline)
      requires vector < entries.Length
      modifies entries
      ensures entries[vector] == Some(t)
      ensures forall v | 0 <= v < entries.Length && v != vector :: entries[v] == old(entries[v])
    {
      entries[vector] := Some(t);
    }
  }

  /** The body of the `IDT` lazy static: five `set_handler` calls on a fresh table. */
  method BuildIdt() returns (idt: Idt)
    ensures fresh(idt) && fresh(idt.entries) && idt.entries.Length == 256
    ensures forall v | 0 <= v < idt.entries.Length :: idt.entries[v] == BootBinding(v)
  {
    idt := new Idt();
    idt.SetHandler(0, Trampoline(NoErrorCode, DivideByZero));
    idt.SetHandler(3, Trampoline(NoErrorCode, Breakpoint));
    idt.SetHandler(6, Trampoline(NoErrorCode, InvalidOpcode));
    idt.SetHandler(8, Trampoline(WithErrorCode, DoubleFault));
    idt.SetHandler(14, Trampoline(WithErrorCode, PageFault));
  }

  /** One invocation of a handler: its frame argument (`rdi`), its error-code argument
      (`rsi`, for the error-code shape) and the stack pointer at the `call`. */
  datatype HandlerCall = HandlerCall(handler: Handler, frameAddress: Address, errorCode: Option<Word>, rspAtCall: Address)

  /** How control leaves a trampoline: `iretq` with the given stack pointer, or never.
      `Shutdown` is a triple fault: not even the double-fault vector has a gate. */
  datatype Exit = Iretq(rsp: Address) | Halted | Shutdown

  const DOUBLE_FAULT_VECTOR: nat := 8

  /** The vector the CPU ends up delivering for an exception on `vector`: the vector
      itself when its gate is present; otherwise delivery through the missing gate
      faults again (#NP or #GP, itself without a gate at boot), and two such faults
      escalate to a double fault. */
  function DeliveredVector(vector: nat, present: bool): (v: nat)
    ensures present ==> v == vector
    ensures !present ==> v == DOUBLE_FAULT_VECTOR
  {
    if present then vector else DOUBLE_FAULT_VECTOR
  }

  /** The registers and stack the trampolines work on, and the handler calls made so far. */
  class Cpu {
    var rsp: Address
    var rdi: Address
    var rsi: Word
    var mem: Memory
    var calls: seq<HandlerCall>

    constructor (rsp: Address, mem: Memory)
      ensures this.rsp == rsp && this.mem == mem && calls == []
    {
      this.rsp := rsp;
      this.mem := mem;
      rdi, rsi := 0, 0;
      calls := [];
    }

    /** `call $0`: push the return address, run the handler on `rdi` (and `rsi`), and pop
        the return address with `ret` if the handler returns. */
    method Call(h: Handler, withErrorCode: bool, returnAddress: Word) returns (control: Control)
      modifies this
      ensures control == HandlerControl(h, old(rsi))
      ensures calls == old(calls) + [HandlerCall(h, old(rdi), if withErrorCode then Some(old(rsi)) else None, old(rsp))]
      ensures mem == old(mem)[Sub64(old(rsp), WORD_SIZE) := returnAddress]
      ensures control == Resume ==> rsp == old(rsp)
    {
      var callSite := rsp;
      rsp := Sub64(rsp, WORD_SIZE);
      mem := mem[rsp := returnAddress];
      calls := calls + [HandlerCall(h, rdi, if withErrorCode then Some(rsi) else None, callSite)];
      control := HandlerControl(h, rsi);
      if control == Resume {
        rsp := Add64(rsp, WORD_SIZE);
      }
    }

    /** The trampoline of `handler!`: `mov rdi, rsp; sub rsp, 8; call; add rsp, 8; iretq`.
        The handler gets the entry stack pointer as its frame, the call happens 8 bytes
        lower (16-byte aligned when the stack top above the frame, entry rsp + 40, is,
        as the CPU leaves it), and `iretq` finds the stack pointer of the entry. */
    method HandlerWrapper(h: Handler, returnAddress: Word) returns (exit: Exit)
      requires WellTyped(Trampoline(NoErrorCode, h))
      modifies this
      ensures calls == old(calls) + [HandlerCall(h, old(rsp), None, Sub64(old(rsp), 8))]
      ensures (old(rsp) + 40) % 16 == 0 ==> calls[|old(calls)|].rspAtCall % 16 == 0
      ensures exit == Iretq(old(rsp)) && rsp == old(rsp)
      ensures mem == old(mem)[Sub64(old(rsp), 16) := returnAddress]
      ensures ReadFrame(mem, old(rsp)) == ReadFrame(old(mem), old(rsp))
    {
      rdi := rsp;
      rsp := Sub64(rsp, WORD_SIZE);
      var control := Call(h, false, returnAddress);
      Sub64Aligned(rdi, WORD_SIZE);
      rsp := Add64(rsp, WORD_SIZE);
      exit := Iretq(rsp);
    }

    /** The trampoline of `handler_with_error_code!`: `pop rsi; mov rdi, rsp; sub rsp, 8;
        call; add rsp, 8; iretq`. The word at the entry stack pointer becomes the error
        code, the frame is the 8 bytes higher, and `iretq` finds the stack pointer at
        that frame, unless the handler never returns. */
    method HandlerWithErrorCodeWrapper(h: Handler, returnAddress: Word) returns (exit: Exit)
      requires WellTyped(Trampoline(WithErrorCode, h))
      modifies this
      ensures calls == old(calls) + [HandlerCall(h, Add64(old(rsp), 8), Some(Load(old(mem), old(rsp))), old(rsp))]
      ensures (old(rsp) + 48) % 16 == 0 ==> calls[|old(calls)|].rspAtCall % 16 == 0
      ensures exit == if HandlerControl(h, Load(old(mem), old(rsp))) == Resume then Iretq(Add64(old(rsp), 8)) else Halted
      ensures exit.Iretq? ==> rsp == exit.rsp
      ensures h == DoubleFault ==> exit == Halted
      ensures mem == old(mem)[Sub64(old(rsp), 8) := returnAddress]
      ensures ReadFrame(mem, Add64(old(rsp), 8)) == ReadFrame(old(mem), Add64(old(rsp), 8))
    {
      rsi := Load(mem, rsp);
      rsp := Add64(rsp, WORD_SIZE);
      rdi := rsp;
      rsp := Sub64(rsp, WORD_SIZE);
      var control := Call(h, true, returnAddress);
      if control == Hang {
        exit := Halted;
      } else {
        rsp := Add64(rsp, WORD_SIZE);
        exit := Iretq(rsp);
      }
    }

    /** An exception on `vector`: the CPU pushes the frame (and the error code, for the
        vectors that have one) and enters the table's trampoline. A vector without a gate
        is delivered as a double fault with error code 0. With a table whose entries suit
        their vectors, the delivered handler is called once, sees exactly the pushed frame
        and error code, is called on a 16-byte aligned stack, and the exception resumes
        through `iretq`, popping that same frame, exactly when the handler returns; it
        halts otherwise. */
    method RaiseException(idt: Idt, vector: nat, frame: ExceptionStackFrame, errorCode: Word, returnAddress: Word)
      returns (exit: Exit)
      requires vector < idt.entries.Length && DOUBLE_FAULT_VECTOR < idt.entries.Length
      requires forall v | 0 <= v < idt.entries.Length && idt.entries[v].Some? :: SuitsVector(v, idt.entries[v].value)
      modifies this
      ensures var delivered := DeliveredVector(vector, idt.entries[vector].Some?);
        idt.entries[delivered].None? ==> exit == Shutdown && calls == old(calls)
      ensures var delivered := DeliveredVector(vector, idt.entries[vector].Some?);
        var code: Word := if delivered == vector then errorCode else 0;
        idt.entries[delivered].Some? ==>
        && |calls| == |old(calls)| + 1 && calls[..|old(calls)|] == old(calls)
        && calls[|old(calls)|].handler == idt.entries[delivered].value.handler
        && ReadFrame(mem, calls[|old(calls)|].frameAddress) == frame
        && calls[|old(calls)|].errorCode == (if CpuPushesErrorCode(delivered) then Some(code) else None)
        && calls[|old(calls)|].rspAtCall % 16 == 0
        && (exit.Iretq? ==> exit.rsp == calls[|old(calls)|].frameAddress)
      ensures var delivered := DeliveredVector(vector, idt.entries[vector].Some?);
        var code: Word := if delivered == vector then errorCode else 0;
        idt.entries[delivered].Some? ==>
        exit == (if HandlerControl(idt.entries[delivered].value.handler, code) == Resume
                 then Iretq(calls[|old(calls)|].frameAddress) else Halted)
      ensures idt.entries[vector].None? && idt.entries[DOUBLE_FAULT_VECTOR] == Some(Trampoline(WithErrorCode, DoubleFault))
        ==> exit == Halted
    {
      var delivered := DeliveredVector(vector, idt.entries[vector].Some?);
      var code: Word := if delivered == vector then errorCode else 0;
      match idt.entries[delivered]
      case None =>
        exit := Shutdown;
      case Some(t) =>
        var pushed := PushFrame(mem, rsp, frame, if CpuPushesErrorCode(delivered) then Some(code) else None);
        mem, rsp := pushed.0, pushed.1;
        if t.shape == NoErrorCode {
          exit := HandlerWrapper(t.handler, returnAddress);
        } else {
          exit := HandlerWithErrorCodeWrapper(t.handler, returnAddress);
        }
    }
  }
}
