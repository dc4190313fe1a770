/**
 * The 16550-style UART driver. The device is seen as a file of byte registers
 * indexed by offset from the port's I/O base, and every `inb`/`outb` the driver
 * issues is recorded, in order, on an I/O bus log. Offsets 0 and 1 are not banked
 * by the DLAB bit here: the same register file answers with the bit set or clear.
 *
 * The driver is modelled as written, including how `set_divisor_latch` and
 * `get_divisor_latch` place and recombine the two latch bytes. Register values are
 * integers in 0..255 and the driver's bitwise operations are spelled out on them.
 */
module Serial {
  import opened Common

  const COM1_PORT: nat := 0x3F8
  const COM2_PORT: nat := 0x2F8
  const COM3_PORT: nat := 0x3E8
  const COM4_PORT: nat := 0x2E8

  /** The UART's input clock divided by 16: the baud rate of divisor 1. */
  const CLOCK_BASE: nat := 115200

  const U16_MODULUS: nat := 0x1_0000
  const U32_MODULUS: nat := 0x1_0000_0000

  type U16 = x: int | 0 <= x < U16_MODULUS
  type U32 = x: int | 0 <= x < U32_MODULUS

  // ----- bitwise or on naturals -----

  function Pow2(n: nat): nat {
    if n == 0 then 1 else 2 * Pow2(n - 1)
  }

  /** `a | b`, bit by bit from the least significant one. It sets every bit either
      operand sets, so it is at least each operand and at most their sum. */
  function BitOr(a: nat, b: nat): (r: nat)
    ensures a <= r && b <= r && r <= a + b
    decreases a + b
  {
    if a == 0 then b
    else if b == 0 then a
    else 2 * BitOr(a / 2, b / 2) + (if a % 2 == 1 || b % 2 == 1 then 1 else 0)
  }

  /** Bit k of `a` is set exactly when or-ing in bit k changes nothing. */
  lemma {:induction false} BitOrPow2(a: nat, k: nat)
    ensures Pow2(k) > 0
    ensures BitOr(a, Pow2(k)) == a <==> (a / Pow2(k)) % 2 == 1
    decreases k
  {
    Pow2Positive(k);
    if a == 0 {
      assert BitOr(a, Pow2(k)) == Pow2(k);
    } else if k == 0 {
      assert BitOr(a, 1) == 2 * BitOr(a / 2, 0) + 1;
    } else {
      assert Pow2(k) / 2 == Pow2(k - 1) && Pow2(k) % 2 == 0;
      assert BitOr(a, Pow2(k)) == 2 * BitOr(a / 2, Pow2(k - 1)) + a % 2;
      BitOrPow2(a / 2, k - 1);
      Pow2Positive(k - 1);
      HalveThenDivide(a, Pow2(k - 1));
    }
  }

  /** The quotient is the unique q with a == q * d + r and 0 <= r < d. */
  lemma DivUnique(a: nat, d: nat, q: nat, r: nat)
    requires d > 0 && r < d && a == q * d + r
    ensures a / d == q
  {
    DivBounds(a, d);
    var p := a / d;
    if p < q {
      assert (p + 1) * d <= q * d by { MulLeft(p + 1, q, d); }
    } else if p > q {
      assert (q + 1) * d <= p * d by { MulLeft(q + 1, p, d); }
    }
  }

  lemma MulLeft(x: nat, y: nat, d: nat)
    requires x <= y
    ensures x * d <= y * d
  {
  }

  /** Halving first and then dividing by c is dividing by 2c. */
  lemma HalveThenDivide(a: nat, c: nat)
    requires c > 0
    ensures a / (2 * c) == (a / 2) / c
  {
    var h := a / 2;
    var q := h / c;
    var r := h % c;
    assert h == q * c + r;
    assert a == 2 * h + a % 2;
    assert a == q * (2 * c) + (2 * r + a % 2);
    DivUnique(a, 2 * c, q, 2 * r + a % 2);
  }

  lemma {:induction false} Pow2Positive(n: nat)
    ensures Pow2(n) > 0
    decreases n
  {
    if n > 0 {
      Pow2Positive(n - 1);
    }
  }

  /** Or-ing two n-bit values gives an n-bit value. */
  lemma {:induction false} BitOrBelow(a: nat, b: nat, n: nat)
    requires a < Pow2(n) && b < Pow2(n)
    ensures BitOr(a, b) < Pow2(n)
    decreases n
  {
    if a != 0 && b != 0 {
      assert n > 0;
      BitOrBelow(a / 2, b / 2, n - 1);
    }
  }

  // ----- registers -----

  datatype Register = Data | DivisorLatchHigh | DivisorLatchLow | InterruptEnable
                    | LineControl | LineStatus | FIFOControl | Scratch

  /** The `#[repr(u8)]` discriminant of each register; the two latch registers carry
      bit 7 (0x80) as a tag on top of offsets 1 and 0. */
  function Discriminant(r: Register): (d: Byte)
    ensures d / 0x80 == 1 <==> r == DivisorLatchHigh || r == DivisorLatchLow
  {
    match r
    case Data => 0
    case DivisorLatchHigh => 0x81
    case DivisorLatchLow => 0x80
    case InterruptEnable => 1
    case LineControl => 3
    case LineStatus => 5
    case FIFOControl => 2
    case Scratch => 7
  }

  /** `register as u16 & 0x7F`: the offset from the I/O base, with the tag bit dropped. */
  function Offset(r: Register): (off: nat)
    ensures off < 8
  {
    Discriminant(r) % 0x80
  }

  /** The port `read_register`/`write_register` address for a register. */
  function PortAddress(ioBase: nat, r: Register): (port: nat)
    ensures ioBase <= port < ioBase + 8
  {
    ioBase + Offset(r)
  }

  /** Two registers share a port exactly when they are the same register, or Data and
      the divisor latch register at offset 0, or InterruptEnable and the divisor latch
      register at offset 1. */
  lemma OffsetsCollideOnlyForLatch(a: Register, b: Register)
    ensures Offset(a) == Offset(b) <==>
      a == b ||
      (a == Data && b == DivisorLatchLow) || (a == DivisorLatchLow && b == Data) ||
      (a == InterruptEnable && b == DivisorLatchHigh) || (a == DivisorLatchHigh && b == InterruptEnable)
  {
  }

  const DATA_OFFSET: nat := 0
  const LCR_OFFSET: nat := 3
  const LSR_OFFSET: nat := 5

  /** `lcr | 0x80`: the line-control byte with the divisor-latch access bit (bit 7) set. */
  function WithDlab(lcr: Byte): (r: Byte)
    ensures r / 0x80 == 1 && r % 0x80 == lcr % 0x80
  {
    if lcr < 0x80 then lcr + 0x80 else lcr
  }

  /** `lcr & 0x7F`: the line-control byte with the divisor-latch access bit cleared. */
  function WithoutDlab(lcr: Byte): (r: Byte)
    ensures r / 0x80 == 0 && r % 0x80 == lcr % 0x80
  {
    lcr % 0x80
  }

  /** Setting and then clearing DLAB gives back a line-control byte whose DLAB was clear,
      and clearing it is idempotent. */
  lemma DlabSetClear(lcr: Byte)
    ensures lcr < 0x80 ==> WithoutDlab(WithDlab(lcr)) == lcr
    ensures WithoutDlab(WithoutDlab(lcr)) == WithoutDlab(lcr)
    ensures WithDlab(WithDlab(lcr)) == WithDlab(lcr)
  {
  }

  /** `lsr & 1 == 1`: the receiver holds a byte (bit 0). */
  predicate DataReady(lsr: Byte)
    ensures DataReady(lsr) <==> BitOr(lsr, 1) == lsr
  {
    BitOrPow2(lsr, 0);
    lsr % 2 == 1
  }

  /** `lsr & 0x20 != 0`: the transmitter holding register is empty (bit 5). */
  predicate TransmitterEmpty(lsr: Byte)
    ensures TransmitterEmpty(lsr) <==> BitOr(lsr, 0x20) == lsr
  {
    BitOrPow2(lsr, 5);
    (lsr / 0x20) % 2 == 1
  }

  // ----- divisor latch and baud rate -----

  /** The two bytes `set_divisor_latch` writes, in its own naming: `latch as u8` (the
      latch's low byte) goes to the register named DivisorLatchHigh and `latch >> 8`
      (its high byte) to the one named DivisorLatchLow. Nothing is lost. */
  function SplitLatch(latch: U16): (bytes: (Byte, Byte))
    ensures bytes.1 * 0x100 + bytes.0 == latch
  {
    (latch % 0x100, latch / 0x100)
  }

  /** The divisor a 16550 uses for the bytes at offsets 1 and 0 with DLAB set: on the
      device, offset 0 holds the latch's low byte and offset 1 its high byte. */
  function DeviceLatch(offset1: Byte, offset0: Byte): (latch: U16)
    ensures latch / 0x100 == offset1 && latch % 0x100 == offset0
  {
    offset1 * 0x100 + offset0
  }

  /** `set_divisor_latch` programs the device with the latch's two bytes swapped, so the
      device divides by the latch only when both its bytes are equal. */
  lemma DeviceLatchIsByteSwapped(latch: U16)
    ensures DeviceLatch(SplitLatch(latch).0, SplitLatch(latch).1) == (latch % 0x100) * 0x100 + latch / 0x100
    ensures DeviceLatch(SplitLatch(latch).0, SplitLatch(latch).1) == latch <==> latch % 0x100 == latch / 0x100
  {
  }

  /** What `get_divisor_latch` returns for the bytes it reads back: `high | low`,
      without a shift, so the result never exceeds one byte. */
  function CombineLatch(high: Byte, low: Byte): (latch: U16)
    ensures latch < 0x100
    ensures high <= latch && low <= latch
  {
    BitOrBelow(high, low, 8);
    BitOr(high, low)
  }

  /** Reading back the bytes `set_divisor_latch` wrote gives the latch exactly when the
      latch fits in one byte. */
  lemma LatchRoundTrip(latch: U16)
    ensures CombineLatch(SplitLatch(latch).0, SplitLatch(latch).1) == latch <==> latch < 0x100
  {
  }

  /** `set_baud_rate`'s divisor, `(115200 / baud) as u16`; `None` where it panics:
      on a zero rate (the remainder divides by zero) or a rate that does not divide
      115200. The divisor times the rate is the clock, except at rate 1, where the
      quotient 115200 does not fit in 16 bits and is truncated. */
  function Divisor(baud: U32): (d: Option<U16>)
    ensures d.Some? <==> baud != 0 && CLOCK_BASE % baud == 0
    ensures d.Some? && baud > 1 ==> d.value * baud == CLOCK_BASE
    ensures baud == 1 ==> d == Some(CLOCK_BASE - U16_MODULUS)
  {
    if baud == 0 || CLOCK_BASE % baud != 0 then None
    else Some((CLOCK_BASE / baud) % U16_MODULUS)
  }

  lemma DivBounds(n: nat, d: nat)
    requires d > 0
    ensures (n / d) * d <= n < (n / d + 1) * d
  {
  }

  /** `get_baud_rate`'s result for a latch value: the rate whose divisor it is, rounded
      down; `None` where `115200 / 0` panics. */
  function BaudRate(latch: U16): (b: Option<U32>)
    ensures b.Some? <==> latch != 0
    ensures b.Some? ==> b.value * latch <= CLOCK_BASE < (b.value + 1) * latch
  {
    if latch == 0 then None
    else
      DivBounds(CLOCK_BASE, latch);
      Some(CLOCK_BASE / latch)
  }

  /** The rate `get_baud_rate` reports after `set_baud_rate(baud)`. The read-back
      latch is a single non-zero byte, so the reported rate is always above 450. */
  function BaudAfterSet(baud: U32): (r: Option<U32>)
    requires Divisor(baud).Some?
    ensures r.Some? && r.value > 450
  {
    var bytes := SplitLatch(Divisor(baud).value);
    var latch := CombineLatch(bytes.0, bytes.1);
    assert latch != 0;
    OneByteLatchIsFast(latch);
    BaudRate(latch)
  }

  /** An exact quotient: `n / q` is `b` when `q * b` is `n`. */
  lemma ExactQuotient(n: nat, q: nat, b: nat)
    requires q > 0 && q * b == n
    ensures n / q == b
  {
    DivBounds(n, q);
  }

  /** For a rate above 450 that divides 115200 the divisor fits in one byte, so the rate
      read back after setting it is the rate set. */
  lemma {:induction false} BaudRoundTripAbove450(baud: U32)
    requires 450 < baud && CLOCK_BASE % baud == 0
    ensures Divisor(baud).Some? && BaudAfterSet(baud) == Some(baud)
  {
    var q := Divisor(baud).value;
    assert q * baud == CLOCK_BASE;
    assert q < 0x100;
    LatchRoundTrip(q);
    ExactQuotient(CLOCK_BASE, q, baud);
  }

  /** A latch of one byte gives a rate above 450. */
  lemma OneByteLatchIsFast(c: U16)
    requires 0 < c < 0x100
    ensures BaudRate(c).Some? && BaudRate(c).value > 450
  {
    var b := BaudRate(c).value;
    assert (b + 1) * c <= (b + 1) * 0xFF;
  }

  /** For a rate up to 450 what is read back has at most one byte, so the rate reported
      is above 450 (or there is none), never the rate set. */
  lemma {:induction false} BaudRoundTripFailsUpTo450(baud: U32)
    requires 0 < baud <= 450 && CLOCK_BASE % baud == 0
    ensures Divisor(baud).Some? && BaudAfterSet(baud) != Some(baud)
  {
    var bytes := SplitLatch(Divisor(baud).value);
    var c := CombineLatch(bytes.0, bytes.1);
    if c != 0 {
      OneByteLatchIsFast(c);
    }
  }

  /** The rate set is the rate read back exactly when it is above 450. */
  lemma BaudRoundTrip(baud: U32)
    requires Divisor(baud).Some?
    ensures BaudAfterSet(baud) == Some(baud) <==> baud > 450
  {
    if baud > 450 {
      BaudRoundTripAbove450(baud);
    } else {
      BaudRoundTripFailsUpTo450(baud);
    }
  }

  /** At 300 baud the divisor is 384 (0x180); its bytes read back or-ed together as 0x81,
      so `get_baud_rate` reports 893. */
  lemma BaudRateAt300ReadsBackAs893()
    ensures Divisor(300) == Some(0x180)
    ensures SplitLatch(0x180) == (0x80, 0x01)
    ensures CombineLatch(0x80, 0x01) == 0x81
    ensures BaudAfterSet(300) == Some(893)
  {
    assert BitOr(0x80, 0x01) == 2 * BitOr(0x40, 0) + 1;
  }

  // ----- the port -----

  /** One access on the I/O bus: `inb(port)` returning `value`, or `outb(port, value)`. */
  datatype IoAccess = In(port: nat, value: Byte) | Out(port: nat, value: Byte)

  /** The accesses of `set_dlab` on a line-control byte `lcr`. */
  function SetDlabAccesses(ioBase: nat, lcr: Byte): seq<IoAccess> {
    [In(ioBase + LCR_OFFSET, lcr), Out(ioBase + LCR_OFFSET, WithDlab(lcr))]
  }

  /** The accesses of `clear_dlab` on a line-control byte `lcr`. */
  function ClearDlabAccesses(ioBase: nat, lcr: Byte): seq<IoAccess> {
    [In(ioBase + LCR_OFFSET, lcr), Out(ioBase + LCR_OFFSET, WithoutDlab(lcr))]
  }

  /** The accesses of `get_divisor_latch` on a line-control byte `lcr`: DLAB set, offset 1
      read, offset 0 read, DLAB cleared. */
  function GetLatchAccesses(ioBase: nat, lcr: Byte, offset1: Byte, offset0: Byte): seq<IoAccess> {
    SetDlabAccesses(ioBase, lcr) + [In(ioBase + 1, offset1), In(ioBase + 0, offset0)]
    + ClearDlabAccesses(ioBase, WithDlab(lcr))
  }

  /** The accesses of `set_divisor_latch(latch)` on a line-control byte `lcr`: DLAB set,
      the two latch bytes written to offsets 1 and 0, DLAB cleared. */
  function SetLatchAccesses(ioBase: nat, lcr: Byte, latch: U16): seq<IoAccess> {
    SetDlabAccesses(ioBase, lcr) + [Out(ioBase + 1, SplitLatch(latch).0), Out(ioBase + 0, SplitLatch(latch).1)]
    + ClearDlabAccesses(ioBase, WithDlab(lcr))
  }

  /** The accesses of a `write_str` that finds the transmitter ready for every byte:
      one line-status read and one Data write per byte, in order. */
  function TransmitAccesses(ioBase: nat, lsr: Byte, s: seq<Byte>): (t: seq<IoAccess>)
    ensures |t| == 2 * |s|
    ensures forall k | 0 <= k < |s| :: t[2 * k + 1] == Out(ioBase + DATA_OFFSET, s[k])
  {
    if s == [] then []
    else
      var rest := TransmitAccesses(ioBase, lsr, s[1..]);
      assert forall k | 1 <= k < |s| :: rest[2 * (k - 1) + 1] == Out(ioBase + DATA_OFFSET, s[k]);
      [In(ioBase + LSR_OFFSET, lsr), Out(ioBase + DATA_OFFSET, s[0])] + rest
  }

  lemma {:induction false} TransmitAccessesSnoc(ioBase: nat, lsr: Byte, s: seq<Byte>, b: Byte)
    ensures TransmitAccesses(ioBase, lsr, s + [b])
         == TransmitAccesses(ioBase, lsr, s) + [In(ioBase + LSR_OFFSET, lsr), Out(ioBase + DATA_OFFSET, b)]
    decreases |s|
  {
    if s == [] {
      assert [b][1..] == [];
    } else {
      assert (s + [b])[1..] == s[1..] + [b];
      TransmitAccessesSnoc(ioBase, lsr, s[1..], b);
    }
  }

  /** A serial port at `ioBase`: the device's register file (by offset) and the I/O bus log. */
  class Port {
    const ioBase: nat
    var regs: map<nat, Byte>
    var bus: seq<IoAccess>

    /** Every register offset is in the file, and `io_base + offset` stays within u16. */
    ghost predicate Valid()
      reads this
    {
      ioBase + 7 < U16_MODULUS && forall off | 0 <= off < 8 :: off in regs
    }

    /** `Port::init`: `set_baud_rate(115200)`, then 0xC7 to FIFOControl (enable and clear
        both FIFOs, 14-byte trigger level). Divisor 1 is split as written, so offset 1
        gets 1 and offset 0 gets 0: the device divides by 0x100 (450 baud), although
        `get_divisor_latch` reads it back as 1. */
    constructor Init(ioBase: nat, device: map<nat, Byte>)
      requires ioBase + 7 < U16_MODULUS && forall off | 0 <= off < 8 :: off in device
      ensures Valid() && this.ioBase == ioBase
      ensures regs == device[LCR_OFFSET := WithoutDlab(device[LCR_OFFSET])][1 := 1][0 := 0][2 := 0xC7]
      ensures CombineLatch(regs[1], regs[0]) == 1
      ensures DeviceLatch(regs[1], regs[0]) == 0x100
      ensures bus == SetLatchAccesses(ioBase, device[LCR_OFFSET], 1) + [Out(ioBase + 2, 0xC7)]
    {
      this.ioBase := ioBase;
      regs := device;
      bus := [];
      new;
      var ok := SetBaudRate(CLOCK_BASE);
      WriteRegister(FIFOControl, 0xC7);
    }

    /** `read_register`: `inb(io_base + offset)`. */
    method ReadRegister(r: Register) returns (value: Byte)
      requires Valid()
      modifies this`bus
      ensures value == regs[Offset(r)]
      ensures bus == old(bus) + [In(PortAddress(ioBase, r), value)]
    {
      value := regs[Offset(r)];
      bus := bus + [In(ioBase + Offset(r), value)];
    }

    /** `write_register`: `outb(io_base + offset, value)`. */
    method WriteRegister(r: Register, value: Byte)
      requires Valid()
      modifies this`regs, this`bus
      ensures Valid()
      ensures regs == old(regs)[Offset(r) := value]
      ensures bus == old(bus) + [Out(PortAddress(ioBase, r), value)]
    {
      regs := regs[Offset(r) := value];
      bus := bus + [Out(ioBase + Offset(r), value)];
    }

    /** `set_dlab`: set bit 7 of the line-control register, keeping bits 0 to 6. */
    method SetDlab()
      requires Valid()
      modifies this`regs, this`bus
      ensures Valid()
      ensures regs == old(regs)[LCR_OFFSET := WithDlab(old(regs)[LCR_OFFSET])]
      ensures bus == old(bus) + SetDlabAccesses(ioBase, old(regs)[LCR_OFFSET])
    {
      var lcr := ReadRegister(LineControl);
      lcr := WithDlab(lcr);
      WriteRegister(LineControl, lcr);
    }

    /** `clear_dlab`: clear bit 7 of the line-control register, keeping bits 0 to 6. */
    method ClearDlab()
      requires Valid()
      modifies this`regs, this`bus
      ensures Valid()
      ensures regs == old(regs)[LCR_OFFSET := WithoutDlab(old(regs)[LCR_OFFSET])]
      ensures bus == old(bus) + ClearDlabAccesses(ioBase, old(regs)[LCR_OFFSET])
    {
      var lcr := ReadRegister(LineControl);
      lcr := WithoutDlab(lcr);
      WriteRegister(LineControl, lcr);
    }

    /** `get_divisor_latch`: with DLAB set, read offset 1 then offset 0, clear DLAB, and
        return the two bytes or-ed together. Only the line-control register changes,
        and it ends with DLAB clear. */
    method GetDivisorLatch() returns (latch: U16)
      requires Valid()
      modifies this`regs, this`bus
      ensures Valid()
      ensures latch == CombineLatch(old(regs)[1], old(regs)[0])
      ensures regs == old(regs)[LCR_OFFSET := WithoutDlab(old(regs)[LCR_OFFSET])]
      ensures bus == old(bus) + GetLatchAccesses(ioBase, old(regs)[LCR_OFFSET], old(regs)[1], old(regs)[0])
    {
      SetDlab();
      var high := ReadRegister(DivisorLatchHigh);
      var low := ReadRegister(DivisorLatchLow);
      ClearDlab();
      latch := CombineLatch(high, low);
    }

    /** `set_divisor_latch`: with DLAB set, write `latch as u8` to offset 1 and
        `latch >> 8` to offset 0, then clear DLAB. */
    method SetDivisorLatch(latch: U16)
      requires Valid()
      modifies this`regs, this`bus
      ensures Valid()
      ensures regs == old(regs)[LCR_OFFSET := WithoutDlab(old(regs)[LCR_OFFSET])]
                               [1 := SplitLatch(latch).0][0 := SplitLatch(latch).1]
      ensures bus == old(bus) + SetLatchAccesses(ioBase, old(regs)[LCR_OFFSET], latch)
    {
      var high := latch % 0x100;
      var low := latch / 0x100;
      SetDlab();
      WriteRegister(DivisorLatchHigh, high);
      WriteRegister(DivisorLatchLow, low);
      ClearDlab();
    }

    /** `get_baud_rate`: 115200 divided by the latch value read back; `None` where that
        division by zero panics. */
    method GetBaudRate() returns (baud: Option<U32>)
      requires Valid()
      modifies this`regs, this`bus
      ensures Valid()
      ensures baud == BaudRate(CombineLatch(old(regs)[1], old(regs)[0]))
      ensures regs == old(regs)[LCR_OFFSET := WithoutDlab(old(regs)[LCR_OFFSET])]
      ensures bus == old(bus) + GetLatchAccesses(ioBase, old(regs)[LCR_OFFSET], old(regs)[1], old(regs)[0])
    {
      var latch := GetDivisorLatch();
      if latch == 0 {
        baud := None;
      } else {
        baud := Some(CLOCK_BASE / latch);
      }
    }

    /** `set_baud_rate`: panics, touching nothing, unless the rate divides 115200;
        otherwise programs `(115200 / baud) as u16`. `ok` is false where it panics. */
    method SetBaudRate(baud: U32) returns (ok: bool)
      requires Valid()
      modifies this`regs, this`bus
      ensures Valid()
      ensures ok <==> Divisor(baud).Some?
      ensures !ok ==> regs == old(regs) && bus == old(bus)
      ensures ok ==> regs == old(regs)[LCR_OFFSET := WithoutDlab(old(regs)[LCR_OFFSET])]
                                      [1 := SplitLatch(Divisor(baud).value).0]
                                      [0 := SplitLatch(Divisor(baud).value).1]
      ensures ok ==> bus == old(bus) + SetLatchAccesses(ioBase, old(regs)[LCR_OFFSET], Divisor(baud).value)
    {
      if baud == 0 || CLOCK_BASE % baud != 0 {
        ok := false;
        return;
      }
      SetDivisorLatch((CLOCK_BASE / baud) % U16_MODULUS);
      ok := true;
    }

    /** `has_available_byte`: bit 0 (data ready) of the line-status register. */
    method HasAvailableByte() returns (ready: bool)
      requires Valid()
      modifies this`bus
      ensures ready <==> DataReady(regs[LSR_OFFSET])
      ensures bus == old(bus) + [In(ioBase + LSR_OFFSET, regs[LSR_OFFSET])]
    {
      var lsr := ReadRegister(LineStatus);
      ready := lsr % 2 == 1;
    }

    /** `read_byte`: the Data register if a byte is ready; otherwise `None`, and Data is
        not read. */
    method ReadByte() returns (b: Option<Byte>)
      requires Valid()
      modifies this`bus
      ensures b == if DataReady(regs[LSR_OFFSET]) then Some(regs[DATA_OFFSET]) else None
      ensures bus == old(bus) + [In(ioBase + LSR_OFFSET, regs[LSR_OFFSET])]
                     + (if b.Some? then [In(ioBase + DATA_OFFSET, b.value)] else [])
    {
      var ready := HasAvailableByte();
      if ready {
        var data := ReadRegister(Data);
        return Some(data);
      }
      b := None;
    }

    /** `has_write_space`: bit 5 (transmitter holding register empty) of the line status. */
    method HasWriteSpace() returns (space: bool)
      requires Valid()
      modifies this`bus
      ensures space <==> TransmitterEmpty(regs[LSR_OFFSET])
      ensures bus == old(bus) + [In(ioBase + LSR_OFFSET, regs[LSR_OFFSET])]
    {
      var lsr := ReadRegister(LineStatus);
      space := (lsr / 0x20) % 2 == 1;
    }

    /** `write_byte`: if the transmitter has room, write Data and return true; otherwise
        return false having written nothing. */
    method WriteByte(byte: Byte) returns (sent: bool)
      requires Valid()
      modifies this`regs, this`bus
      ensures Valid()
      ensures sent <==> TransmitterEmpty(old(regs)[LSR_OFFSET])
      ensures regs == if sent then old(regs)[DATA_OFFSET := byte] else old(regs)
      ensures bus == old(bus) + [In(ioBase + LSR_OFFSET, old(regs)[LSR_OFFSET])]
                     + (if sent then [Out(ioBase + DATA_OFFSET, byte)] else [])
    {
      var space := HasWriteSpace();
      if !space {
        return false;
      }
      WriteRegister(Data, byte);
      sent := true;
    }

    /** `write_str`: send each byte of `s` through `write_byte`, then return false. Only
        runs where the transmitter reports room are modelled: there every `write_byte`
        succeeds on its first attempt. */
    method WriteStr(s: seq<Byte>) returns (result: bool)
      requires Valid()
      requires s != [] ==> TransmitterEmpty(regs[LSR_OFFSET])
      modifies this`regs, this`bus
      ensures Valid()
      ensures !result
      ensures regs == if s == [] then old(regs) else old(regs)[DATA_OFFSET := s[|s| - 1]]
      ensures bus == old(bus) + TransmitAccesses(ioBase, old(regs)[LSR_OFFSET], s)
    {
      for i := 0 to |s|
        invariant Valid()
        invariant regs == if i == 0 then old(regs) else old(regs)[DATA_OFFSET := s[i - 1]]
        invariant bus == old(bus) + TransmitAccesses(ioBase, old(regs)[LSR_OFFSET], s[..i])
      {
        TransmitAccessesSnoc(ioBase, old(regs)[LSR_OFFSET], s[..i], s[i]);
        assert s[..i + 1] == s[..i] + [s[i]];
        var sent := WriteByte(s[i]);
        assert sent;
      }
      assert s[..|s|] == s;
      result := false;
    }
  }
}
