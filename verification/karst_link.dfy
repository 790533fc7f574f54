// Word widths, striped addresses and packed flits of the Karst memory fabric.

module Prelude {
  datatype Option<+T> = None | Some(value: T)

  type U8 = n: int | 0 <= n < 0x100
  type U32 = n: int | 0 <= n < 0x1_0000_0000
  type U64 = n: int | 0 <= n < 0x1_0000_0000_0000_0000
}

// Shifts and masks of the source are written as division and remainder by powers of two.
module KarstAddress {
  import opened Prelude

  const HOSTS: nat := 8
  const HOSTS_PER_DIE: nat := 4
  const DIES: nat := 2
  const KL_PORTS: nat := 10
  const MC_PORTS: nat := 4
  const INTERDIE_PORT: nat := 8
  const CHANNEL_CAPACITY: U64 := 4096

  datatype MemoryFault = Unaligned | AddressWidth | OutOfBounds | ReadFailed | WriteFailed | UnknownFault

  function FaultCode(fault: MemoryFault): U32 {
    match fault
    case Unaligned => 1
    case AddressWidth => 2
    case OutOfBounds => 3
    case ReadFailed => 4
    case WriteFailed => 5
    case UnknownFault => 6
  }

  function FaultFromCode(code: U32): MemoryFault {
    if code == 1 then Unaligned
    else if code == 2 then AddressWidth
    else if code == 3 then OutOfBounds
    else if code == 4 then ReadFailed
    else if code == 5 then WriteFailed
    else UnknownFault
  }

  // Bit 12 selects the die, bits 11:10 the memory controller on it; together they name the channel.
  function DieOf(addr: nat): (d: nat)
    ensures d < DIES
  {
    addr / 4096 % 2
  }

  function McOf(addr: nat): (m: nat)
    ensures m < MC_PORTS
  {
    addr / 1024 % 4
  }

  function Chan(addr: nat): (c: nat)
    ensures c < 8
  {
    addr / 1024 % 8
  }

  lemma ChanIsDieAndMc(addr: nat)
    ensures Chan(addr) == 4 * DieOf(addr) + McOf(addr)
  {
    var k := addr / 1024;
    assert addr / 4096 == k / 4;
    assert k == 4 * (k / 4) + k % 4;
    var j := k / 4;
    assert k == 8 * (j / 2) + 4 * (j % 2) + k % 4;
  }

  datatype Decoded = Local(addr: U32) | Faulty(fault: MemoryFault)

  function LocalOf(addr: nat): nat {
    addr / 8192 * 1024 + addr % 1024
  }

  function ValidateLocalWord(addr: U32, capacity: U64): Option<MemoryFault> {
    if addr % 4 != 0 then Some(Unaligned)
    else if addr + 4 > capacity then Some(OutOfBounds)
    else None
  }

  function DecodeLocalWord(addr: U32, capacity: U64): Decoded {
    if addr > 0xFF_FFFF then
      Faulty(AddressWidth)
    else
      var local := LocalOf(addr);
      match ValidateLocalWord(local, capacity)
      case Some(fault) => Faulty(fault)
      case None => Local(local)
  }

  // The addresses a host may post: the words of the eight 4 KiB channels.
  predicate Mapped(addr: nat) {
    addr < 0x8000 && addr % 4 == 0
  }

  lemma DecodeAcceptsMapped(addr: U32)
    ensures DecodeLocalWord(addr, CHANNEL_CAPACITY).Local? <==> Mapped(addr)
    ensures Mapped(addr) ==> DecodeLocalWord(addr, CHANNEL_CAPACITY) == Local(LocalOf(addr))
    ensures Mapped(addr) ==> LocalOf(addr) + 4 <= CHANNEL_CAPACITY && LocalOf(addr) % 4 == 0
  {
    assert LocalOf(addr) % 4 == addr % 4;
    if addr >= 0x8000 {
      assert addr / 8192 >= 4;
    }
  }

  // Why an address is refused: first its width, then its alignment, then its size.
  lemma DecodeRefuses(addr: U32)
    requires !Mapped(addr)
    ensures DecodeLocalWord(addr, CHANNEL_CAPACITY) == Faulty(
      if addr >= 0x100_0000 then AddressWidth else if addr % 4 != 0 then Unaligned else OutOfBounds)
  {
    assert LocalOf(addr) % 4 == addr % 4;
    if addr >= 0x8000 {
      assert addr / 8192 >= 4;
    }
  }

  lemma AddressFromStripe(a: nat)
    ensures a == a / 8192 * 8192 + Chan(a) * 1024 + a % 1024
  {
    var k := a / 1024;
    assert a / 8192 == k / 8;
    assert k == k / 8 * 8 + k % 8;
  }

  // Each word of each channel has exactly one address.
  lemma StripesDoNotAlias(a: U32, b: U32)
    requires Mapped(a) && Mapped(b)
    requires Chan(a) == Chan(b) && LocalOf(a) == LocalOf(b)
    ensures a == b
  {
    AddressFromStripe(a);
    AddressFromStripe(b);
    assert LocalOf(a) / 1024 == a / 8192 && LocalOf(a) % 1024 == a % 1024;
    assert LocalOf(b) / 1024 == b / 8192 && LocalOf(b) % 1024 == b % 1024;
  }

  function StripeAddress(die: nat, mc: nat, local: nat): nat {
    local / 1024 * 8192 + die * 4096 + mc * 1024 + local % 1024
  }

  lemma StripesCoverEveryWord(die: nat, mc: nat, local: nat)
    requires die < DIES && mc < MC_PORTS && local < CHANNEL_CAPACITY && local % 4 == 0
    ensures var addr := StripeAddress(die, mc, local);
            Mapped(addr) && DieOf(addr) == die && McOf(addr) == mc
            && DecodeLocalWord(addr, CHANNEL_CAPACITY) == Local(local)
  {
    var addr := StripeAddress(die, mc, local);
    StripeFields(local / 1024, die, mc, local % 1024);
    assert addr % 4 == local % 4;
    assert LocalOf(addr) == local;
    DecodeAcceptsMapped(addr);
  }

  lemma StripeFields(row: nat, die: nat, mc: nat, offset: nat)
    requires die < DIES && mc < MC_PORTS && offset < 1024
    ensures var addr := row * 8192 + die * 4096 + mc * 1024 + offset;
            && addr / 8192 == row && addr % 1024 == offset && DieOf(addr) == die && McOf(addr) == mc
  {
    var addr := row * 8192 + die * 4096 + mc * 1024 + offset;
    assert addr / 1024 == (row * 2 + die) * 4 + mc;
    assert addr / 4096 == row * 2 + die;
  }
}

module KarstLink {
  import opened Prelude
  import opened KarstAddress

  type U24 = n: int | 0 <= n < 0x100_0000
  type U7 = n: int | 0 <= n < 0x80

  // The fields of one 64-bit word on a link. Bit 63 is IsWrite on a request and IsFault on a response.
  datatype Flit = Flit(addr: U24, data: U32, src: U7, isWrite: bool)

  const NULL_FLIT := Flit(0, 0, 0, false)

  function Pack(addr: U32, data: U32, src: U8, isWrite: bool): U64 {
    (if isWrite then 0x8000_0000_0000_0000 else 0)
    + src % 0x80 * 0x100_0000_0000_0000
    + addr % 0x100_0000 * 0x1_0000_0000
    + data
  }

  function Unpack(raw: U64): Flit {
    Flit(raw / 0x1_0000_0000 % 0x100_0000,
         raw % 0x1_0000_0000,
         raw / 0x100_0000_0000_0000 % 0x80,
         raw / 0x8000_0000_0000_0000 % 2 == 1)
  }

  // What the receiver unpacks from the word a sender packed: the address loses bits above 24, the source above 7.
  function OnWire(addr: U32, data: U32, src: U8, isWrite: bool): Flit {
    Flit(addr % 0x100_0000, data, src % 0x80, isWrite)
  }

  lemma UnpackPack(addr: U32, data: U32, src: U8, isWrite: bool)
    ensures Unpack(Pack(addr, data, src, isWrite)) == OnWire(addr, data, src, isWrite)
  {
    var a, s := addr % 0x100_0000, src % 0x80;
    var w := if isWrite then 1 else 0;
    var raw := Pack(addr, data, src, isWrite);
    assert raw == ((w * 0x80 + s) * 0x100_0000 + a) * 0x1_0000_0000 + data;
    assert raw / 0x1_0000_0000 == (w * 0x80 + s) * 0x100_0000 + a;
    assert raw / 0x100_0000_0000_0000 == w * 0x80 + s;
    assert raw / 0x8000_0000_0000_0000 == w;
  }

  // Every raw word is the packing of its own fields, so queues of raw words and queues of flits hold the same data.
  lemma PackUnpack(raw: U64)
    ensures var f := Unpack(raw); Pack(f.addr, f.data, f.src, f.isWrite) == raw
  {
    var hi := raw / 0x1_0000_0000;
    var top := raw / 0x100_0000_0000_0000;
    assert raw == hi * 0x1_0000_0000 + raw % 0x1_0000_0000;
    assert top == hi / 0x100_0000;
    assert hi == top * 0x100_0000 + hi % 0x100_0000;
    assert raw / 0x8000_0000_0000_0000 == top / 0x80;
    assert top == top / 0x80 * 0x80 + top % 0x80;
  }

  function FaultResponse(addr: U32, src: U8, fault: MemoryFault): Flit {
    OnWire(addr, FaultCode(fault), src, true)
  }

  function ResponseFault(flit: Flit): Option<MemoryFault> {
    if flit.isWrite then Some(FaultFromCode(flit.data)) else None
  }

  lemma FaultSurvivesTheWire(addr: U32, src: U8, fault: MemoryFault)
    ensures ResponseFault(Unpack(Pack(addr, FaultCode(fault), src, true))) == Some(fault)
  {
    UnpackPack(addr, FaultCode(fault), src, true);
  }
}
