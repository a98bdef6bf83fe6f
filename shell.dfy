/** The simulator shell the engine runs inside (its header is not part of this
    model): the two copies of the architectural state, the run flag, the
    `branch_taken` latch and the 32-bit word store behind `mem_read_32` and
    `mem_write_32`. */
module Shell {
  /** The 32 general-purpose registers. Index 31 is an ordinary slot: no
      revision of the engine treats it as a zero register on reads. */
  type RegFile = s: seq<bv64> | |s| == 32 witness seq(32, _ => 0)

  /** A byte address as a map key. */
  datatype Address = Address(bits: bv64)

  /** The word store: one 32-bit word per byte address. Words at different
      addresses never share bytes, so a word written at an unaligned address
      is not seen through the aligned word that holds its bytes. An address
      that was never written reads as 0. */
  type Store = map<Address, bv32>

  /** `mem_read_32(addr)`. */
  function MemRead32(mem: Store, addr: bv64): bv32 {
    if Address(addr) in mem then mem[Address(addr)] else 0
  }

  /** The store after `mem_write_32(addr, value)`. */
  function StoreWord(mem: Store, addr: bv64, value: bv32): (r: Store)
    ensures MemRead32(r, addr) == value
    ensures forall a :: a != addr ==> MemRead32(r, a) == MemRead32(mem, a)
  {
    mem[Address(addr) := value]
  }

  /** One copy of the architectural state (`CURRENT_STATE` or `NEXT_STATE`). */
  datatype CpuState = CpuState(regs: RegFile, pc: bv64, flagZ: bool, flagN: bool)

  /** A snapshot of everything the engine reads or writes. */
  datatype Sim = Sim(current: CpuState, next: CpuState, runBit: bool, branchTaken: bool, mem: Store)

  /** The shell's globals, which the handlers update in place. */
  class Machine {
    var current: CpuState
    var next: CpuState
    var runBit: bool
    var branchTaken: bool
    var mem: Store

    constructor (s: Sim)
      ensures State() == s
    {
      current, next, runBit, branchTaken, mem := s.current, s.next, s.runBit, s.branchTaken, s.mem;
    }

    /** The globals as one value, for stating what a method does to them. */
    function State(): Sim
      reads this
    {
      Sim(current, next, runBit, branchTaken, mem)
    }
  }

  /** `mem_write_32(addr, value)`: replaces one word and no other. */
  method MemWrite32(m: Machine, addr: bv64, value: bv32)
    modifies m`mem
    ensures m.mem == StoreWord(old(m.mem), addr, value)
  {
    m.mem := m.mem[Address(addr) := value];
  }
}
