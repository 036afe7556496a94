/** The VM's byte store, reached through vm.get_mem and vm.set_mem. */
module VirtualMemory {
  import opened LittleEndian

  /** Memory as a total map: a byte that was never written reads as 0. */
  type Mem = map<int, byte>

  function Load(m: Mem, a: int): byte
  {
    if a in m then m[a] else 0
  }

  /** vm.get_mem(addr, n): the n bytes starting at addr. */
  function Read(m: Mem, addr: int, n: nat): (b: seq<byte>)
    ensures |b| == n
    ensures forall k :: 0 <= k < n ==> b[k] == Load(m, addr + k)
  {
    seq(n, k => Load(m, addr + k))
  }

  /** vm.set_mem(addr, b): the bytes of b land at addr, addr + 1, ...; every other byte keeps its value. */
  function Write(m: Mem, addr: int, b: seq<byte>): (r: Mem)
    ensures forall a :: Load(r, a) == if addr <= a < addr + |b| then b[a - addr] else Load(m, a)
    decreases |b|
  {
    if b == [] then m else Write(m[addr := b[0]], addr + 1, b[1..])
  }

  /** A read of the span just written returns the written bytes. */
  lemma ReadWrite(m: Mem, addr: int, b: seq<byte>)
    ensures Read(Write(m, addr, b), addr, |b|) == b
  {
  }

  /** A read sees only the bytes of its span. */
  lemma ReadSame(m1: Mem, m2: Mem, addr: int, n: nat)
    requires forall a :: addr <= a < addr + n ==> Load(m1, a) == Load(m2, a)
    ensures Read(m1, addr, n) == Read(m2, addr, n)
  {
  }
}
