/** The stack accessors of jitter_x86_16 (miasm2/arch/x86/jit.py:37-66). */
module X86_16 {
  import opened Wrappers
  import opened LittleEndian
  import opened VirtualMemory
  import S = Stack

  /** The one register the stack accessors touch. */
  datatype Reg = SP

  /** ir_x86_16's stack pointer is 16 bits wide: push and pop move SP by 16 / 8 bytes. */
  const SpSize: nat := 16
  const Step: nat := SpSize / 8

  /** 2^16: a 16-bit register keeps a written value modulo this. */
  const M: nat := 0x1_0000

  function Wrap(v: int): nat
  {
    v % M
  }

  /** What the accessors see of the jitter: the register file, self.pc and the VM's bytes. */
  datatype Machine = Machine(cpu: map<Reg, nat>, pc: int, vm: Mem)
  {
    /** Every register is present and holds a 16-bit value. */
    ghost predicate Valid()
    {
      forall r: Reg :: r in cpu && cpu[r] < M
    }

    function Stack(): S.Stack
      requires Valid()
    {
      S.Stack(cpu[SP], vm)
    }
  }

  /** The machine with SP and the memory taken from st. */
  function WithStack(s: Machine, st: S.Stack): (r: Machine)
    requires s.Valid() && st.sp < M
    ensures r.Valid()
  {
    s.(cpu := s.cpu[SP := st.sp], vm := st.mem)
  }

  /** push_uint16_t. */
  function Push(s: Machine, v: int): (r: Machine)
    requires s.Valid() && S.Fit(Step, v)
    ensures r.Valid()
  {
    Pow256Widths();
    WithStack(s, S.Push(s.Stack(), Step, v))
  }

  /** pop_uint16_t. */
  function Pop(s: Machine): (r: (int, Machine))
    requires s.Valid()
    ensures r.1.Valid()
  {
    Pow256Widths();
    var (v, st) := S.Pop(s.Stack(), Step);
    (v, WithStack(s, st))
  }

  /** get_stack_arg as written: 4 bytes at SP + 4·index handed to upck16, which unpacks exactly 2,
      so the call raises (None) whatever the index and the memory. */
  function GetStackArgAsWritten(s: Machine, index: nat): (r: Option<nat>)
    requires s.Valid()
    ensures r == None
  {
    Unpack(2, Read(s.vm, s.cpu[SP] + 4 * index, 4))
  }

  /** get_stack_arg with the byte count upck16 accepts: the argument slots stay 4 bytes apart, as the
      4·index of the source keeps them, and the 16-bit value is the 2 bytes at the start of slot index. */
  function GetStackArg(s: Machine, index: nat): (v: nat)
    requires s.Valid()
    ensures v < M && Pack(2, v) == Read(s.vm, s.cpu[SP] + 4 * index, 2)
  {
    Pow256Widths();
    Unpack(2, Read(s.vm, s.cpu[SP] + 4 * index, 2)).value
  }

  // ---------------------------------------------------------------------------
  // Properties

  /** push_uint16_t lowers SP by 2, modulo 2^16, and stores the 2 little-endian bytes of v at the new SP;
      no other register and no other byte changes. */
  lemma PushEffect(s: Machine, v: int)
    requires s.Valid() && S.Fit(Step, v)
    ensures Push(s, v).cpu == s.cpu[SP := Wrap(s.cpu[SP] as int - 2)]
    ensures Push(s, v).pc == s.pc
    ensures Read(Push(s, v).vm, Push(s, v).cpu[SP], 2) == Pack(2, v)
    ensures forall a :: !(Push(s, v).cpu[SP] <= a < Push(s, v).cpu[SP] + 2) ==> Load(Push(s, v).vm, a) == Load(s.vm, a)
  {
    Pow256Widths();
  }

  /** pop_uint16_t right after push_uint16_t returns the pushed value and puts SP back. */
  lemma PopAfterPush(s: Machine, v: int)
    requires s.Valid() && S.Fit(Step, v)
    ensures Pop(Push(s, v)) == (v, Push(s, v).(cpu := s.cpu))
  {
    Pow256Widths();
    S.PopPush(s.Stack(), Step, v);
    assert s.cpu[SP := Push(s, v).cpu[SP]][SP := s.cpu[SP]] == s.cpu;
  }

  /** As written, get_stack_arg cannot read back even the value just pushed. */
  lemma GetStackArgAsWrittenFails(s: Machine, v: int, index: nat)
    requires s.Valid() && S.Fit(Step, v)
    ensures GetStackArgAsWritten(Push(s, v), index).None?
    ensures |Read(Push(s, v).vm, Push(s, v).cpu[SP] + 4 * index, 4)| != 2
  {
  }

  /** The corrected get_stack_arg after push_uint16_t: slot 0 is the pushed value and, when SP does not
      wrap, two pushes (one 4-byte slot) move what was slot k to slot k + 1. */
  lemma GetStackArgAfterPush(s: Machine, u: int, v: int, k: nat)
    requires s.Valid() && S.Fit(Step, u) && S.Fit(Step, v)
    ensures GetStackArg(Push(s, v), 0) == v
    ensures 4 <= s.cpu[SP] ==> GetStackArg(Push(Push(s, u), v), k + 1) == GetStackArg(s, k)
  {
    GetStackArgTop(s, v);
    if 4 <= s.cpu[SP] {
      GetStackArgBelow(s, u, v, k);
    }
  }

  /** The first clause of GetStackArgAfterPush. */
  lemma GetStackArgTop(s: Machine, v: int)
    requires s.Valid() && S.Fit(Step, v)
    ensures GetStackArg(Push(s, v), 0) == v
  {
    Pow256Widths();
    GetStackArgSlot(Push(s, v), 0);
    S.PushSlotTop(s.Stack(), Step, v);
  }

  /** The second clause of GetStackArgAfterPush: two 2-byte pushes shift the 4-byte slots by one. */
  lemma GetStackArgBelow(s: Machine, u: int, v: int, k: nat)
    requires s.Valid() && S.Fit(Step, u) && S.Fit(Step, v) && 4 <= s.cpu[SP]
    ensures GetStackArg(Push(Push(s, u), v), k + 1) == GetStackArg(s, k)
  {
    Pow256Widths();
    var s1 := Push(s, u);
    PushStack(s, u);
    PushStack(s1, v);
    S.PushTwiceSlotBelow(s.Stack(), Step, u, v, 2 * k);
    SlotsShifted(s, Push(s1, v), k);
  }

  /** Two machines whose stacks hold the same 2 bytes at 2-byte slots 2·k + 2 and 2·k agree on the
      corrected reader's slots k + 1 and k. */
  lemma SlotsShifted(s: Machine, s2: Machine, k: nat)
    requires s.Valid() && s2.Valid()
    requires S.Slot(s2.Stack(), Step, 2 * k + 2) == S.Slot(s.Stack(), Step, 2 * k)
    ensures GetStackArg(s2, k + 1) == GetStackArg(s, k)
  {
    GetStackArgSlot(s, k);
    GetStackArgSlot(s2, k + 1);
  }

  /** push_uint16_t is the 2-byte stack push on SP and the memory. */
  lemma PushStack(s: Machine, v: int)
    requires s.Valid() && S.Fit(Step, v)
    ensures Pow256(Step) == M && Push(s, v).Stack() == S.Push(s.Stack(), Step, v)
  {
    Pow256Widths();
  }

  /** Slot index of the 4-byte stride seen as 2-byte slots: slot k starts where 2-byte slot 2·k does. */
  lemma GetStackArgSlot(s: Machine, k: nat)
    requires s.Valid()
    ensures GetStackArg(s, k) == S.Slot(s.Stack(), Step, 2 * k)
  {
    Pow256Widths();
    assert Step * (2 * k) == 4 * k;
    PackInjective(2, GetStackArg(s, k), S.Slot(s.Stack(), Step, 2 * k));
  }

  // ---------------------------------------------------------------------------
  // The jitter object

  /** jitter_x86_16: the fields the stack accessors update in place. */
  class Jitter16 {
    var cpu: map<Reg, nat>
    var pc: int
    var vm: Mem

    /** A jitter object over the given register file, pc and memory. */
    constructor (s: Machine)
      requires s.Valid()
      ensures Valid() && State() == s
    {
      cpu := s.cpu;
      pc := s.pc;
      vm := s.vm;
    }

    function State(): Machine
      reads this
    {
      Machine(cpu, pc, vm)
    }

    ghost predicate Valid()
      reads this
    {
      State().Valid()
    }

    /** push_uint16_t (jit.py:52-54). */
    method PushUint16(value: int)
      requires Valid() && S.Fit(Step, value)
      modifies this
      ensures Valid() && State() == Push(old(State()), value)
    {
      Pow256Widths();
      assert Wrap(cpu[SP] as int - Step) == S.Lower(cpu[SP], Step);
      cpu := cpu[SP := Wrap(cpu[SP] as int - Step)];
      vm := Write(vm, cpu[SP], Pack(2, value));
    }

    /** pop_uint16_t (jit.py:56-59). */
    method PopUint16() returns (value: int)
      requires Valid()
      modifies this
      ensures Valid() && (value, State()) == Pop(old(State()))
    {
      Pow256Widths();
      var unpacked := Unpack(2, Read(vm, cpu[SP], Step));
      value := unpacked.value;
      cpu := cpu[SP := Wrap(cpu[SP] + Step)];
    }
  }
}
