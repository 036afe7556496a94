/** jitter_x86_32 (miasm2/arch/x86/jit.py:69-179): the 32-bit stack accessors and the stdcall, cdecl,
    System V and fastcall calling conventions. */
module X86_32 {
  import opened Wrappers
  import opened LittleEndian
  import opened VirtualMemory
  import S = Stack
  import RF = RegisterFile

  /** The registers this layer reads or writes. */
  datatype Reg = EAX | ECX | EDX | ESP | EIP

  /** ir_x86_32's stack pointer is 32 bits wide: push and pop move ESP by 32 / 8 bytes. */
  const SpSize: nat := 32
  const Step: nat := SpSize / 8

  /** 2^32: a 32-bit register keeps a written value modulo this. */
  const M: nat := 0x1_0000_0000

  function Wrap(v: int): nat
  {
    v % M
  }

  lemma WrapSmall(v: int)
    requires 0 <= v < M
    ensures v % M == v
  {
  }

  /** fastcall's args_regs. */
  const FastcallRegs: seq<Reg> := [ECX, EDX]

  /** What this layer sees of the jitter: the register file (self.cpu), self.pc and the VM's bytes. */
  datatype Machine = Machine(cpu: map<Reg, nat>, pc: int, vm: Mem)
  {
    /** Every register is present and holds a 32-bit value. */
    ghost predicate Valid()
    {
      forall r: Reg :: r in cpu && cpu[r] < M
    }

    function Stack(): S.Stack
      requires Valid()
    {
      S.Stack(cpu[ESP], vm)
    }
  }

  /** The machine with ESP and the memory taken from st. */
  function WithStack(s: Machine, st: S.Stack): (r: Machine)
    requires s.Valid() && st.sp < M
    ensures r.Valid()
  {
    s.(cpu := s.cpu[ESP := st.sp], vm := st.mem)
  }

  /** push_uint32_t. */
  function Push(s: Machine, v: int): (r: Machine)
    requires s.Valid() && S.Fit(Step, v)
    ensures r.Valid()
  {
    Pow256Widths();
    WithStack(s, S.Push(s.Stack(), Step, v))
  }

  /** pop_uint32_t. */
  function Pop(s: Machine): (r: (int, Machine))
    requires s.Valid()
    ensures r.1.Valid()
  {
    Pow256Widths();
    var (v, st) := S.Pop(s.Stack(), Step);
    (v, WithStack(s, st))
  }

  /** push_uint16_t: ESP goes down by the full 4-byte stack step, then the 2 bytes of v are stored at the new ESP. */
  function Push16(s: Machine, v: int): (r: Machine)
    requires s.Valid() && S.Fit(2, v)
    ensures r.Valid() && r.cpu == s.cpu[ESP := Wrap(s.cpu[ESP] as int - 4)] && r.pc == s.pc
    ensures Read(r.vm, r.cpu[ESP], 2) == Pack(2, v)
    ensures forall a :: !(r.cpu[ESP] <= a < r.cpu[ESP] + 2) ==> Load(r.vm, a) == Load(s.vm, a)
  {
    Pow256Widths();
    var sp := S.Lower(s.cpu[ESP], Step);
    ReadWrite(s.vm, sp, Pack(2, v));
    s.(cpu := s.cpu[ESP := sp], vm := Write(s.vm, sp, Pack(2, v)))
  }

  /** pop_uint16_t as written: it reads sp.size / 8 = 4 bytes and hands them to upck16, which unpacks
      exactly 2; the unpack raises before ESP moves, so every call fails. */
  function Pop16AsWritten(s: Machine): (r: Option<(nat, Machine)>)
    requires s.Valid()
    ensures r == None
  {
    match Unpack(2, Read(s.vm, s.cpu[ESP], Step))
    case None => None
    // upck16 never accepts 4 bytes, so the ESP update that follows it is never reached
    case Some(_) => assert false; None
  }

  /** pop_uint16_t as evidently intended: the 2 bytes at ESP, then ESP goes up by the 4-byte step,
      mirroring push_uint16_t. */
  function Pop16(s: Machine): (r: (nat, Machine))
    requires s.Valid()
    ensures r.0 < 0x1_0000 && Pack(2, r.0) == Read(s.vm, s.cpu[ESP], 2)
    ensures r.1 == s.(cpu := s.cpu[ESP := Wrap(s.cpu[ESP] + 4)])
  {
    Pow256Widths();
    var b := Read(s.vm, s.cpu[ESP], 2);
    PackDecode(b);
    (Decode(b), s.(cpu := s.cpu[ESP := Wrap(s.cpu[ESP] + Step)]))
  }

  /** get_stack_arg, which is also get_arg_n_stdcall, get_arg_n_cdecl and get_arg_n_systemv:
      the 4 bytes at ESP + 4·index, read as a little-endian number; nothing moves. */
  function GetStackArg(s: Machine, index: nat): (v: nat)
    requires s.Valid()
    ensures v < M && Pack(4, v) == Read(s.vm, s.cpu[ESP] + 4 * index, 4)
  {
    Pow256Widths();
    S.Slot(s.Stack(), 4, index)
  }

  /** func_args_stdcall: pop the return address, then pop the n arguments; the callee cleans the stack. */
  function ArgsStdcall(s: Machine, n: nat): (r: (int, seq<int>, Machine))
    requires s.Valid()
    ensures |r.1| == n && r.2.Valid()
  {
    Pow256Widths();
    var (ret, s1) := Pop(s);
    var (args, st) := S.PopN(s1.Stack(), Step, n);
    (ret, args, WithStack(s1, st))
  }

  /** func_prepare_stdcall, which is also func_prepare_systemv: push the arguments last to first, then the return address. */
  function PrepareStdcall(s: Machine, retAddr: int, args: seq<int>): (r: Machine)
    requires s.Valid() && S.Fit(Step, retAddr) && S.AllFit(Step, args)
    ensures r.Valid()
  {
    Pow256Widths();
    WithStack(s, S.Push(S.PushArgs(s.Stack(), Step, args), Step, retAddr))
  }

  /** func_ret_stdcall and func_ret_cdecl: pc and EIP take ret_addr; EAX and EDX take the values that are given. */
  function Ret(s: Machine, retAddr: int, retValue1: Option<int>, retValue2: Option<int>): (r: Machine)
    requires s.Valid()
    ensures r.Valid()
  {
    var cpu1 := s.cpu[EIP := Wrap(retAddr)];
    var cpu2 := if retValue1.Some? then cpu1[EAX := Wrap(retValue1.value)] else cpu1;
    var cpu3 := if retValue2.Some? then cpu2[EDX := Wrap(retValue2.value)] else cpu2;
    s.(pc := retAddr, cpu := cpu3)
  }

  /** func_args_cdecl, which is also func_args_systemv: pop only the return address; read the arguments
      from the stack slots above it; the caller cleans the stack. */
  function ArgsCdecl(s: Machine, n: nat): (r: (int, seq<int>, Machine))
    requires s.Valid()
    ensures |r.1| == n && r.2.Valid()
  {
    var (ret, s1) := Pop(s);
    (ret, seq(n, i requires 0 <= i < n => GetStackArg(s1, i)), s1)
  }

  /** get_arg_n_fastcall: ECX, then EDX, then the stack slots from ESP up. */
  function GetArgNFastcall(s: Machine, index: nat): (v: int)
    requires s.Valid()
    ensures index == 0 ==> v == s.cpu[ECX]
    ensures index == 1 ==> v == s.cpu[EDX]
    ensures index >= 2 ==> 0 <= v < M && Pack(4, v) == Read(s.vm, s.cpu[ESP] + 4 * (index - 2), 4)
  {
    if index < |FastcallRegs| then s.cpu[FastcallRegs[index]] else GetStackArg(s, index - |FastcallRegs|)
  }

  /** func_args_fastcall: pop the return address, then get_arg_n_fastcall(i) for each i < n. */
  function ArgsFastcall(s: Machine, n: nat): (r: (int, seq<int>, Machine))
    requires s.Valid()
    ensures |r.1| == n && r.2.Valid()
  {
    var (ret, s1) := Pop(s);
    (ret, seq(n, i requires 0 <= i < n => GetArgNFastcall(s1, i)), s1)
  }

  /** The register file after func_prepare_fastcall's first loop: ECX and EDX take the first two arguments. */
  function FastcallRegArgs(s: Machine, args: seq<int>): (r: Machine)
    requires s.Valid()
    ensures r.Valid() && r.cpu[ESP] == s.cpu[ESP] && r.cpu[EAX] == s.cpu[EAX] && r.cpu[EIP] == s.cpu[EIP]
    ensures forall i :: 0 <= i < RF.RegCount(|args|, |FastcallRegs|) ==> r.cpu[FastcallRegs[i]] == Wrap(args[i])
    ensures forall i :: RF.RegCount(|args|, |FastcallRegs|) <= i < |FastcallRegs| ==> r.cpu[FastcallRegs[i]] == s.cpu[FastcallRegs[i]]
    ensures r.pc == s.pc && r.vm == s.vm
  {
    RF.AssignArgsValues(s.cpu, FastcallRegs, args, RF.RegCount(|args|, |FastcallRegs|), M);
    s.(cpu := RF.AssignArgs(s.cpu, FastcallRegs, args, RF.RegCount(|args|, |FastcallRegs|), M))
  }

  /** func_prepare_fastcall: the first two arguments go to ECX and EDX; the rest are pushed last to first,
      then the return address, exactly as func_prepare_stdcall pushes its arguments. */
  function PrepareFastcall(s: Machine, retAddr: int, args: seq<int>): (r: Machine)
    requires s.Valid() && S.Fit(Step, retAddr) && S.AllFit(Step, S.StackArgs(args, |FastcallRegs|))
    ensures r.Valid()
  {
    PrepareStdcall(FastcallRegArgs(s, args), retAddr, S.StackArgs(args, |FastcallRegs|))
  }

  // ---------------------------------------------------------------------------
  // Properties

  /** push_uint32_t lowers ESP by 4, modulo 2^32, and stores the 4 little-endian bytes of v at the new ESP;
      no other register and no other byte changes. */
  lemma PushEffect(s: Machine, v: int)
    requires s.Valid() && S.Fit(Step, v)
    ensures Push(s, v).cpu == s.cpu[ESP := Wrap(s.cpu[ESP] as int - 4)]
    ensures Push(s, v).pc == s.pc
    ensures Read(Push(s, v).vm, Push(s, v).cpu[ESP], 4) == Pack(4, v)
    ensures forall a :: !(Push(s, v).cpu[ESP] <= a < Push(s, v).cpu[ESP] + 4) ==> Load(Push(s, v).vm, a) == Load(s.vm, a)
  {
    Pow256Widths();
  }

  /** pop_uint32_t right after push_uint32_t returns the pushed value and every register is as before the push. */
  lemma PopAfterPush(s: Machine, v: int)
    requires s.Valid() && S.Fit(Step, v)
    ensures Pop(Push(s, v)) == (v, Push(s, v).(cpu := s.cpu))
  {
    Pow256Widths();
    S.PopPush(s.Stack(), Step, v);
    assert s.cpu[ESP := Push(s, v).cpu[ESP]][ESP := s.cpu[ESP]] == s.cpu;
  }

  /** The corrected pop_uint16_t right after push_uint16_t returns the pushed value and puts ESP back. */
  lemma Pop16AfterPush16(s: Machine, v: int)
    requires s.Valid() && S.Fit(2, v)
    ensures Pop16(Push16(s, v)) == (v, Push16(s, v).(cpu := s.cpu))
  {
    Pow256Widths();
    var p := Push16(s, v);
    PackInjective(2, Pop16(p).0, v);
    var sp := s.cpu[ESP];
    assert Wrap(Wrap(sp as int - 4) + 4) == sp;
    assert s.cpu[ESP := Wrap(sp as int - 4)][ESP := sp] == s.cpu;
  }

  /** As written, pop_uint16_t cannot return what push_uint16_t stored: it fails on every machine. */
  lemma Pop16AsWrittenFails(s: Machine, v: int)
    requires s.Valid() && S.Fit(2, v)
    ensures Pop16AsWritten(Push16(s, v)).None?
    ensures |Read(Push16(s, v).vm, Push16(s, v).cpu[ESP], Step)| != 2
  {
  }

  /** The prepared stack holds the return address on top and the arguments above it, and ESP went down by 4 per pushed value. */
  lemma PreparedStack(s: Machine, retAddr: int, args: seq<int>)
    requires s.Valid() && S.Fit(Step, retAddr) && S.AllFit(Step, args)
    requires 4 * (|args| + 1) <= s.cpu[ESP]
    ensures S.AllFit(Step, [retAddr] + args)
    ensures PrepareStdcall(s, retAddr, args).Stack() == S.PushArgs(s.Stack(), Step, [retAddr] + args)
    ensures PrepareStdcall(s, retAddr, args).cpu[ESP] == s.cpu[ESP] - 4 * (|args| + 1)
  {
    Pow256Widths();
    var xs := [retAddr] + args;
    assert xs[1..] == args;
    S.PushArgsSp(s.Stack(), Step, xs);
  }

  /** The first pop after func_prepare_stdcall returns the return address and leaves ESP 4·n below where
      it was before the prepare; the other registers are as they were. */
  lemma PreparedPop(s: Machine, retAddr: int, args: seq<int>)
    requires s.Valid() && S.Fit(Step, retAddr) && S.AllFit(Step, args)
    requires 4 * (|args| + 1) <= s.cpu[ESP]
    ensures Pop(PrepareStdcall(s, retAddr, args))
         == (retAddr, PrepareStdcall(s, retAddr, args).(cpu := s.cpu[ESP := s.cpu[ESP] - 4 * |args|]))
  {
    Pow256Widths();
    var t := S.PushArgs(s.Stack(), Step, args);
    S.PushArgsSp(s.Stack(), Step, args);
    var s1 := WithStack(s, t);
    assert s1.Stack() == t;
    assert Push(s1, retAddr) == PrepareStdcall(s, retAddr, args);
    PopAfterPush(s1, retAddr);
  }

  /** After func_prepare_stdcall and the pop of the return address, stack argument i is args[i]. */
  lemma PreparedArgs(s: Machine, retAddr: int, args: seq<int>)
    requires s.Valid() && S.Fit(Step, retAddr) && S.AllFit(Step, args)
    requires 4 * (|args| + 1) <= s.cpu[ESP]
    ensures forall i :: 0 <= i < |args| ==> GetStackArg(Pop(PrepareStdcall(s, retAddr, args)).1, i) == args[i]
  {
    Pow256Widths();
    var xs := [retAddr] + args;
    var p := PrepareStdcall(s, retAddr, args);
    PreparedStack(s, retAddr, args);
    S.PoppedSlots(s.Stack(), Step, xs);
    assert Pop(p).1.Stack() == S.Pop(p.Stack(), Step).1;
    forall i | 0 <= i < |args|
      ensures GetStackArg(Pop(p).1, i) == args[i]
    {
      assert xs[i + 1] == args[i];
    }
  }

  /** stdcall round trip: func_args_stdcall(n) after func_prepare_stdcall(ret, args) returns (ret, args)
      and, since the callee pops the arguments, leaves every register, ESP included, as before the prepare. */
  lemma StdcallRoundTrip(s: Machine, retAddr: int, args: seq<int>)
    requires s.Valid() && S.Fit(Step, retAddr) && S.AllFit(Step, args)
    requires 4 * (|args| + 1) <= s.cpu[ESP]
    ensures ArgsStdcall(PrepareStdcall(s, retAddr, args), |args|)
         == (retAddr, args, PrepareStdcall(s, retAddr, args).(cpu := s.cpu))
  {
    Pow256Widths();
    var xs := [retAddr] + args;
    var p := PrepareStdcall(s, retAddr, args);
    PreparedStack(s, retAddr, args);
    S.PopNPushArgs(s.Stack(), Step, xs);
    var all := S.PopN(p.Stack(), Step, |xs|);
    assert all == (xs, S.Stack(s.cpu[ESP], p.vm));
    var (ret, p1) := Pop(p);
    assert p1.Stack() == S.Pop(p.Stack(), Step).1;
    var rest := S.PopN(p1.Stack(), Step, |args|);
    assert all == ([ret] + rest.0, rest.1);
    assert ret == xs[0] == retAddr;
    assert rest.0 == xs[1..] == args;
    assert rest.1 == S.Stack(s.cpu[ESP], p.vm);
    assert ArgsStdcall(p, |args|) == (ret, rest.0, WithStack(p1, rest.1));
    assert p1.cpu[ESP := s.cpu[ESP]] == s.cpu;
  }

  /** cdecl round trip: func_args_cdecl(n) after func_prepare_stdcall(ret, args) returns (ret, args) too,
      but pops only the return address: ESP ends 4·n below where it was before the prepare. */
  lemma CdeclRoundTrip(s: Machine, retAddr: int, args: seq<int>)
    requires s.Valid() && S.Fit(Step, retAddr) && S.AllFit(Step, args)
    requires 4 * (|args| + 1) <= s.cpu[ESP]
    ensures ArgsCdecl(PrepareStdcall(s, retAddr, args), |args|)
         == (retAddr, args, PrepareStdcall(s, retAddr, args).(cpu := s.cpu[ESP := s.cpu[ESP] - 4 * |args|]))
  {
    var p := PrepareStdcall(s, retAddr, args);
    PreparedPop(s, retAddr, args);
    PreparedArgs(s, retAddr, args);
    var p1 := Pop(p).1;
    var got := seq(|args|, i requires 0 <= i < |args| => GetStackArg(p1, i));
    assert got == args;
  }

  /** func_prepare_fastcall's register loop puts the first two arguments, unchanged, in ECX and EDX. */
  lemma FastcallRegsFit(s: Machine, args: seq<int>)
    requires s.Valid() && S.AllFit(Step, args)
    ensures forall i :: 0 <= i < RF.RegCount(|args|, 2) ==> FastcallRegs[i] != ESP
    ensures forall i :: 0 <= i < RF.RegCount(|args|, 2) ==> FastcallRegArgs(s, args).cpu[FastcallRegs[i]] == args[i]
  {
    forall i | 0 <= i < RF.RegCount(|args|, 2)
      ensures FastcallRegArgs(s, args).cpu[FastcallRegs[i]] == args[i]
    {
      assert 0 <= args[i] < M by {
        Pow256Widths();
      }
      WrapSmall(args[i]);
    }
  }

  /** The first pop after func_prepare_fastcall returns the return address; ESP is then 4 bytes below
      where it was for each argument past the second, and ECX and EDX hold what the prepare gave them. */
  lemma FastcallPreparedPop(s: Machine, retAddr: int, args: seq<int>)
    requires s.Valid() && S.Fit(Step, retAddr) && S.AllFit(Step, args)
    requires 4 * (|S.StackArgs(args, 2)| + 1) <= s.cpu[ESP]
    ensures Pop(PrepareFastcall(s, retAddr, args)).0 == retAddr
    ensures Pop(PrepareFastcall(s, retAddr, args)).1.cpu[ESP] == s.cpu[ESP] - 4 * |S.StackArgs(args, 2)|
    ensures forall r :: r != ESP ==> Pop(PrepareFastcall(s, retAddr, args)).1.cpu[r] == FastcallRegArgs(s, args).cpu[r]
  {
    var rest := S.StackArgs(args, 2);
    var s1 := FastcallRegArgs(s, args);
    assert PrepareFastcall(s, retAddr, args) == PrepareStdcall(s1, retAddr, rest);
    PreparedPop(s1, retAddr, rest);
  }

  /** After func_prepare_fastcall and the pop of the return address, ECX and EDX hold the first two
      arguments and the stack slots the rest. */
  lemma FastcallPoppedArgs(s: Machine, retAddr: int, args: seq<int>, p: Machine)
    requires s.Valid() && S.Fit(Step, retAddr) && S.AllFit(Step, args)
    requires 4 * (|S.StackArgs(args, 2)| + 1) <= s.cpu[ESP]
    requires p == PrepareFastcall(s, retAddr, args)
    ensures forall i :: 0 <= i < RF.RegCount(|args|, 2) ==> Pop(p).1.cpu[FastcallRegs[i]] == args[..RF.RegCount(|args|, 2)][i]
    ensures forall i :: 0 <= i < |S.StackArgs(args, 2)| ==> GetStackArg(Pop(p).1, i) == S.StackArgs(args, 2)[i]
  {
    var rest := S.StackArgs(args, 2);
    var s1 := FastcallRegArgs(s, args);
    assert forall i :: 0 <= i < RF.RegCount(|args|, 2) ==> Pop(p).1.cpu[FastcallRegs[i]] == args[i] by {
      FastcallPreparedPop(s, retAddr, args);
      FastcallRegsFit(s, args);
    }
    assert p == PrepareStdcall(s1, retAddr, rest);
    PreparedArgs(s1, retAddr, rest);
  }

  /** func_args_fastcall on a machine whose first pop yields ret, after which ECX and EDX hold regVals
      and the stack slots stackVals. */
  lemma ArgsFastcallOf(p: Machine, ret: int, regVals: seq<int>, stackVals: seq<int>)
    requires p.Valid() && |regVals| <= 2 && (stackVals != [] ==> |regVals| == 2)
    requires Pop(p).0 == ret
    requires forall i :: 0 <= i < |regVals| ==> Pop(p).1.cpu[FastcallRegs[i]] == regVals[i]
    requires forall i :: 0 <= i < |stackVals| ==> GetStackArg(Pop(p).1, i) == stackVals[i]
    ensures ArgsFastcall(p, |regVals| + |stackVals|) == (ret, regVals + stackVals, Pop(p).1)
  {
    var want := regVals + stackVals;
    forall i | 0 <= i < |want|
      ensures GetArgNFastcall(Pop(p).1, i) == want[i]
    {
      if i >= 2 {
        assert want[i] == stackVals[i - 2];
      }
    }
    assert ArgsFastcall(p, |want|).1 == want;
  }

  /** fastcall round trip: func_args_fastcall(n) after func_prepare_fastcall(ret, args) returns (ret, args);
      ESP ends 4 bytes below where it was for each argument past the second, and the other registers
      keep what the prepare gave them. */
  lemma FastcallRoundTrip(s: Machine, retAddr: int, args: seq<int>)
    requires s.Valid() && S.Fit(Step, retAddr) && S.AllFit(Step, args)
    requires 4 * (|S.StackArgs(args, 2)| + 1) <= s.cpu[ESP]
    ensures ArgsFastcall(PrepareFastcall(s, retAddr, args), |args|).0 == retAddr
    ensures ArgsFastcall(PrepareFastcall(s, retAddr, args), |args|).1 == args
    ensures ArgsFastcall(PrepareFastcall(s, retAddr, args), |args|).2.cpu[ESP] == s.cpu[ESP] - 4 * |S.StackArgs(args, 2)|
    ensures forall r :: r != ESP
              ==> ArgsFastcall(PrepareFastcall(s, retAddr, args), |args|).2.cpu[r] == FastcallRegArgs(s, args).cpu[r]
  {
    var m := RF.RegCount(|args|, 2);
    var p := PrepareFastcall(s, retAddr, args);
    FastcallPreparedPop(s, retAddr, args);
    FastcallPoppedArgs(s, retAddr, args, p);
    S.SplitArgs(args, 2);
    ArgsFastcallOf(p, retAddr, args[..m], S.StackArgs(args, 2));
  }

  /** Right after func_prepare_fastcall, get_arg_n_fastcall(2) is the return address, not the third argument:
      the stack slots are counted from ESP, where the return address sits. */
  lemma FastcallThirdArgBeforePop(s: Machine, retAddr: int, args: seq<int>)
    requires s.Valid() && S.Fit(Step, retAddr) && S.AllFit(Step, S.StackArgs(args, 2))
    requires 4 * (|S.StackArgs(args, 2)| + 1) <= s.cpu[ESP]
    ensures GetArgNFastcall(PrepareFastcall(s, retAddr, args), 2) == retAddr
  {
    Pow256Widths();
    var rest := S.StackArgs(args, 2);
    var s1 := FastcallRegArgs(s, args);
    var p := PrepareFastcall(s, retAddr, args);
    PreparedStack(s1, retAddr, rest);
    S.PushArgsSlots(s1.Stack(), Step, [retAddr] + rest);
    assert p.Stack().sp + 4 * 0 == p.Stack().sp;
  }

  /** func_ret_stdcall / func_ret_cdecl: pc is ret_addr and EIP its 32-bit value; EAX changes exactly when
      ret_value1 is given and EDX exactly when ret_value2 is; ECX, ESP and the memory do not change. */
  lemma RetEffect(s: Machine, retAddr: int, retValue1: Option<int>, retValue2: Option<int>)
    requires s.Valid()
    ensures Ret(s, retAddr, retValue1, retValue2).pc == retAddr
    ensures Ret(s, retAddr, retValue1, retValue2).cpu[EIP] == Wrap(retAddr)
    ensures Ret(s, retAddr, retValue1, retValue2).cpu[EAX] == if retValue1.Some? then Wrap(retValue1.value) else s.cpu[EAX]
    ensures Ret(s, retAddr, retValue1, retValue2).cpu[EDX] == if retValue2.Some? then Wrap(retValue2.value) else s.cpu[EDX]
    ensures Ret(s, retAddr, retValue1, retValue2).cpu[ECX] == s.cpu[ECX]
    ensures Ret(s, retAddr, retValue1, retValue2).cpu[ESP] == s.cpu[ESP]
    ensures Ret(s, retAddr, retValue1, retValue2).vm == s.vm
  {
  }

  // ---------------------------------------------------------------------------
  // The jitter object

  /** jitter_x86_32: the fields the calling-convention layer updates in place. */
  class Jitter32 {
    var cpu: map<Reg, nat>
    var pc: int
    var vm: Mem

    /** A jitter object over the given register file, pc and memory. */
    constructor (s: Machine)
      requires s.Valid()
      ensures Valid() && State() == s
    {
      cpu := s.cpu;
      pc := s.pc;
      vm := s.vm;
    }

    function State(): Machine
      reads this
    {
      Machine(cpu, pc, vm)
    }

    ghost predicate Valid()
      reads this
    {
      State().Valid()
    }

    /** push_uint32_t (jit.py:94-96). */
    method PushUint32(value: int)
      requires Valid() && S.Fit(Step, value)
      modifies this
      ensures Valid() && State() == Push(old(State()), value)
    {
      Pow256Widths();
      assert Wrap(cpu[ESP] as int - Step) == S.Lower(cpu[ESP], Step);
      cpu := cpu[ESP := Wrap(cpu[ESP] as int - Step)];
      vm := Write(vm, cpu[ESP], Pack(4, value));
    }

    /** pop_uint32_t (jit.py:98-101). */
    method PopUint32() returns (value: int)
      requires Valid()
      modifies this
      ensures Valid() && (value, State()) == Pop(old(State()))
    {
      Pow256Widths();
      var unpacked := Unpack(4, Read(vm, cpu[ESP], Step));
      value := unpacked.value;
      cpu := cpu[ESP := Wrap(cpu[ESP] + Step)];
    }

    /** push_uint16_t (jit.py:85-87). */
    method PushUint16(value: int)
      requires Valid() && S.Fit(2, value)
      modifies this
      ensures Valid() && State() == Push16(old(State()), value)
    {
      Pow256Widths();
      assert Wrap(cpu[ESP] as int - Step) == S.Lower(cpu[ESP], Step);
      cpu := cpu[ESP := Wrap(cpu[ESP] as int - Step)];
      vm := Write(vm, cpu[ESP], Pack(2, value));
    }

    /** pop_uint16_t (jit.py:89-92) as written: the unpack of 4 bytes as a 16-bit value raises,
        modelled as None, and nothing changes. */
    method PopUint16() returns (value: Option<nat>)
      requires Valid()
      modifies this
      ensures Valid() && State() == old(State())
      ensures Pop16AsWritten(old(State())) == None && value == None
    {
      value := Unpack(2, Read(vm, cpu[ESP], Step));
      if value.Some? {
        // upck16 never accepts 4 bytes: the ESP update is never reached
        assert false;
      }
    }

    /** func_args_stdcall (jit.py:113-117). */
    method FuncArgsStdcall(nArgs: nat) returns (retAd: int, args: seq<int>)
      requires Valid()
      modifies this
      ensures Valid() && (retAd, args, State()) == ArgsStdcall(old(State()), nArgs)
    {
      Pow256Widths();
      retAd := PopUint32();
      ghost var s1 := State();
      args := [];
      var i := 0;
      while i < nArgs
        invariant 0 <= i <= nArgs && Valid()
        invariant State() == WithStack(s1, State().Stack())
        invariant S.PopN(s1.Stack(), Step, nArgs).0 == args + S.PopN(State().Stack(), Step, nArgs - i).0
        invariant S.PopN(s1.Stack(), Step, nArgs).1 == S.PopN(State().Stack(), Step, nArgs - i).1
      {
        ghost var before := State().Stack();
        var v := PopUint32();
        ghost var rest := S.PopN(State().Stack(), Step, nArgs - i - 1);
        assert S.PopN(before, Step, nArgs - i) == ([v] + rest.0, rest.1);
        assert args + ([v] + rest.0) == (args + [v]) + rest.0;
        args := args + [v];
        i := i + 1;
      }
      assert S.PopN(State().Stack(), Step, 0) == ([], State().Stack());
      assert args + [] == args;
    }

    /** func_ret_stdcall (jit.py:119-124). */
    method FuncRetStdcall(retAddr: int, retValue1: Option<int>, retValue2: Option<int>)
      requires Valid()
      modifies this
      ensures Valid() && State() == Ret(old(State()), retAddr, retValue1, retValue2)
    {
      pc := retAddr;
      cpu := cpu[EIP := Wrap(retAddr)];
      if retValue1.Some? {
        cpu := cpu[EAX := Wrap(retValue1.value)];
      }
      if retValue2.Some? {
        cpu := cpu[EDX := Wrap(retValue2.value)];
      }
    }

    /** The push loop of both prepares: for arg in reversed(xs), push_uint32_t(arg). */
    method PushReversed(xs: seq<int>)
      requires Valid() && S.AllFit(Step, xs)
      modifies this
      ensures Valid() && State() == WithStack(old(State()), S.PushArgs(old(State()).Stack(), Step, xs))
    {
      Pow256Widths();
      ghost var s0 := State();
      var i := |xs|;
      while i > 0
        invariant 0 <= i <= |xs| && Valid()
        invariant S.AllFit(Step, xs[i..])
        invariant State() == WithStack(s0, S.PushArgs(s0.Stack(), Step, xs[i..]))
      {
        i := i - 1;
        assert xs[i..][1..] == xs[i + 1..];
        PushUint32(xs[i]);
      }
      assert xs[0..] == xs;
    }

    /** func_prepare_stdcall (jit.py:126-129). */
    method FuncPrepareStdcall(retAddr: int, args: seq<int>)
      requires Valid() && S.Fit(Step, retAddr) && S.AllFit(Step, args)
      modifies this
      ensures Valid() && State() == PrepareStdcall(old(State()), retAddr, args)
    {
      Pow256Widths();
      PushReversed(args);
      PushUint32(retAddr);
    }

    /** func_args_cdecl (jit.py:134-138). */
    method FuncArgsCdecl(nArgs: nat) returns (retAd: int, args: seq<int>)
      requires Valid()
      modifies this
      ensures Valid() && (retAd, args, State()) == ArgsCdecl(old(State()), nArgs)
    {
      retAd := PopUint32();
      ghost var s1 := State();
      args := [];
      for i := 0 to nArgs
        invariant Valid() && State() == s1 && |args| == i
        invariant forall k :: 0 <= k < i ==> args[k] == GetStackArg(s1, k)
      {
        args := args + [GetStackArg(State(), i)];
      }
      assert args == seq(nArgs, i requires 0 <= i < nArgs => GetStackArg(s1, i));
    }

    /** func_ret_cdecl (jit.py:140-145). */
    method FuncRetCdecl(retAddr: int, retValue1: Option<int>, retValue2: Option<int>)
      requires Valid()
      modifies this
      ensures Valid() && State() == Ret(old(State()), retAddr, retValue1, retValue2)
    {
      pc := retAddr;
      cpu := cpu[EIP := Wrap(retAddr)];
      if retValue1.Some? {
        cpu := cpu[EAX := Wrap(retValue1.value)];
      }
      if retValue2.Some? {
        cpu := cpu[EDX := Wrap(retValue2.value)];
      }
    }

    /** func_args_fastcall (jit.py:157-164). */
    method FuncArgsFastcall(nArgs: nat) returns (retAd: int, args: seq<int>)
      requires Valid()
      modifies this
      ensures Valid() && (retAd, args, State()) == ArgsFastcall(old(State()), nArgs)
    {
      retAd := PopUint32();
      ghost var s1 := State();
      args := [];
      for i := 0 to nArgs
        invariant Valid() && State() == s1 && |args| == i
        invariant forall k :: 0 <= k < i ==> args[k] == GetArgNFastcall(s1, k)
      {
        args := args + [GetArgNFastcall(State(), i)];
      }
      assert args == seq(nArgs, i requires 0 <= i < nArgs => GetArgNFastcall(s1, i));
    }

    /** The setattr loop of func_prepare_fastcall: ECX and EDX take the first two arguments. */
    method SetFastcallRegs(args: seq<int>)
      requires Valid()
      modifies this
      ensures Valid() && State() == FastcallRegArgs(old(State()), args)
    {
      var argsRegs := FastcallRegs;
      cpu := RF.AssignLoop(cpu, argsRegs, args, RF.RegCount(|args|, |argsRegs|), M);
    }

    /** func_prepare_fastcall (jit.py:166-173). */
    method FuncPrepareFastcall(retAddr: int, args: seq<int>)
      requires Valid() && S.Fit(Step, retAddr) && S.AllFit(Step, S.StackArgs(args, |FastcallRegs|))
      modifies this
      ensures Valid() && State() == PrepareFastcall(old(State()), retAddr, args)
    {
      var argsRegs := FastcallRegs;
      SetFastcallRegs(args);
      var remainingArgs := S.StackArgs(args, |argsRegs|);
      PushReversed(remainingArgs);
      PushUint32(retAddr);
    }
  }
}
