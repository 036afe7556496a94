/** jitter_x86_64 (miasm2/arch/x86/jit.py:183-274): the 64-bit stack accessors and the stdcall (also cdecl)
    and System V calling conventions. */
module X86_64 {
  import opened Wrappers
  import opened LittleEndian
  import opened VirtualMemory
  import S = Stack
  import RF = RegisterFile

  /** The registers this layer reads or writes. */
  datatype Reg = RAX | RCX | RDX | RSI | RDI | R8 | R9 | RSP | RIP

  /** ir_x86_64's stack pointer is 64 bits wide: push and pop move RSP by 64 / 8 bytes. */
  const SpSize: nat := 64
  const Step: nat := SpSize / 8

  /** 2^64: a 64-bit register keeps a written value modulo this. */
  const M: nat := 0x1_0000_0000_0000_0000

  function Wrap(v: int): nat
  {
    v % M
  }

  lemma WrapSmall(v: int)
    requires 0 <= v < M
    ensures v % M == v
  {
  }

  /** args_regs_stdcall, shared by stdcall and cdecl. */
  const StdcallRegs: seq<Reg> := [RCX, RDX, R8, R9]

  /** args_regs_systemv. */
  const SystemVRegs: seq<Reg> := [RDI, RSI, RDX, RCX, R8, R9]

  /** The two argument-register lists. */
  predicate ArgRegs(regs: seq<Reg>)
  {
    regs == StdcallRegs || regs == SystemVRegs
  }

  /** No argument-register list repeats a register or holds RSP. */
  lemma ArgRegsDistinct(regs: seq<Reg>)
    requires ArgRegs(regs)
    ensures RF.Distinct(regs) && RSP !in regs
  {
  }

  /** What this layer sees of the jitter: the register file (self.cpu), self.pc and the VM's bytes. */
  datatype Machine = Machine(cpu: map<Reg, nat>, pc: int, vm: Mem)
  {
    /** Every register is present and holds a 64-bit value. */
    ghost predicate Valid()
    {
      forall r: Reg :: r in cpu && cpu[r] < M
    }

    function Stack(): S.Stack
      requires Valid()
    {
      S.Stack(cpu[RSP], vm)
    }
  }

  /** The machine with RSP and the memory taken from st. */
  function WithStack(s: Machine, st: S.Stack): (r: Machine)
    requires s.Valid() && st.sp < M
    ensures r.Valid()
  {
    s.(cpu := s.cpu[RSP := st.sp], vm := st.mem)
  }

  /** push_uint64_t. */
  function Push(s: Machine, v: int): (r: Machine)
    requires s.Valid() && S.Fit(Step, v)
    ensures r.Valid()
  {
    Pow256Widths();
    WithStack(s, S.Push(s.Stack(), Step, v))
  }

  /** pop_uint64_t. */
  function Pop(s: Machine): (r: (int, Machine))
    requires s.Valid()
    ensures r.1.Valid()
  {
    Pow256Widths();
    var (v, st) := S.Pop(s.Stack(), Step);
    (v, WithStack(s, st))
  }

  /** get_stack_arg: the 8 bytes at RSP + 8·index, read as a little-endian number; nothing moves
      (GetStackArgReads states which bytes). */
  function GetStackArg(s: Machine, index: nat): (v: nat)
    requires s.Valid()
    ensures v < M
  {
    Pow256Widths();
    S.Slot(s.Stack(), 8, index)
  }

  /** The setattr loop of func_prepare_stdcall and func_prepare_systemv: argument register i takes args[i]
      for i < min(len(args), len(regs)); RSP, the other registers, pc and the memory keep their values. */
  function RegArgs(s: Machine, regs: seq<Reg>, args: seq<int>): (r: Machine)
    requires s.Valid() && ArgRegs(regs)
    ensures r.Valid() && r.cpu[RSP] == s.cpu[RSP] && r.pc == s.pc && r.vm == s.vm
    ensures forall i :: 0 <= i < RF.RegCount(|args|, |regs|) ==> r.cpu[regs[i]] == Wrap(args[i])
    ensures forall x :: x !in regs[..RF.RegCount(|args|, |regs|)] ==> r.cpu[x] == s.cpu[x]
  {
    var m := RF.RegCount(|args|, |regs|);
    ArgRegsDistinct(regs);
    RF.AssignArgsValues(s.cpu, regs, args, m, M);
    s.(cpu := RF.AssignArgs(s.cpu, regs, args, m, M))
  }

  /** The push loop of func_prepare_*: for arg in reversed(xs), push_uint64_t(arg). */
  function PushAll(s: Machine, xs: seq<int>): (r: Machine)
    requires s.Valid() && S.AllFit(Step, xs)
    ensures r.Valid()
  {
    Pow256Widths();
    WithStack(s, S.PushArgs(s.Stack(), Step, xs))
  }

  /** func_prepare_stdcall, which is also func_prepare_cdecl: the first four arguments go to RCX, RDX, R8
      and R9, the rest are pushed last to first, then the return address is pushed. */
  function PrepareStdcall(s: Machine, retAddr: int, args: seq<int>): (r: Machine)
    requires s.Valid() && S.Fit(Step, retAddr) && S.AllFit(Step, S.StackArgs(args, |StdcallRegs|))
    ensures r.Valid()
  {
    Push(PushAll(RegArgs(s, StdcallRegs, args), S.StackArgs(args, |StdcallRegs|)), retAddr)
  }

  /** func_args_stdcall, which is also func_args_cdecl: pop the return address, then read RCX, RDX, R8, R9
      for the first min(n, 4) arguments and stack slots 0, 1, ... for the other max(0, n - 4). */
  function ArgsStdcall(s: Machine, n: nat): (r: (int, seq<int>, Machine))
    requires s.Valid()
    ensures |r.1| == n && r.2.Valid()
  {
    var (ret, s1) := Pop(s);
    var nRegs := RF.RegCount(n, 4);
    var nStack := if n >= 4 then n - 4 else 0;
    (ret, seq(nRegs, i requires 0 <= i < nRegs => s1.cpu[StdcallRegs[i]])
        + seq(nStack, i requires 0 <= i < nStack => GetStackArg(s1, i)), s1)
  }

  /** func_ret_stdcall, which is also func_ret_cdecl and func_ret_systemv: pc and RIP take ret_addr,
      RAX takes ret_value when it is given; the call returns True. */
  function Ret(s: Machine, retAddr: int, retValue: Option<int>): (r: (bool, Machine))
    requires s.Valid()
    ensures r.1.Valid()
  {
    var cpu1 := s.cpu[RIP := Wrap(retAddr)];
    var cpu2 := if retValue.Some? then cpu1[RAX := Wrap(retValue.value)] else cpu1;
    (true, s.(pc := retAddr, cpu := cpu2))
  }

  /** get_arg_n_systemv: RDI, RSI, RDX, RCX, R8, R9, then the stack slots from RSP up. */
  function GetArgNSystemV(s: Machine, index: nat): (v: int)
    requires s.Valid()
    ensures index == 0 ==> v == s.cpu[RDI]
    ensures index == 1 ==> v == s.cpu[RSI]
    ensures index == 2 ==> v == s.cpu[RDX]
    ensures index == 3 ==> v == s.cpu[RCX]
    ensures index == 4 ==> v == s.cpu[R8]
    ensures index == 5 ==> v == s.cpu[R9]
    ensures index >= 6 ==> v == GetStackArg(s, index - 6)
  {
    if index < |SystemVRegs| then s.cpu[SystemVRegs[index]] else GetStackArg(s, index - |SystemVRegs|)
  }

  /** func_args_systemv: pop the return address, then get_arg_n_systemv(i) for each i < n. */
  function ArgsSystemV(s: Machine, n: nat): (r: (int, seq<int>, Machine))
    requires s.Valid()
    ensures |r.1| == n && r.2.Valid()
  {
    var (ret, s1) := Pop(s);
    (ret, seq(n, i requires 0 <= i < n => GetArgNSystemV(s1, i)), s1)
  }

  /** func_prepare_systemv as written: the return address is pushed first, then the first six arguments go
      to registers and the rest are pushed last to first, so they end up below the return address. */
  function PrepareSystemV(s: Machine, retAddr: int, args: seq<int>): (r: Machine)
    requires s.Valid() && S.Fit(Step, retAddr) && S.AllFit(Step, S.StackArgs(args, |SystemVRegs|))
    ensures r.Valid()
  {
    PushAll(RegArgs(Push(s, retAddr), SystemVRegs, args), S.StackArgs(args, |SystemVRegs|))
  }

  /** func_prepare_systemv as the System V AMD64 ABI lays out a call: the overflow arguments are pushed
      last to first and the return address last, on top, as func_args_systemv expects. */
  function PrepareSystemVAbi(s: Machine, retAddr: int, args: seq<int>): (r: Machine)
    requires s.Valid() && S.Fit(Step, retAddr) && S.AllFit(Step, S.StackArgs(args, |SystemVRegs|))
    ensures r.Valid()
  {
    Push(PushAll(RegArgs(s, SystemVRegs, args), S.StackArgs(args, |SystemVRegs|)), retAddr)
  }

  // ---------------------------------------------------------------------------
  // Properties

  /** push_uint64_t lowers RSP by 8, modulo 2^64, and stores the 8 little-endian bytes of v at the new RSP;
      no other register and no other byte changes. */
  lemma PushEffect(s: Machine, v: int)
    requires s.Valid() && S.Fit(Step, v)
    ensures Push(s, v).cpu == s.cpu[RSP := Wrap(s.cpu[RSP] as int - 8)]
    ensures Push(s, v).pc == s.pc
    ensures Read(Push(s, v).vm, Push(s, v).cpu[RSP], 8) == Pack(8, v)
    ensures forall a :: !(Push(s, v).cpu[RSP] <= a < Push(s, v).cpu[RSP] + 8) ==> Load(Push(s, v).vm, a) == Load(s.vm, a)
  {
    Pow256Widths();
  }

  /** pop_uint64_t right after push_uint64_t returns the pushed value and every register is as before the push. */
  lemma PopAfterPush(s: Machine, v: int)
    requires s.Valid() && S.Fit(Step, v)
    ensures Pop(Push(s, v)) == (v, Push(s, v).(cpu := s.cpu))
  {
    Pow256Widths();
    S.PopPush(s.Stack(), Step, v);
    assert s.cpu[RSP := Push(s, v).cpu[RSP]][RSP := s.cpu[RSP]] == s.cpu;
  }

  /** get_stack_arg(i) is the little-endian number held by the 8 bytes at RSP + 8·i. */
  lemma GetStackArgReads(s: Machine, index: nat)
    requires s.Valid()
    ensures Pack(8, GetStackArg(s, index)) == Read(s.vm, s.cpu[RSP] + 8 * index, 8)
  {
  }

  /** Pushing nothing changes nothing. */
  lemma PushAllEmpty(s: Machine)
    requires s.Valid()
    ensures PushAll(s, []) == s
  {
    assert s.cpu[RSP := s.cpu[RSP]] == s.cpu;
  }

  /** When every argument fits in 64 bits, argument register i reads back as args[i]. */
  lemma RegArgsFit(s: Machine, regs: seq<Reg>, args: seq<int>)
    requires s.Valid() && ArgRegs(regs) && S.AllFit(Step, args)
    ensures forall i :: 0 <= i < RF.RegCount(|args|, |regs|) ==> regs[i] != RSP && RegArgs(s, regs, args).cpu[regs[i]] == args[i]
  {
    ArgRegsDistinct(regs);
    forall i | 0 <= i < RF.RegCount(|args|, |regs|)
      ensures RegArgs(s, regs, args).cpu[regs[i]] == args[i]
    {
      assert 0 <= args[i] < M by {
        Pow256Widths();
      }
      WrapSmall(args[i]);
    }
  }

  /** Pushing v after the values xs is pushing [v] + xs. */
  lemma PushAfterPushAll(s: Machine, v: int, xs: seq<int>)
    requires s.Valid() && S.Fit(Step, v) && S.AllFit(Step, xs)
    ensures S.AllFit(Step, [v] + xs)
    ensures Push(PushAll(s, xs), v) == PushAll(s, [v] + xs)
  {
    Pow256Widths();
    assert ([v] + xs)[1..] == xs;
  }

  /** Pushing xs and then ys is pushing ys + xs: the last values pushed end on top. */
  lemma PushAllTwice(s: Machine, xs: seq<int>, ys: seq<int>)
    requires s.Valid() && S.AllFit(Step, xs) && S.AllFit(Step, ys)
    ensures S.AllFit(Step, ys + xs)
    ensures PushAll(PushAll(s, xs), ys) == PushAll(s, ys + xs)
  {
    Pow256Widths();
    S.PushArgsAppend(s.Stack(), Step, ys, xs);
  }

  /** The argument registers can be written before or after a push: neither touches what the other does. */
  lemma RegArgsPushAll(s: Machine, regs: seq<Reg>, args: seq<int>, xs: seq<int>)
    requires s.Valid() && ArgRegs(regs) && S.AllFit(Step, xs)
    ensures RegArgs(PushAll(s, xs), regs, args) == PushAll(RegArgs(s, regs, args), xs)
  {
    ArgRegsDistinct(regs);
    Pow256Widths();
    var m := RF.RegCount(|args|, |regs|);
    var st := S.PushArgs(s.Stack(), Step, xs);
    assert RegArgs(s, regs, args).Stack() == s.Stack();
    assert RSP !in regs[..m];
    RF.AssignArgsUpdate(s.cpu, regs, args, m, M, RSP, st.sp);
  }

  /** The first pop after pushing xs returns xs[0] and leaves RSP 8 bytes below its starting value for each
      remaining value; the other registers are as they were. */
  lemma PopPushAll(s: Machine, xs: seq<int>)
    requires s.Valid() && S.AllFit(Step, xs) && |xs| >= 1 && 8 * |xs| <= s.cpu[RSP]
    ensures Pop(PushAll(s, xs)) == (xs[0], PushAll(s, xs).(cpu := s.cpu[RSP := s.cpu[RSP] - 8 * (|xs| - 1)]))
  {
    Pow256Widths();
    var rest := xs[1..];
    assert S.AllFit(Step, rest);
    var t := PushAll(s, rest);
    S.PushArgsSp(s.Stack(), Step, rest);
    assert [xs[0]] + rest == xs;
    PushAfterPushAll(s, xs[0], rest);
    PopAfterPush(t, xs[0]);
  }

  /** After pushing xs and popping once, stack argument i is xs[i + 1]. */
  lemma PushAllArgs(s: Machine, xs: seq<int>)
    requires s.Valid() && S.AllFit(Step, xs) && |xs| >= 1 && 8 * |xs| <= s.cpu[RSP]
    ensures forall i :: 0 <= i < |xs| - 1 ==> GetStackArg(Pop(PushAll(s, xs)).1, i) == xs[i + 1]
  {
    Pow256Widths();
    var p := PushAll(s, xs);
    S.PoppedSlots(s.Stack(), Step, xs);
    assert p.Stack() == S.PushArgs(s.Stack(), Step, xs);
    assert Pop(p).1.Stack() == S.Pop(p.Stack(), Step).1;
  }

  /** The machine after pushing [top] + below and popping once: the popped value is top, RSP is 8 bytes
      below its starting value for each value of below, and stack argument i is below[i]. */
  lemma PoppedFrame(t: Machine, top: int, below: seq<int>, p: Machine, sp: int)
    requires t.Valid() && S.AllFit(Step, [top] + below) && 8 * (|below| + 1) <= t.cpu[RSP]
    requires p == PushAll(t, [top] + below) && sp == t.cpu[RSP] - 8 * |below|
    ensures Pop(p).0 == top
    ensures Pop(p).1.cpu == t.cpu[RSP := sp]
    ensures forall r :: r != RSP ==> Pop(p).1.cpu[r] == t.cpu[r]
    ensures forall i :: 0 <= i < |below| ==> GetStackArg(Pop(p).1, i) == below[i]
  {
    var xs := [top] + below;
    PopPushAll(t, xs);
    PushAllArgs(t, xs);
    forall i | 0 <= i < |below|
      ensures GetStackArg(Pop(p).1, i) == below[i]
    {
      assert xs[i + 1] == below[i];
    }
  }

  /** func_args_systemv's list is want when the registers hold its first six entries and the stack
      slots the rest. */
  lemma SystemVArgsFrom(p1: Machine, want: seq<int>)
    requires p1.Valid()
    requires forall i :: 0 <= i < |want| && i < 6 ==> p1.cpu[SystemVRegs[i]] == want[i]
    requires forall i :: 6 <= i < |want| ==> GetStackArg(p1, i - 6) == want[i]
    ensures seq(|want|, i requires 0 <= i < |want| => GetArgNSystemV(p1, i)) == want
  {
  }

  /** The stack func_prepare_stdcall builds: the return address on top of the overflow arguments. */
  lemma StdcallLayout(s: Machine, retAddr: int, args: seq<int>)
    requires s.Valid() && S.Fit(Step, retAddr) && S.AllFit(Step, S.StackArgs(args, 4))
    ensures S.AllFit(Step, [retAddr] + S.StackArgs(args, 4))
    ensures PrepareStdcall(s, retAddr, args) == PushAll(RegArgs(s, StdcallRegs, args), [retAddr] + S.StackArgs(args, 4))
  {
    PushAfterPushAll(RegArgs(s, StdcallRegs, args), retAddr, S.StackArgs(args, 4));
  }

  /** func_args_stdcall on a machine whose first pop yields ret, after which the argument registers hold
      regVals and the stack slots stackVals. */
  lemma ArgsStdcallOf(p: Machine, ret: int, regVals: seq<int>, stackVals: seq<int>, n: nat)
    requires p.Valid() && |regVals| <= 4 && (stackVals != [] ==> |regVals| == 4) && n == |regVals| + |stackVals|
    requires Pop(p).0 == ret
    requires forall i :: 0 <= i < |regVals| ==> Pop(p).1.cpu[StdcallRegs[i]] == regVals[i]
    requires forall i :: 0 <= i < |stackVals| ==> GetStackArg(Pop(p).1, i) == stackVals[i]
    ensures ArgsStdcall(p, n) == (ret, regVals + stackVals, Pop(p).1)
  {
    assert ArgsStdcall(p, n).1 == regVals + stackVals;
  }

  /** A machine that agrees with t on every register but RSP holds the arguments t's argument registers hold. */
  lemma RegsCarried(q: Machine, t: Machine, regs: seq<Reg>, args: seq<int>, m: nat)
    requires q.Valid() && t.Valid() && m <= |regs| && m <= |args|
    requires forall r :: r != RSP ==> q.cpu[r] == t.cpu[r]
    requires forall i :: 0 <= i < m ==> regs[i] != RSP && t.cpu[regs[i]] == args[i]
    ensures forall i :: 0 <= i < m ==> q.cpu[regs[i]] == args[i]
  {
  }

  /** func_args_stdcall(n) on a machine whose first pop yields ret and leaves the first four arguments in
      the argument registers and the rest in the stack slots returns (ret, args). */
  lemma ArgsStdcallWhole(p: Machine, ret: int, args: seq<int>)
    requires p.Valid() && Pop(p).0 == ret
    requires forall i :: 0 <= i < RF.RegCount(|args|, 4) ==> Pop(p).1.cpu[StdcallRegs[i]] == args[i]
    requires forall i :: 0 <= i < |S.StackArgs(args, 4)| ==> GetStackArg(Pop(p).1, i) == S.StackArgs(args, 4)[i]
    ensures ArgsStdcall(p, |args|) == (ret, args, Pop(p).1)
  {
    var m := RF.RegCount(|args|, 4);
    assert args == args[..m] + S.StackArgs(args, 4) by {
      S.SplitArgs(args, 4);
    }
    ArgsStdcallOf(p, ret, args[..m], S.StackArgs(args, 4), |args|);
  }

  /** The machine func_prepare_stdcall leaves, popped once: the return address comes off the top, the
      argument registers hold the first four arguments and the stack slots the rest. */
  lemma StdcallPopped(s: Machine, retAddr: int, args: seq<int>, p: Machine)
    requires s.Valid() && S.Fit(Step, retAddr) && S.AllFit(Step, args)
    requires 8 * (|S.StackArgs(args, 4)| + 1) <= s.cpu[RSP]
    requires p == PrepareStdcall(s, retAddr, args)
    ensures Pop(p).0 == retAddr
    ensures Pop(p).1.cpu[RSP] == s.cpu[RSP] - 8 * |S.StackArgs(args, 4)|
    ensures forall r :: r != RSP ==> Pop(p).1.cpu[r] == RegArgs(s, StdcallRegs, args).cpu[r]
    ensures forall i :: 0 <= i < |S.StackArgs(args, 4)| ==> GetStackArg(Pop(p).1, i) == S.StackArgs(args, 4)[i]
  {
    var rest := S.StackArgs(args, 4);
    var t := RegArgs(s, StdcallRegs, args);
    assert S.AllFit(Step, rest);
    assert t.cpu[RSP] == s.cpu[RSP];
    assert p == PushAll(t, [retAddr] + rest) && S.AllFit(Step, [retAddr] + rest) by {
      StdcallLayout(s, retAddr, args);
    }
    var sp := s.cpu[RSP] - 8 * |rest|;
    assert Pop(p).0 == retAddr && Pop(p).1.cpu[RSP] == sp && forall r :: r != RSP ==> Pop(p).1.cpu[r] == t.cpu[r] by {
      PoppedFrame(t, retAddr, rest, p, sp);
    }
    assert forall i :: 0 <= i < |rest| ==> GetStackArg(Pop(p).1, i) == rest[i] by {
      PoppedFrame(t, retAddr, rest, p, sp);
    }
  }

  /** stdcall (and cdecl) round trip: func_args_stdcall(n) after func_prepare_stdcall(ret, args) returns
      (ret, args); RSP ends 8 bytes below where it was for each argument past the fourth, since only the
      return address is popped, and the other registers keep what the prepare gave them. */
  lemma StdcallRoundTrip(s: Machine, retAddr: int, args: seq<int>)
    requires s.Valid() && S.Fit(Step, retAddr) && S.AllFit(Step, args)
    requires 8 * (|S.StackArgs(args, 4)| + 1) <= s.cpu[RSP]
    ensures var (ret, got, q) := ArgsStdcall(PrepareStdcall(s, retAddr, args), |args|);
            && ret == retAddr && got == args
            && q.cpu[RSP] == s.cpu[RSP] - 8 * |S.StackArgs(args, 4)|
            && q.pc == s.pc && q.vm == PrepareStdcall(s, retAddr, args).vm
            && forall r :: r != RSP ==> q.cpu[r] == RegArgs(s, StdcallRegs, args).cpu[r]
  {
    var p := PrepareStdcall(s, retAddr, args);
    StdcallPopped(s, retAddr, args, p);
    assert forall i :: 0 <= i < RF.RegCount(|args|, 4) ==> Pop(p).1.cpu[StdcallRegs[i]] == args[i] by {
      RegArgsFit(s, StdcallRegs, args);
      RegsCarried(Pop(p).1, RegArgs(s, StdcallRegs, args), StdcallRegs, args, RF.RegCount(|args|, 4));
    }
    ArgsStdcallWhole(p, retAddr, args);
  }

  /** The stack func_prepare_systemv builds as written: the overflow arguments on top of the return address. */
  lemma SystemVLayout(s: Machine, retAddr: int, args: seq<int>)
    requires s.Valid() && S.Fit(Step, retAddr) && S.AllFit(Step, S.StackArgs(args, 6))
    ensures S.AllFit(Step, S.StackArgs(args, 6) + [retAddr])
    ensures PrepareSystemV(s, retAddr, args) == PushAll(RegArgs(s, SystemVRegs, args), S.StackArgs(args, 6) + [retAddr])
  {
    Pow256Widths();
    var rest := S.StackArgs(args, 6);
    PushAllEmpty(s);
    PushAfterPushAll(s, retAddr, []);
    assert [retAddr] + [] == [retAddr];
    RegArgsPushAll(s, SystemVRegs, args, [retAddr]);
    PushAllTwice(RegArgs(s, SystemVRegs, args), [retAddr], rest);
  }

  /** The stack the corrected func_prepare_systemv builds: the return address on top of the overflow arguments. */
  lemma SystemVAbiLayout(s: Machine, retAddr: int, args: seq<int>)
    requires s.Valid() && S.Fit(Step, retAddr) && S.AllFit(Step, S.StackArgs(args, 6))
    ensures S.AllFit(Step, [retAddr] + S.StackArgs(args, 6))
    ensures PrepareSystemVAbi(s, retAddr, args) == PushAll(RegArgs(s, SystemVRegs, args), [retAddr] + S.StackArgs(args, 6))
  {
    PushAfterPushAll(RegArgs(s, SystemVRegs, args), retAddr, S.StackArgs(args, 6));
  }

  /** func_args_systemv on a machine whose first pop yields ret, after which the argument registers hold
      regVals and the stack slots stackVals. */
  lemma ArgsSystemVOf(p: Machine, ret: int, regVals: seq<int>, stackVals: seq<int>, n: nat)
    requires p.Valid() && |regVals| <= 6 && (stackVals != [] ==> |regVals| == 6) && n == |regVals| + |stackVals|
    requires Pop(p).0 == ret
    requires forall i :: 0 <= i < |regVals| ==> Pop(p).1.cpu[SystemVRegs[i]] == regVals[i]
    requires forall i :: 0 <= i < |stackVals| ==> GetStackArg(Pop(p).1, i) == stackVals[i]
    ensures ArgsSystemV(p, n) == (ret, regVals + stackVals, Pop(p).1)
  {
    var want := regVals + stackVals;
    forall i | 6 <= i < |want|
      ensures GetStackArg(Pop(p).1, i - 6) == want[i]
    {
      assert want[i] == stackVals[i - 6];
    }
    SystemVArgsFrom(Pop(p).1, want);
  }

  /** The machine the as-written func_prepare_systemv leaves, popped once, when its pushed values are
      top followed by below: top comes off, the argument registers keep what the prepare gave them, and
      the stack slots hold below. */
  lemma SystemVPopped(s: Machine, retAddr: int, args: seq<int>, p: Machine, top: int, below: seq<int>)
    requires s.Valid() && S.Fit(Step, retAddr) && S.AllFit(Step, args)
    requires S.StackArgs(args, 6) + [retAddr] == [top] + below && 8 * (|below| + 1) <= s.cpu[RSP]
    requires p == PrepareSystemV(s, retAddr, args)
    ensures Pop(p).0 == top
    ensures Pop(p).1.cpu[RSP] == s.cpu[RSP] - 8 * |below|
    ensures forall r :: r != RSP ==> Pop(p).1.cpu[r] == RegArgs(s, SystemVRegs, args).cpu[r]
    ensures forall i :: 0 <= i < |below| ==> GetStackArg(Pop(p).1, i) == below[i]
  {
    var t := RegArgs(s, SystemVRegs, args);
    assert S.AllFit(Step, S.StackArgs(args, 6));
    assert t.cpu[RSP] == s.cpu[RSP];
    assert p == PushAll(t, [top] + below) && S.AllFit(Step, [top] + below) by {
      SystemVLayout(s, retAddr, args);
    }
    var sp := s.cpu[RSP] - 8 * |below|;
    assert Pop(p).0 == top && Pop(p).1.cpu[RSP] == sp && forall r :: r != RSP ==> Pop(p).1.cpu[r] == t.cpu[r] by {
      PoppedFrame(t, top, below, p, sp);
    }
    assert forall i :: 0 <= i < |below| ==> GetStackArg(Pop(p).1, i) == below[i] by {
      PoppedFrame(t, top, below, p, sp);
    }
  }

  /** With at most six arguments, func_args_systemv(n) after func_prepare_systemv(ret, args) returns
      (ret, args), and RSP is back where it was before the prepare. */
  lemma SystemVRoundTrip(s: Machine, retAddr: int, args: seq<int>)
    requires s.Valid() && S.Fit(Step, retAddr) && S.AllFit(Step, args)
    requires |args| <= 6 && 8 <= s.cpu[RSP]
    ensures var (ret, got, q) := ArgsSystemV(PrepareSystemV(s, retAddr, args), |args|);
            && ret == retAddr && got == args
            && q.pc == s.pc && q.vm == PrepareSystemV(s, retAddr, args).vm
            && forall r :: q.cpu[r] == RegArgs(s, SystemVRegs, args).cpu[r]
  {
    var t := RegArgs(s, SystemVRegs, args);
    var p := PrepareSystemV(s, retAddr, args);
    assert S.StackArgs(args, 6) + [retAddr] == [retAddr] + [];
    SystemVPopped(s, retAddr, args, p, retAddr, []);
    assert forall i :: 0 <= i < |args| ==> Pop(p).1.cpu[SystemVRegs[i]] == args[i] by {
      RegArgsFit(s, SystemVRegs, args);
      RegsCarried(Pop(p).1, t, SystemVRegs, args, |args|);
    }
    assert args + [] == args;
    ArgsSystemVOf(p, retAddr, args, [], |args|);
  }

  /** With more than six arguments, the as-written push order leaves args[6] on top, and below it the later
      arguments followed by the return address. */
  lemma MisorderedList(args: seq<int>, retAddr: int)
    requires |args| > 6
    ensures S.StackArgs(args, 6) + [retAddr] == [args[6]] + (args[7..] + [retAddr])
    ensures args[..6] + args[7..] + [retAddr] == args[..6] + (args[7..] + [retAddr])
  {
    assert S.StackArgs(args, 6) == [args[6]] + args[7..];
  }

  /** With more than six arguments, func_args_systemv(n) after func_prepare_systemv(ret, args) pops args[6]
      as the return address, and the arguments it returns are args without args[6], followed by ret. */
  lemma SystemVMisorder(s: Machine, retAddr: int, args: seq<int>)
    requires s.Valid() && S.Fit(Step, retAddr) && S.AllFit(Step, args)
    requires |args| > 6 && 8 * (|args| - 5) <= s.cpu[RSP]
    ensures var (ret, got, _) := ArgsSystemV(PrepareSystemV(s, retAddr, args), |args|);
            ret == args[6] && got == args[..6] + args[7..] + [retAddr]
  {
    var below := args[7..] + [retAddr];
    var p := PrepareSystemV(s, retAddr, args);
    MisorderedList(args, retAddr);
    SystemVPopped(s, retAddr, args, p, args[6], below);
    assert forall i :: 0 <= i < 6 ==> Pop(p).1.cpu[SystemVRegs[i]] == args[..6][i] by {
      RegArgsFit(s, SystemVRegs, args);
      RegsCarried(Pop(p).1, RegArgs(s, SystemVRegs, args), SystemVRegs, args, 6);
    }
    ArgsSystemVOf(p, args[6], args[..6], below, |args|);
  }

  /** func_args_systemv(n) on a machine whose first pop yields ret and leaves the first six arguments in
      the argument registers and the rest in the stack slots returns (ret, args). */
  lemma ArgsSystemVWhole(p: Machine, ret: int, args: seq<int>)
    requires p.Valid() && Pop(p).0 == ret
    requires forall i :: 0 <= i < RF.RegCount(|args|, 6) ==> Pop(p).1.cpu[SystemVRegs[i]] == args[i]
    requires forall i :: 0 <= i < |S.StackArgs(args, 6)| ==> GetStackArg(Pop(p).1, i) == S.StackArgs(args, 6)[i]
    ensures ArgsSystemV(p, |args|) == (ret, args, Pop(p).1)
  {
    var m := RF.RegCount(|args|, 6);
    assert args == args[..m] + S.StackArgs(args, 6) by {
      S.SplitArgs(args, 6);
    }
    ArgsSystemVOf(p, ret, args[..m], S.StackArgs(args, 6), |args|);
  }

  /** The machine the corrected func_prepare_systemv leaves, popped once: the return address comes off
      the top, the argument registers keep what the prepare gave them, and the stack slots hold the
      arguments past the sixth. */
  lemma SystemVAbiPopped(s: Machine, retAddr: int, args: seq<int>, p: Machine)
    requires s.Valid() && S.Fit(Step, retAddr) && S.AllFit(Step, args)
    requires 8 * (|S.StackArgs(args, 6)| + 1) <= s.cpu[RSP]
    requires p == PrepareSystemVAbi(s, retAddr, args)
    ensures Pop(p).0 == retAddr
    ensures Pop(p).1.cpu[RSP] == s.cpu[RSP] - 8 * |S.StackArgs(args, 6)|
    ensures forall r :: r != RSP ==> Pop(p).1.cpu[r] == RegArgs(s, SystemVRegs, args).cpu[r]
    ensures forall i :: 0 <= i < |S.StackArgs(args, 6)| ==> GetStackArg(Pop(p).1, i) == S.StackArgs(args, 6)[i]
  {
    var rest := S.StackArgs(args, 6);
    var t := RegArgs(s, SystemVRegs, args);
    assert S.AllFit(Step, rest);
    assert t.cpu[RSP] == s.cpu[RSP];
    assert p == PushAll(t, [retAddr] + rest) && S.AllFit(Step, [retAddr] + rest) by {
      SystemVAbiLayout(s, retAddr, args);
    }
    var sp := s.cpu[RSP] - 8 * |rest|;
    assert Pop(p).0 == retAddr && Pop(p).1.cpu[RSP] == sp && forall r :: r != RSP ==> Pop(p).1.cpu[r] == t.cpu[r] by {
      PoppedFrame(t, retAddr, rest, p, sp);
    }
    assert forall i :: 0 <= i < |rest| ==> GetStackArg(Pop(p).1, i) == rest[i] by {
      PoppedFrame(t, retAddr, rest, p, sp);
    }
  }

  /** The corrected func_prepare_systemv round-trips for every argument count: func_args_systemv(n) returns
      (ret, args), and RSP ends 8 bytes below where it was for each argument past the sixth. */
  lemma SystemVAbiRoundTrip(s: Machine, retAddr: int, args: seq<int>)
    requires s.Valid() && S.Fit(Step, retAddr) && S.AllFit(Step, args)
    requires 8 * (|S.StackArgs(args, 6)| + 1) <= s.cpu[RSP]
    ensures var (ret, got, q) := ArgsSystemV(PrepareSystemVAbi(s, retAddr, args), |args|);
            && ret == retAddr && got == args
            && q.cpu[RSP] == s.cpu[RSP] - 8 * |S.StackArgs(args, 6)|
            && q.pc == s.pc && q.vm == PrepareSystemVAbi(s, retAddr, args).vm
            && forall r :: r != RSP ==> q.cpu[r] == RegArgs(s, SystemVRegs, args).cpu[r]
  {
    var p := PrepareSystemVAbi(s, retAddr, args);
    SystemVAbiPopped(s, retAddr, args, p);
    assert forall i :: 0 <= i < RF.RegCount(|args|, 6) ==> Pop(p).1.cpu[SystemVRegs[i]] == args[i] by {
      RegArgsFit(s, SystemVRegs, args);
      RegsCarried(Pop(p).1, RegArgs(s, SystemVRegs, args), SystemVRegs, args, RF.RegCount(|args|, 6));
    }
    ArgsSystemVWhole(p, retAddr, args);
  }

  /** func_ret_stdcall: it returns True; pc is ret_addr and RIP its 64-bit value; RAX changes exactly when
      ret_value is given; RSP, the argument registers and the memory do not change. */
  lemma RetEffect(s: Machine, retAddr: int, retValue: Option<int>)
    requires s.Valid()
    ensures Ret(s, retAddr, retValue).0
    ensures Ret(s, retAddr, retValue).1.pc == retAddr
    ensures Ret(s, retAddr, retValue).1.cpu[RIP] == Wrap(retAddr)
    ensures Ret(s, retAddr, retValue).1.cpu[RAX] == if retValue.Some? then Wrap(retValue.value) else s.cpu[RAX]
    ensures forall r :: r != RIP && r != RAX ==> Ret(s, retAddr, retValue).1.cpu[r] == s.cpu[r]
    ensures Ret(s, retAddr, retValue).1.vm == s.vm
  {
  }

  // ---------------------------------------------------------------------------
  // The jitter object

  /** jitter_x86_64: the fields the calling-convention layer updates in place. */
  class Jitter64 {
    var cpu: map<Reg, nat>
    var pc: int
    var vm: Mem

    /** A jitter object over the given register file, pc and memory. */
    constructor (s: Machine)
      requires s.Valid()
      ensures Valid() && State() == s
    {
      cpu := s.cpu;
      pc := s.pc;
      vm := s.vm;
    }

    function State(): Machine
      reads this
    {
      Machine(cpu, pc, vm)
    }

    ghost predicate Valid()
      reads this
    {
      State().Valid()
    }

    /** push_uint64_t (jit.py:201-203). */
    method PushUint64(value: int)
      requires Valid() && S.Fit(Step, value)
      modifies this
      ensures Valid() && State() == Push(old(State()), value)
    {
      Pow256Widths();
      assert Wrap(cpu[RSP] as int - Step) == S.Lower(cpu[RSP], Step);
      cpu := cpu[RSP := Wrap(cpu[RSP] as int - Step)];
      vm := Write(vm, cpu[RSP], Pack(8, value));
    }

    /** pop_uint64_t (jit.py:205-208). */
    method PopUint64() returns (value: int)
      requires Valid()
      modifies this
      ensures Valid() && (value, State()) == Pop(old(State()))
    {
      Pow256Widths();
      var unpacked := Unpack(8, Read(vm, cpu[RSP], Step));
      value := unpacked.value;
      cpu := cpu[RSP := Wrap(cpu[RSP] + Step)];
    }

    /** The push loop shared by both prepares: for arg in reversed(xs), push_uint64_t(arg). */
    method PushReversed(xs: seq<int>)
      requires Valid() && S.AllFit(Step, xs)
      modifies this
      ensures Valid() && State() == PushAll(old(State()), xs)
    {
      Pow256Widths();
      ghost var s0 := State();
      var i := |xs|;
      while i > 0
        invariant 0 <= i <= |xs| && Valid()
        invariant S.AllFit(Step, xs[i..])
        invariant State() == WithStack(s0, S.PushArgs(s0.Stack(), Step, xs[i..]))
      {
        i := i - 1;
        assert xs[i..][1..] == xs[i + 1..];
        PushUint64(xs[i]);
      }
      assert xs[0..] == xs;
    }

    /** The setattr loop shared by both prepares: argument register i takes args[i]. */
    method SetArgRegs(regs: seq<Reg>, args: seq<int>)
      requires Valid() && ArgRegs(regs)
      modifies this
      ensures State() == RegArgs(old(State()), regs, args) && Valid()
    {
      cpu := RF.AssignLoop(cpu, regs, args, RF.RegCount(|args|, |regs|), M);
    }

    /** func_args_stdcall, which is also func_args_cdecl (jit.py:220-229, 247). */
    method FuncArgsStdcall(nArgs: nat) returns (retAd: int, args: seq<int>)
      requires Valid()
      modifies this
      ensures Valid() && (retAd, args, State()) == ArgsStdcall(old(State()), nArgs)
    {
      var argsRegs := StdcallRegs;
      retAd := PopUint64();
      ghost var s1 := State();
      var nRegs := RF.RegCount(nArgs, 4);
      var nStack := if nArgs >= 4 then nArgs - 4 else 0;
      args := [];
      for i := 0 to nRegs
        invariant State() == s1 && |args| == i
        invariant forall k :: 0 <= k < i ==> args[k] == s1.cpu[StdcallRegs[k]]
      {
        args := args + [cpu[argsRegs[i]]];
      }
      for i := 0 to nStack
        invariant State() == s1 && |args| == nRegs + i
        invariant forall k :: 0 <= k < nRegs ==> args[k] == s1.cpu[StdcallRegs[k]]
        invariant forall k :: 0 <= k < i ==> args[nRegs + k] == GetStackArg(s1, k)
      {
        args := args + [GetStackArg(State(), i)];
      }
      assert args == seq(nRegs, i requires 0 <= i < nRegs => s1.cpu[StdcallRegs[i]])
                   + seq(nStack, i requires 0 <= i < nStack => GetStackArg(s1, i));
    }

    /** func_prepare_stdcall, which is also func_prepare_cdecl (jit.py:231-238, 249). */
    method FuncPrepareStdcall(retAddr: int, args: seq<int>)
      requires Valid() && S.Fit(Step, retAddr) && S.AllFit(Step, S.StackArgs(args, |StdcallRegs|))
      modifies this
      ensures Valid() && State() == PrepareStdcall(old(State()), retAddr, args)
    {
      var argsRegs := StdcallRegs;
      SetArgRegs(argsRegs, args);
      var remainingArgs := S.StackArgs(args, |argsRegs|);
      PushReversed(remainingArgs);
      PushUint64(retAddr);
    }

    /** func_ret_stdcall, which is also func_ret_cdecl and func_ret_systemv (jit.py:240-244, 248, 265). */
    method FuncRetStdcall(retAddr: int, retValue: Option<int>) returns (ok: bool)
      requires Valid()
      modifies this
      ensures Valid() && (ok, State()) == Ret(old(State()), retAddr, retValue)
    {
      pc := retAddr;
      cpu := cpu[RIP := Wrap(retAddr)];
      if retValue.Some? {
        cpu := cpu[RAX := Wrap(retValue.value)];
      }
      ok := true;
    }

    /** func_args_systemv (jit.py:259-263). */
    method FuncArgsSystemV(nArgs: nat) returns (retAd: int, args: seq<int>)
      requires Valid()
      modifies this
      ensures Valid() && (retAd, args, State()) == ArgsSystemV(old(State()), nArgs)
    {
      retAd := PopUint64();
      ghost var s1 := State();
      args := [];
      for i := 0 to nArgs
        invariant Valid() && State() == s1 && |args| == i
        invariant forall k :: 0 <= k < i ==> args[k] == GetArgNSystemV(s1, k)
      {
        args := args + [GetArgNSystemV(State(), i)];
      }
      assert args == seq(nArgs, i requires 0 <= i < nArgs => GetArgNSystemV(s1, i));
    }

    /** func_prepare_systemv (jit.py:267-274), as written: the return address is pushed before the arguments. */
    method FuncPrepareSystemV(retAddr: int, args: seq<int>)
      requires Valid() && S.Fit(Step, retAddr) && S.AllFit(Step, S.StackArgs(args, |SystemVRegs|))
      modifies this
      ensures Valid() && State() == PrepareSystemV(old(State()), retAddr, args)
    {
      var argsRegs := SystemVRegs;
      PushUint64(retAddr);
      SetArgRegs(argsRegs, args);
      var remainingArgs := S.StackArgs(args, |argsRegs|);
      PushReversed(remainingArgs);
    }
  }
}
