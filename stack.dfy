/** The stack accessors shared by the three jitters (miasm2/arch/x86/jit.py:52-62, 94-104, 201-211),
    for a slot width w of 2, 4 or 8 bytes: ir_arch.sp.size / 8 for the 16-, 32- and 64-bit IR. */
module Stack {
  import opened LittleEndian
  import opened VirtualMemory

  predicate Width(w: nat)
  {
    w == 2 || w == 4 || w == 8
  }

  /** What the accessors see: the stack-pointer register and the VM bytes. */
  datatype Stack = Stack(sp: nat, mem: Mem)

  /** v fits in w bytes, as pck<8w> demands. */
  predicate Fit(w: nat, v: int)
  {
    0 <= v < Pow256(w)
  }

  predicate AllFit(w: nat, vs: seq<int>)
  {
    forall k :: 0 <= k < |vs| ==> Fit(w, vs[k])
  }

  /** SP - w in a w-byte register: two's-complement wraparound below 0. */
  function Lower(sp: nat, w: nat): (r: nat)
    requires Width(w) && sp < Pow256(w)
    ensures r < Pow256(w)
  {
    if w <= sp then sp - w else sp - w + Pow256(w)
  }

  /** SP + w in a w-byte register: wraparound above 2^(8w) - 1. */
  function Raise(sp: nat, w: nat): (r: nat)
    requires Width(w) && sp < Pow256(w)
    ensures r < Pow256(w)
  {
    Pow256Widths();
    if sp + w < Pow256(w) then sp + w else sp + w - Pow256(w)
  }

  /** args[k:] in Python: the arguments left for the stack once k of them went to registers. */
  function StackArgs(args: seq<int>, k: nat): (r: seq<int>)
    ensures |r| == if k <= |args| then |args| - k else 0
    ensures forall i :: 0 <= i < |r| ==> r[i] == args[k + i]
  {
    if k <= |args| then args[k..] else []
  }

  /** The arguments are the first min(k, |args|) of them followed by the k-th onwards. */
  lemma SplitArgs(args: seq<int>, k: nat)
    ensures args == args[..if k <= |args| then k else |args|] + StackArgs(args, k)
  {
  }

  /** push_uint<8w>_t: SP goes down by w, then v is stored at the new SP. */
  function Push(st: Stack, w: nat, v: int): (r: Stack)
    requires Width(w) && Fit(w, v) && st.sp < Pow256(w)
    ensures r.sp == Lower(st.sp, w)
    ensures Read(r.mem, r.sp, w) == Pack(w, v)
    ensures forall a :: !(r.sp <= a < r.sp + w) ==> Load(r.mem, a) == Load(st.mem, a)
  {
    var sp := Lower(st.sp, w);
    ReadWrite(st.mem, sp, Pack(w, v));
    Stack(sp, Write(st.mem, sp, Pack(w, v)))
  }

  /** pop_uint<8w>_t: the w-byte value at SP; then SP goes up by w. Memory is not touched. */
  function Pop(st: Stack, w: nat): (r: (nat, Stack))
    requires Width(w) && st.sp < Pow256(w)
    ensures Fit(w, r.0) && Pack(w, r.0) == Read(st.mem, st.sp, w)
    ensures r.1 == Stack(Raise(st.sp, w), st.mem)
  {
    var b := Read(st.mem, st.sp, w);
    PackDecode(b);
    (Decode(b), Stack(Raise(st.sp, w), st.mem))
  }

  /** get_stack_arg(k): the w-byte slot k slots above SP, read without moving SP. */
  function Slot(st: Stack, w: nat, k: nat): (v: nat)
    ensures Fit(w, v) && Pack(w, v) == Read(st.mem, st.sp + w * k, w)
  {
    var b := Read(st.mem, st.sp + w * k, w);
    PackDecode(b);
    Decode(b)
  }

  /** The push loop of func_prepare_*: for arg in reversed(args), push it; so args[0] ends on top. */
  function PushArgs(st: Stack, w: nat, args: seq<int>): (r: Stack)
    requires Width(w) && AllFit(w, args) && st.sp < Pow256(w)
    ensures r.sp < Pow256(w)
    decreases |args|
  {
    if args == [] then st else Push(PushArgs(st, w, args[1..]), w, args[0])
  }

  /** n pops in a row, as the loop of the 32-bit func_args_stdcall does them. */
  function PopN(st: Stack, w: nat, n: nat): (r: (seq<int>, Stack))
    requires Width(w) && st.sp < Pow256(w)
    ensures |r.0| == n && r.1.mem == st.mem && r.1.sp < Pow256(w)
    ensures forall k :: 0 <= k < n ==> Fit(w, r.0[k])
    decreases n
  {
    if n == 0 then ([], st)
    else
      var (v, st1) := Pop(st, w);
      var (vs, st2) := PopN(st1, w, n - 1);
      ([v] + vs, st2)
  }

  /** A pop right after a push returns the pushed value and puts SP back; only the bytes below SP differ. */
  lemma PopPush(st: Stack, w: nat, v: int)
    requires Width(w) && Fit(w, v) && st.sp < Pow256(w)
    ensures Pop(Push(st, w, v), w) == (v, Stack(st.sp, Push(st, w, v).mem))
  {
    var p := Push(st, w, v);
    PackInjective(w, Pop(p, w).0, v);
  }

  /** Preparing with xs + ys pushes the ys first and then the xs, so xs ends on top. */
  lemma {:induction false} PushArgsAppend(st: Stack, w: nat, xs: seq<int>, ys: seq<int>)
    requires Width(w) && AllFit(w, xs) && AllFit(w, ys) && st.sp < Pow256(w)
    ensures AllFit(w, xs + ys)
    ensures PushArgs(st, w, xs + ys) == PushArgs(PushArgs(st, w, ys), w, xs)
    decreases |xs|
  {
    if xs != [] {
      assert (xs + ys)[1..] == xs[1..] + ys;
      PushArgsAppend(st, w, xs[1..], ys);
    } else {
      assert xs + ys == ys;
    }
  }

  /** Right after a push, slot 0 holds the pushed value. */
  lemma PushSlotTop(t: Stack, w: nat, v: int)
    requires Width(w) && Fit(w, v) && t.sp < Pow256(w)
    ensures Slot(Push(t, w, v), w, 0) == v
  {
    var r := Push(t, w, v);
    assert r.sp + w * 0 == r.sp;
    PackInjective(w, Slot(r, w, 0), v);
  }

  /** Right after a push that does not wrap, slot k + 1 holds what slot k held before. */
  lemma PushSlotBelow(t: Stack, w: nat, v: int, k: nat)
    requires Width(w) && Fit(w, v) && w <= t.sp < Pow256(w)
    ensures Slot(Push(t, w, v), w, k + 1) == Slot(t, w, k)
  {
    var r := Push(t, w, v);
    var a := t.sp + w * k;
    assert r.sp + w * (k + 1) == a by {
      assert r.sp == t.sp - w;
    }
    assert a >= r.sp + w by {
      assert w * k >= 0;
    }
    ReadSame(r.mem, t.mem, a, w);
  }

  /** Two pushes that do not wrap move slot k to slot k + 2. */
  lemma PushTwiceSlotBelow(t: Stack, w: nat, u: int, v: int, k: nat)
    requires Width(w) && Fit(w, u) && Fit(w, v) && 2 * w <= t.sp < Pow256(w)
    ensures Slot(Push(Push(t, w, u), w, v), w, k + 2) == Slot(t, w, k)
  {
    var t1 := Push(t, w, u);
    PushSlotBelow(t, w, u, k);
    assert t1.sp == t.sp - w;
    PushSlotBelow(t1, w, v, k + 1);
  }

  /** Without wraparound, func_prepare_*'s pushes lower SP by w for each argument. */
  lemma {:induction false} PushArgsSp(st: Stack, w: nat, args: seq<int>)
    requires Width(w) && AllFit(w, args) && st.sp < Pow256(w) && w * |args| <= st.sp
    ensures PushArgs(st, w, args).sp == st.sp - w * |args|
    decreases |args|
  {
    if args != [] {
      var n := |args|;
      MulPred(w, n);
      PushArgsSp(st, w, args[1..]);
      var t := PushArgs(st, w, args[1..]);
      assert t.sp == st.sp - w * n + w;
    }
  }

  /** Without wraparound, slot k of the stack func_prepare_* leaves holds args[k]. */
  lemma {:induction false} PushArgsSlots(st: Stack, w: nat, args: seq<int>)
    requires Width(w) && AllFit(w, args) && st.sp < Pow256(w) && w * |args| <= st.sp
    ensures forall k :: 0 <= k < |args| ==> Slot(PushArgs(st, w, args), w, k) == args[k]
    decreases |args|
  {
    if args != [] {
      var t := PushArgs(st, w, args[1..]);
      PushArgsSlots(st, w, args[1..]);
      PushArgsSp(st, w, args[1..]);
      assert w <= t.sp < Pow256(w);
      forall k | 0 <= k < |args|
        ensures Slot(PushArgs(st, w, args), w, k) == args[k]
      {
        if k == 0 {
          PushSlotTop(t, w, args[0]);
        } else {
          PushSlotBelow(t, w, args[0], k - 1);
          assert args[1..][k - 1] == args[k];
        }
      }
    }
  }

  /** Without wraparound, func_prepare_*'s pushes change only the bytes between the new and the old SP. */
  lemma {:induction false} PushArgsFrame(st: Stack, w: nat, args: seq<int>, a: int)
    requires Width(w) && AllFit(w, args) && st.sp < Pow256(w) && w * |args| <= st.sp
    requires !(st.sp - w * |args| <= a < st.sp)
    ensures Load(PushArgs(st, w, args).mem, a) == Load(st.mem, a)
    decreases |args|
  {
    if args != [] {
      var t := PushArgs(st, w, args[1..]);
      PushArgsSp(st, w, args[1..]);
      PushArgsFrame(st, w, args[1..], a);
    }
  }

  /** Without wraparound, n pops raise SP by w·n and leave memory alone. */
  lemma {:induction false} PopNSp(st: Stack, w: nat, n: nat)
    requires Width(w) && st.sp + w * n < Pow256(w)
    ensures PopN(st, w, n).1 == Stack(st.sp + w * n, st.mem)
    decreases n
  {
    if n > 0 {
      var st1 := Pop(st, w).1;
      MulPred(w, n);
      assert st1 == Stack(st.sp + w, st.mem);
      PopNSp(st1, w, n - 1);
      assert PopN(st, w, n).1 == PopN(st1, w, n - 1).1;
    }
  }

  /** Without wraparound, pop number k reads slot k. */
  lemma {:induction false} PopNSlots(st: Stack, w: nat, n: nat)
    requires Width(w) && st.sp + w * n < Pow256(w)
    ensures forall k :: 0 <= k < n ==> PopN(st, w, n).0[k] == Slot(st, w, k)
    decreases n
  {
    if n > 0 {
      var (v, st1) := Pop(st, w);
      MulPred(w, n);
      assert st1 == Stack(st.sp + w, st.mem);
      PopNSlots(st1, w, n - 1);
      assert PopN(st, w, n).0 == [v] + PopN(st1, w, n - 1).0;
      forall k | 0 <= k < n
        ensures PopN(st, w, n).0[k] == Slot(st, w, k)
      {
        if k == 0 {
          PopSlotTop(st, w);
        } else {
          SlotShift(st, w, k - 1);
        }
      }
    }
  }

  /** A pop returns slot 0. */
  lemma PopSlotTop(st: Stack, w: nat)
    requires Width(w) && st.sp < Pow256(w)
    ensures Pop(st, w).0 == Slot(st, w, 0)
  {
    assert st.sp + w * 0 == st.sp;
    PackInjective(w, Pop(st, w).0, Slot(st, w, 0));
  }

  /** Pushing args and popping as many gives args back in order and restores SP. */
  lemma PopNPushArgs(st: Stack, w: nat, args: seq<int>)
    requires Width(w) && AllFit(w, args) && st.sp < Pow256(w) && w * |args| <= st.sp
    ensures PopN(PushArgs(st, w, args), w, |args|) == (args, Stack(st.sp, PushArgs(st, w, args).mem))
  {
    var p := PushArgs(st, w, args);
    PushArgsSp(st, w, args);
    PushArgsSlots(st, w, args);
    PopNSp(p, w, |args|);
    PopNSlots(p, w, |args|);
    assert PopN(p, w, |args|).0 == args;
  }

  /** w·n is w more than w·(n - 1). */
  lemma MulPred(w: nat, n: nat)
    requires n > 0
    ensures w * (n - 1) == w * n - w && w * (n - 1) >= 0
  {
  }

  /** After pushing xs without wraparound and popping once, slot i holds xs[i + 1]. */
  lemma PoppedSlots(st: Stack, w: nat, xs: seq<int>)
    requires Width(w) && AllFit(w, xs) && st.sp < Pow256(w) && w * |xs| <= st.sp && |xs| >= 1
    ensures forall i :: 0 <= i < |xs| - 1 ==> Slot(Pop(PushArgs(st, w, xs), w).1, w, i) == xs[i + 1]
  {
    var p := PushArgs(st, w, xs);
    PushArgsSp(st, w, xs);
    PushArgsSlots(st, w, xs);
    assert Pop(p, w).1 == Stack(p.sp + w, p.mem);
    forall i | 0 <= i < |xs| - 1
      ensures Slot(Pop(p, w).1, w, i) == xs[i + 1]
    {
      SlotShift(p, w, i);
    }
  }

  /** Slot k above SP + w is slot k + 1 above SP. */
  lemma SlotShift(st: Stack, w: nat, k: nat)
    ensures Slot(Stack(st.sp + w, st.mem), w, k) == Slot(st, w, k + 1)
  {
    assert st.sp + w + w * k == st.sp + w * (k + 1);
  }
}
