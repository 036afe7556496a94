/** The argument-register loop of func_prepare_fastcall (miasm2/arch/x86/jit.py:168-169) and of the
    64-bit func_prepare_stdcall and func_prepare_systemv (jit.py:233-234, 270-271):
    setattr(self.cpu, args_regs[i], args[i]) for i < min(len(args), len(args_regs)). */
module RegisterFile {

  /** A register name list with no repeats, as every args_regs list is. */
  predicate Distinct<R(==)>(names: seq<R>)
  {
    forall i, j :: 0 <= i < j < |names| ==> names[i] != names[j]
  }

  /** min(len(args), len(args_regs)): how many arguments go to registers. */
  function RegCount(nArgs: nat, nRegs: nat): (m: nat)
    ensures m <= nArgs && m <= nRegs && (m == nArgs || m == nRegs)
  {
    if nArgs < nRegs then nArgs else nRegs
  }

  /** The register file after the first m writes; a write keeps the value modulo the register's range. */
  function AssignArgs<R(==)>(cpu: map<R, nat>, names: seq<R>, vals: seq<int>, m: nat, modulus: nat): (r: map<R, nat>)
    requires m <= |names| && m <= |vals| && modulus > 0
    ensures r.Keys == cpu.Keys + set k | 0 <= k < m :: names[k]
    ensures (forall x :: x in cpu ==> cpu[x] < modulus) ==> forall x :: x in r ==> r[x] < modulus
  {
    if m == 0 then cpu
    else AssignArgs(cpu, names, vals, m - 1, modulus)[names[m - 1] := vals[m - 1] % modulus]
  }

  /** Argument register k holds argument k; a register outside the list keeps its value. */
  lemma {:induction false} AssignArgsValues<R>(cpu: map<R, nat>, names: seq<R>, vals: seq<int>, m: nat, modulus: nat)
    requires m <= |names| && m <= |vals| && modulus > 0 && Distinct(names)
    ensures forall k :: 0 <= k < m ==> AssignArgs(cpu, names, vals, m, modulus)[names[k]] == vals[k] % modulus
    ensures forall x :: x in cpu && x !in names[..m] ==> AssignArgs(cpu, names, vals, m, modulus)[x] == cpu[x]
  {
    if m > 0 {
      AssignArgsValues(cpu, names, vals, m - 1, modulus);
      assert names[..m] == names[..m - 1] + [names[m - 1]];
    }
  }

  /** Writing a register outside the argument list before the argument writes or after them gives the same register file. */
  lemma {:induction false} AssignArgsUpdate<R>(cpu: map<R, nat>, names: seq<R>, vals: seq<int>, m: nat, modulus: nat, x: R, v: nat)
    requires m <= |names| && m <= |vals| && modulus > 0 && x !in names[..m]
    ensures AssignArgs(cpu[x := v], names, vals, m, modulus) == AssignArgs(cpu, names, vals, m, modulus)[x := v]
  {
    if m > 0 {
      assert names[..m - 1] == names[..m][..m - 1];
      AssignArgsUpdate(cpu, names, vals, m - 1, modulus, x, v);
      assert names[m - 1] in names[..m];
    }
  }

  /** The loop itself: for i in xrange(m), setattr(cpu, names[i], vals[i]), each write kept modulo the
      register's range. */
  method AssignLoop<R>(cpu: map<R, nat>, names: seq<R>, vals: seq<int>, m: nat, modulus: nat) returns (r: map<R, nat>)
    requires m <= |names| && m <= |vals| && modulus > 0
    ensures r == AssignArgs(cpu, names, vals, m, modulus)
  {
    r := cpu;
    for i := 0 to m
      invariant r == AssignArgs(cpu, names, vals, i, modulus)
    {
      r := r[names[i] := vals[i] % modulus];
    }
  }
}
