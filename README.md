# x86 stack marshalling and calling conventions of the miasm jitter

This project models the part of miasm's x86 jitter (`miasm2/arch/x86/jit.py`) that moves values between the emulated CPU and the emulated stack, and proves properties of that model:

- **Stack accessors** of the 16-, 32- and 64-bit jitters:
  - `push_uint*_t` lowers SP/ESP/RSP by the stack width, then stores the little-endian bytes at the new top.
  - `pop_uint*_t` reads the top and raises the stack pointer.
  - `get_stack_arg(i)` reads slot `i` above the stack pointer.
- **Calling conventions**: each has a `func_prepare_*` that lays out a call, a `func_args_*` that recovers it, and a `func_ret_*` that returns from it.
  - 32-bit stdcall, cdecl (System V is an alias of these) and fastcall (ECX, EDX, then the stack).
  - 64-bit stdcall/cdecl (RCX, RDX, R8, R9, then the stack) and System V (RDI, RSI, RDX, RCX, R8, R9, then the stack).
- **Post-block hook** `gen_post_code` of the 32- and 64-bit C code generators.

Layout:

- `little_endian.dfy`: `pck16/32/64` and `upck16/32/64`.
- `virtual_memory.dfy`: the VM byte store behind `vm.get_mem`/`vm.set_mem`.
- `stack.dfy`: the accessors for any slot width of 2, 4 or 8 bytes.
- `register_file.dfy`: the `setattr` loop that fills argument registers.
- `x86_16.dfy`, `x86_32.dfy`, `x86_64.dfy`: one jitter each.
- `codegen.dfy`: `gen_post_code`.

Each jitter file has two parts:

- A `Machine` datatype (register file, `pc`, memory) with one function per operation. These functions state what the operation computes, and the lemmas are about them.
- A class (`Jitter16`, `Jitter32`, `Jitter64`) whose fields `cpu`, `pc` and `vm` are updated in place, as the Python object's are. Its methods follow the source's statements and loops, and each is proved to leave the state the matching function describes.

Modelling choices:

- Registers are `nat`s kept modulo 2^16, 2^32 or 2^64, as the CPU's fixed-width register fields keep them. `pc` is a Python attribute and is not truncated.
- Memory is a total map from addresses to bytes: a byte never written reads as 0.
- A call that raises in Python (a `struct` unpack of the wrong length) is `None`.

Aliases are not modelled twice:

- 32-bit `get_arg_n_stdcall`, `get_arg_n_cdecl` and `get_arg_n_systemv` are `get_stack_arg` (jit.py:131, 147, 153).
- `func_args_systemv`, `func_ret_systemv` and `func_prepare_systemv` are the cdecl and stdcall ones (jit.py:150-152).
- The 64-bit cdecl triple is the stdcall one (jit.py:247-249), and `func_ret_systemv` is `func_ret_cdecl` (jit.py:265).

Two consequences of the code worth knowing:

- The 64-bit stdcall/cdecl and System V conventions use different register lists (jit.py:186-187): RCX, RDX, R8, R9 against RDI, RSI, RDX, RCX, R8, R9.
- `get_arg_n_fastcall(2)` counts stack slots from ESP, so right after `func_prepare_fastcall`, before the return address is popped, it is the return address (`X86_32.FastcallThirdArgBeforePop`).

## Model

| member | source | states |
|---|---|---|
| LittleEndian.Pack | miasm2/arch/x86/jit.py:4 | `pck<8w>` of a value below 256^w is exactly w bytes |
| LittleEndian.Decode | miasm2/arch/x86/jit.py:4 | the number read from b bytes is below 256^\|b\| |
| LittleEndian.Unpack | miasm2/arch/x86/jit.py:4 | `upck<8w>` succeeds exactly when given w bytes; its value fits in w bytes and packs back to the same bytes |
| LittleEndian.DecodePack | miasm2/arch/x86/jit.py:4 | unpacking the packing of any value that fits gives the value back |
| LittleEndian.PackDecode | miasm2/arch/x86/jit.py:4 | packing the value of any byte string gives the bytes back |
| LittleEndian.PackInjective | miasm2/arch/x86/jit.py:4 | two values with the same encoding are equal |
| LittleEndian.DecodeAppend | miasm2/arch/x86/jit.py:52-62 | little-endian order of the `pck16`/`upck16` bytes the stack accessors store and load: an appended byte weighs 256^(its position) |
| VirtualMemory.Read | miasm2/arch/x86/jit.py:57 | `get_mem(addr, n)` returns n bytes, byte k being the one at addr + k |
| VirtualMemory.Write | miasm2/arch/x86/jit.py:54 | after `set_mem(addr, b)` the bytes of b are at addr.. and every other byte is unchanged |
| VirtualMemory.ReadWrite | miasm2/arch/x86/jit.py:54-57 | reading back the span just written returns the written bytes |
| VirtualMemory.ReadSame | miasm2/arch/x86/jit.py:57 | a read depends only on the bytes of its own span |
| Stack.StackArgs | miasm2/arch/x86/jit.py:235 | `args[k:]` has \|args\| - k entries (none when k exceeds it), entry i being args[k + i] |
| Stack.SplitArgs | miasm2/arch/x86/jit.py:233-235 | the register part followed by `args[k:]` is the whole argument list |
| Stack.Push | miasm2/arch/x86/jit.py:52-54 | SP goes down by w modulo 2^(8w), the w bytes of v are at the new SP, and no byte outside them changes |
| Stack.Pop | miasm2/arch/x86/jit.py:56-59 | the result fits in w bytes and packs to the w bytes at SP; SP goes up by w modulo 2^(8w) and memory is unchanged |
| Stack.Slot | miasm2/arch/x86/jit.py:103-104 | `get_stack_arg(k)` fits in w bytes and packs to the w bytes at SP + w·k |
| Stack.PushArgs | miasm2/arch/x86/jit.py:127-128 | pushing a list last to first keeps SP within the register width; its slots and SP are stated by Stack.PushArgsSp and Stack.PushArgsSlots |
| Stack.PopN | miasm2/arch/x86/jit.py:116 | n pops yield n values, each fitting in w bytes, and leave memory unchanged |
| Stack.PopPush | miasm2/arch/x86/jit.py:52-59 | a pop right after a push returns the pushed value and restores SP |
| Stack.PushArgsAppend | miasm2/arch/x86/jit.py:127-129 | pushing xs + ys in reverse is pushing ys in reverse and then xs in reverse |
| Stack.PushSlotTop | miasm2/arch/x86/jit.py:52-62 | right after a push, slot 0 is the pushed value |
| Stack.PushSlotBelow | miasm2/arch/x86/jit.py:52-62 | right after a push that does not wrap, slot k + 1 is the old slot k |
| Stack.PushTwiceSlotBelow | miasm2/arch/x86/jit.py:52-62 | two pushes that do not wrap move slot k to slot k + 2 |
| Stack.PushArgsSp | miasm2/arch/x86/jit.py:127-128 | without wraparound, pushing n values lowers SP by w·n |
| Stack.PushArgsSlots | miasm2/arch/x86/jit.py:127-128 | without wraparound, after pushing args in reverse, slot k is args[k] |
| Stack.PushArgsFrame | miasm2/arch/x86/jit.py:127-128 | the pushes change only the bytes between the new and the old SP |
| Stack.PopNSp | miasm2/arch/x86/jit.py:116 | without wraparound, n pops raise SP by w·n and keep memory |
| Stack.PopNSlots | miasm2/arch/x86/jit.py:116 | pop number k returns slot k |
| Stack.PopSlotTop | miasm2/arch/x86/jit.py:98-104 | a pop returns what `get_stack_arg(0)` reads |
| Stack.PopNPushArgs | miasm2/arch/x86/jit.py:114-129 | pushing args in reverse and popping as many returns args in order and restores SP |
| Stack.PoppedSlots | miasm2/arch/x86/jit.py:134-137 | after pushing xs and one pop, slot i is xs[i + 1] |
| Stack.SlotShift | miasm2/arch/x86/jit.py:103-104 | slot k above SP + w is slot k + 1 above SP |
| RegisterFile.RegCount | miasm2/arch/x86/jit.py:233 | `min(len(args), len(args_regs))`: at most either count and equal to one of them |
| RegisterFile.AssignArgs | miasm2/arch/x86/jit.py:233-234 | the `setattr` loop adds only the named registers and keeps every value within the register range |
| RegisterFile.AssignArgsValues | miasm2/arch/x86/jit.py:233-234 | argument register k holds args[k] modulo the register range; registers outside the list keep their values |
| RegisterFile.AssignArgsUpdate | miasm2/arch/x86/jit.py:267-271 | a write to a register outside the argument list commutes with the `setattr` loop |
| RegisterFile.AssignLoop | miasm2/arch/x86/jit.py:233-234 | the `for i in xrange(min(...))` loop of `setattr` calls leaves exactly the register file `AssignArgs` describes |
| X86_16.Push | miasm2/arch/x86/jit.py:52-54 | `push_uint16_t` keeps every register 16 bits wide |
| X86_16.Pop | miasm2/arch/x86/jit.py:56-59 | `pop_uint16_t` keeps every register 16 bits wide |
| X86_16.GetStackArgAsWritten | miasm2/arch/x86/jit.py:61-62 | `get_stack_arg` as written raises for every index and memory |
| X86_16.GetStackArg | miasm2/arch/x86/jit.py:61-62 | the corrected `get_stack_arg(i)` keeps the 4-byte slot stride and is the 16-bit value whose 2 bytes sit at SP + 4·i |
| X86_16.PushEffect | miasm2/arch/x86/jit.py:52-54 | push lowers SP by 2 modulo 2^16 and stores the 2 bytes of v there; nothing else changes |
| X86_16.PopAfterPush | miasm2/arch/x86/jit.py:52-59 | pop after push returns the value and every register as before |
| X86_16.GetStackArgAsWrittenFails | miasm2/arch/x86/jit.py:61-62 | as written, even the value just pushed cannot be read back: 4 bytes never unpack as 16 bits |
| X86_16.GetStackArgAfterPush | miasm2/arch/x86/jit.py:52-62 | with the corrected reader, slot 0 after `push_uint16_t(v)` is v and, without wraparound, slot k + 1 after two pushes (one 4-byte slot) is the old slot k |
| X86_16.GetStackArgTop | miasm2/arch/x86/jit.py:52-62 | slot 0 of the corrected reader after `push_uint16_t(v)` is v |
| X86_16.GetStackArgBelow | miasm2/arch/x86/jit.py:52-62 | without wraparound, two 16-bit pushes move the old slot k to slot k + 1 |
| X86_16.GetStackArgSlot | miasm2/arch/x86/jit.py:61-62 | the corrected reader's slot k is the 2-byte stack slot 2·k |
| X86_16.SlotsShifted | miasm2/arch/x86/jit.py:61-62 | machines whose 2-byte slots 2·k + 2 and 2·k agree give the same corrected slots k + 1 and k |
| X86_16.PushStack | miasm2/arch/x86/jit.py:52-54 | `push_uint16_t` acts on SP and memory as the 2-byte stack push |
| X86_16.Jitter16.PushUint16 | miasm2/arch/x86/jit.py:52-54 | the object's new state is `Push` of its old state |
| X86_16.Jitter16.PopUint16 | miasm2/arch/x86/jit.py:56-59 | the result and the object's new state are `Pop` of its old state |
| X86_32.Push | miasm2/arch/x86/jit.py:94-96 | `push_uint32_t` keeps every register 32 bits wide |
| X86_32.Pop | miasm2/arch/x86/jit.py:98-101 | `pop_uint32_t` keeps every register 32 bits wide |
| X86_32.Push16 | miasm2/arch/x86/jit.py:85-87 | `push_uint16_t` lowers ESP by 4 but stores only the 2 bytes of v at the new ESP, and changes no other byte |
| X86_32.Pop16AsWritten | miasm2/arch/x86/jit.py:89-92 | `pop_uint16_t` as written raises on every machine |
| X86_32.Pop16 | miasm2/arch/x86/jit.py:89-92 | the corrected 16-bit pop returns the 16-bit value at ESP and raises ESP by 4 |
| X86_32.GetStackArg | miasm2/arch/x86/jit.py:103-104 | `get_stack_arg(i)` is the 32-bit value whose bytes sit at ESP + 4·i |
| X86_32.ArgsStdcall | miasm2/arch/x86/jit.py:113-117 | pops the return address and then exactly n values, leaving a well-formed machine; what they are is stated by X86_32.StdcallRoundTrip |
| X86_32.PrepareStdcall | miasm2/arch/x86/jit.py:126-129 | keeps the machine well formed; the layout is stated by X86_32.PreparedStack |
| X86_32.Ret | miasm2/arch/x86/jit.py:119-124 | keeps every register 32 bits wide; the effect is stated by X86_32.RetEffect |
| X86_32.ArgsCdecl | miasm2/arch/x86/jit.py:134-138 | pops the return address and reads exactly n slots; what they are is stated by X86_32.CdeclRoundTrip |
| X86_32.ArgsFastcall | miasm2/arch/x86/jit.py:157-164 | pops the return address and reads exactly n arguments; what they are is stated by X86_32.FastcallRoundTrip |
| X86_32.PrepareFastcall | miasm2/arch/x86/jit.py:166-173 | keeps the machine well formed; the layout is stated by X86_32.FastcallPreparedPop and X86_32.FastcallPoppedArgs |
| X86_32.GetArgNFastcall | miasm2/arch/x86/jit.py:175-179 | index 0 is ECX, index 1 is EDX, index i ≥ 2 is the 32-bit value at ESP + 4·(i - 2) |
| X86_32.FastcallRegArgs | miasm2/arch/x86/jit.py:167-169 | ECX/EDX take the first min(n, 2) arguments; the unused one, ESP, EAX, EIP, pc and memory keep their values |
| X86_32.PushEffect | miasm2/arch/x86/jit.py:94-96 | push lowers ESP by 4 modulo 2^32 and stores the 4 bytes of v there; nothing else changes |
| X86_32.PopAfterPush | miasm2/arch/x86/jit.py:94-101 | pop after push returns the value and every register as before |
| X86_32.Pop16AfterPush16 | miasm2/arch/x86/jit.py:85-92 | the corrected 16-bit pop after the 16-bit push returns the value and restores ESP |
| X86_32.Pop16AsWrittenFails | miasm2/arch/x86/jit.py:85-92 | as written, the 16-bit pop after the 16-bit push raises: it reads 4 bytes into a 2-byte unpack |
| X86_32.PreparedStack | miasm2/arch/x86/jit.py:126-129 | `func_prepare_stdcall` leaves the return address on top of the arguments and ESP 4·(n + 1) lower |
| X86_32.PreparedPop | miasm2/arch/x86/jit.py:98-101 | the first pop after the prepare returns the return address and leaves ESP 4·n below its old value |
| X86_32.PreparedArgs | miasm2/arch/x86/jit.py:134-137 | after the prepare and one pop, stack argument i is args[i] |
| X86_32.StdcallRoundTrip | miasm2/arch/x86/jit.py:113-129 | `func_args_stdcall(n)` after `func_prepare_stdcall(ret, args)` returns (ret, args); every register, ESP included, is as before the prepare |
| X86_32.CdeclRoundTrip | miasm2/arch/x86/jit.py:126-138 | `func_args_cdecl(n)` (and its System V alias) after the prepare returns (ret, args); ESP ends 4·n below its old value |
| X86_32.FastcallRegsFit | miasm2/arch/x86/jit.py:167-169 | the register loop puts each of the first two arguments, unchanged, in ECX/EDX, neither of which is ESP |
| X86_32.FastcallPreparedPop | miasm2/arch/x86/jit.py:157-173 | after `func_prepare_fastcall` the first pop returns the return address, ESP is 4 bytes lower per stack argument, and other registers are as the prepare set them |
| X86_32.FastcallPoppedArgs | miasm2/arch/x86/jit.py:166-179 | after the prepare and one pop, ECX/EDX hold the first two arguments and the stack slots the rest |
| X86_32.ArgsFastcallOf | miasm2/arch/x86/jit.py:157-164 | `func_args_fastcall` returns the popped value, the register values, then the stack values |
| X86_32.FastcallRoundTrip | miasm2/arch/x86/jit.py:157-179 | `func_args_fastcall(n)` after `func_prepare_fastcall(ret, args)` returns (ret, args); ESP is 4 bytes lower per argument past the second; other registers are as the prepare set them |
| X86_32.FastcallThirdArgBeforePop | miasm2/arch/x86/jit.py:166-179 | right after the prepare, `get_arg_n_fastcall(2)` is the return address |
| X86_32.RetEffect | miasm2/arch/x86/jit.py:119-124 | pc is ret_addr, EIP its 32-bit value; EAX/EDX change exactly when a value is given; ECX, ESP and memory keep theirs |
| X86_32.Jitter32.PushUint32 | miasm2/arch/x86/jit.py:94-96 | the new state is `Push` of the old |
| X86_32.Jitter32.PopUint32 | miasm2/arch/x86/jit.py:98-101 | the result and new state are `Pop` of the old |
| X86_32.Jitter32.PushUint16 | miasm2/arch/x86/jit.py:85-87 | the new state is `Push16` of the old |
| X86_32.Jitter32.PopUint16 | miasm2/arch/x86/jit.py:89-92 | the call raises (None) and leaves the state unchanged |
| X86_32.Jitter32.FuncArgsStdcall | miasm2/arch/x86/jit.py:113-117 | the pop loop returns and leaves exactly `ArgsStdcall` of the old state |
| X86_32.Jitter32.FuncRetStdcall | miasm2/arch/x86/jit.py:119-124 | the new state is `Ret` of the old |
| X86_32.Jitter32.PushReversed | miasm2/arch/x86/jit.py:127-128 | the push loop leaves the values pushed last to first |
| X86_32.Jitter32.FuncPrepareStdcall | miasm2/arch/x86/jit.py:126-129 | the new state is `PrepareStdcall` of the old |
| X86_32.Jitter32.FuncArgsCdecl | miasm2/arch/x86/jit.py:134-138 | the result and new state are `ArgsCdecl` of the old |
| X86_32.Jitter32.FuncRetCdecl | miasm2/arch/x86/jit.py:140-145 | the new state is `Ret` of the old |
| X86_32.Jitter32.FuncArgsFastcall | miasm2/arch/x86/jit.py:157-164 | the result and new state are `ArgsFastcall` of the old |
| X86_32.Jitter32.SetFastcallRegs | miasm2/arch/x86/jit.py:167-169 | the `setattr` loop leaves `FastcallRegArgs` of the old state |
| X86_32.Jitter32.FuncPrepareFastcall | miasm2/arch/x86/jit.py:166-173 | the new state is `PrepareFastcall` of the old |
| X86_64.ArgRegsDistinct | miasm2/arch/x86/jit.py:186-187 | neither argument register list repeats a register or names RSP |
| X86_64.Push | miasm2/arch/x86/jit.py:201-203 | `push_uint64_t` keeps every register 64 bits wide; the effect is stated by X86_64.PushEffect |
| X86_64.Pop | miasm2/arch/x86/jit.py:205-208 | `pop_uint64_t` keeps every register 64 bits wide |
| X86_64.PushAll | miasm2/arch/x86/jit.py:236-237 | the push loop keeps the machine well formed |
| X86_64.PrepareStdcall | miasm2/arch/x86/jit.py:231-238 | keeps the machine well formed; the layout is stated by X86_64.StdcallLayout |
| X86_64.ArgsStdcall | miasm2/arch/x86/jit.py:220-229 | returns exactly n arguments; what they are is stated by X86_64.StdcallRoundTrip |
| X86_64.Ret | miasm2/arch/x86/jit.py:240-244 | keeps every register 64 bits wide; the effect is stated by X86_64.RetEffect |
| X86_64.ArgsSystemV | miasm2/arch/x86/jit.py:259-263 | returns exactly n arguments; what they are is stated by X86_64.SystemVRoundTrip and X86_64.SystemVMisorder |
| X86_64.PrepareSystemV | miasm2/arch/x86/jit.py:267-274 | keeps the machine well formed; the layout is stated by X86_64.SystemVLayout |
| X86_64.PrepareSystemVAbi | miasm2/arch/x86/jit.py:267-274 | the corrected prepare keeps the machine well formed; the layout is stated by X86_64.SystemVAbiLayout |
| X86_64.PushAllEmpty | miasm2/arch/x86/jit.py:236-237 | pushing nothing leaves the machine as it was |
| X86_64.GetStackArg | miasm2/arch/x86/jit.py:210-211 | `get_stack_arg(i)` is a 64-bit value |
| X86_64.GetStackArgReads | miasm2/arch/x86/jit.py:210-211 | `get_stack_arg(i)` is the value whose 8 bytes sit at RSP + 8·i |
| X86_64.RegArgs | miasm2/arch/x86/jit.py:232-234 | register i of the list takes args[i] modulo 2^64 for i < min(n, len(regs)); RSP, other registers, pc and memory keep their values |
| X86_64.GetArgNSystemV | miasm2/arch/x86/jit.py:253-257 | indices 0 to 5 read RDI, RSI, RDX, RCX, R8, R9 in that order; index i ≥ 6 is `get_stack_arg(i - 6)` |
| X86_64.PushEffect | miasm2/arch/x86/jit.py:201-203 | push lowers RSP by 8 modulo 2^64 and stores the 8 bytes of v there; nothing else changes |
| X86_64.PopAfterPush | miasm2/arch/x86/jit.py:201-208 | pop after push returns the value and every register as before |
| X86_64.RegArgsFit | miasm2/arch/x86/jit.py:233-234 | argument register i reads back as args[i] when the argument fits, and is never RSP |
| X86_64.PushAfterPushAll | miasm2/arch/x86/jit.py:236-238 | pushing ret after the reversed arguments lays out [ret] + arguments |
| X86_64.PushAllTwice | miasm2/arch/x86/jit.py:269-274 | two push sequences compose: the later values end on top |
| X86_64.RegArgsPushAll | miasm2/arch/x86/jit.py:267-274 | the register loop and the pushes commute |
| X86_64.PopPushAll | miasm2/arch/x86/jit.py:205-208 | the first pop after pushing xs returns xs[0] and leaves RSP 8·(\|xs\| - 1) lower than before |
| X86_64.PushAllArgs | miasm2/arch/x86/jit.py:210-211 | after pushing xs and one pop, stack argument i is xs[i + 1] |
| X86_64.PoppedFrame | miasm2/arch/x86/jit.py:205-211 | after pushing [top] + below and one pop: top is returned, RSP is 8·\|below\| lower, other registers are unchanged, slot i is below[i] |
| X86_64.SystemVArgsFrom | miasm2/arch/x86/jit.py:253-263 | the System V argument list equals want when the registers hold its first six entries and the slots the rest |
| X86_64.StdcallLayout | miasm2/arch/x86/jit.py:231-238 | `func_prepare_stdcall` pushes [ret] + args[4:] on top of the register loop's result |
| X86_64.ArgsStdcallOf | miasm2/arch/x86/jit.py:220-229 | `func_args_stdcall` returns the popped value, the register values, then the stack values |
| X86_64.ArgsStdcallWhole | miasm2/arch/x86/jit.py:220-229 | on any machine whose first pop yields ret, whose argument registers hold args[:4] and whose slots hold args[4:], `func_args_stdcall(len(args))` returns (ret, args) |
| X86_64.StdcallPopped | miasm2/arch/x86/jit.py:223-238 | after the prepare and one pop: ret is returned, RSP is 8 bytes lower per stack argument, other registers are as the register loop set them, slots hold args[4:] |
| X86_64.StdcallRoundTrip | miasm2/arch/x86/jit.py:220-238 | `func_args_stdcall(n)` (and cdecl) after `func_prepare_stdcall(ret, args)` returns (ret, args); RSP is 8 bytes lower per argument past the fourth; other registers are as the prepare set them; pc and memory are as before the pops |
| X86_64.SystemVLayout | miasm2/arch/x86/jit.py:267-274 | the as-written prepare lays out args[6:] + [ret]: the overflow arguments on top of the return address |
| X86_64.SystemVAbiLayout | miasm2/arch/x86/jit.py:267-274 | the corrected prepare lays out [ret] + args[6:] |
| X86_64.ArgsSystemVOf | miasm2/arch/x86/jit.py:259-263 | `func_args_systemv` returns the popped value, the register values, then the stack values |
| X86_64.ArgsSystemVWhole | miasm2/arch/x86/jit.py:253-263 | on any machine whose first pop yields ret, whose argument registers hold args[:6] and whose slots hold args[6:], `func_args_systemv(len(args))` returns (ret, args) |
| X86_64.SystemVPopped | miasm2/arch/x86/jit.py:261-274 | after the as-written prepare and one pop: the top of args[6:] + [ret] is returned and the slots hold the rest |
| X86_64.SystemVRoundTrip | miasm2/arch/x86/jit.py:259-274 | with n ≤ 6, `func_args_systemv(n)` after `func_prepare_systemv(ret, args)` returns (ret, args); every register is as the register loop left it; pc and memory are as before the pop |
| X86_64.MisorderedList | miasm2/arch/x86/jit.py:267-274 | with n > 6, the pushed values are args[6] on top, then args[7:], then ret |
| X86_64.SystemVMisorder | miasm2/arch/x86/jit.py:259-274 | with n > 6, the round trip pops args[6] as the return address and returns args without args[6], followed by ret |
| X86_64.SystemVAbiPopped | miasm2/arch/x86/jit.py:259-274 | after the corrected prepare and one pop: ret is returned, RSP is 8 bytes lower per stack argument, slots hold args[6:] |
| X86_64.SystemVAbiRoundTrip | miasm2/arch/x86/jit.py:259-274 | with the corrected prepare, the round trip returns (ret, args) for every n; RSP, the other registers, pc and memory are as for X86_64.StdcallRoundTrip |
| X86_64.RetEffect | miasm2/arch/x86/jit.py:240-244 | returns True; pc is ret_addr and RIP its 64-bit value; RAX changes exactly when a value is given; RSP, the argument registers and memory keep theirs |
| X86_64.Jitter64.PushUint64 | miasm2/arch/x86/jit.py:201-203 | the new state is `Push` of the old |
| X86_64.Jitter64.PopUint64 | miasm2/arch/x86/jit.py:205-208 | the result and new state are `Pop` of the old |
| X86_64.Jitter64.PushReversed | miasm2/arch/x86/jit.py:236-237 | the push loop leaves `PushAll` of the old state |
| X86_64.Jitter64.SetArgRegs | miasm2/arch/x86/jit.py:233-234 | the `setattr` loop leaves `RegArgs` of the old state |
| X86_64.Jitter64.FuncArgsStdcall | miasm2/arch/x86/jit.py:220-229 | the result and new state are `ArgsStdcall` of the old |
| X86_64.Jitter64.FuncPrepareStdcall | miasm2/arch/x86/jit.py:231-238 | the new state is `PrepareStdcall` of the old |
| X86_64.Jitter64.FuncRetStdcall | miasm2/arch/x86/jit.py:240-244 | the result and new state are `Ret` of the old |
| X86_64.Jitter64.FuncArgsSystemV | miasm2/arch/x86/jit.py:259-263 | the result and new state are `ArgsSystemV` of the old |
| X86_64.Jitter64.FuncPrepareSystemV | miasm2/arch/x86/jit.py:267-274 | the new state is the as-written `PrepareSystemV` of the old |
| CodeGen.GenPostCode32 | miasm2/arch/x86/jit.py:24-28 | one line exactly when `log_regs` is set, and that line is the 32-bit register dump |
| CodeGen.GenPostCode64 | miasm2/arch/x86/jit.py:31-35 | one line exactly when `log_regs` is set, and that line is the 64-bit register dump |
| CodeGen.PostCodeOverride | miasm2/arch/x86/jit.py:24-35 | the override changes which dump is emitted, never whether one is |

## Left out

- `__init__`, the `ir_archbloc_fix_regs_for_mode` patching and `set_little_endian` (jit.py:41-50, 73-83, 189-199): construction wiring. The model fixes the stack steps they yield (2, 4 and 8 bytes). The VM's own endianness setting is not modelled: the accessors store and load bytes packed by `pck*`/`upck*`, whose little-endian order the model states directly.
- `init_run` (jit.py:64-66, 106-108, 213-215): it calls the base `Jitter.init_run`, which is not part of this model, and then sets IP/EIP/RIP to `pc`; neither step is modelled.
- `@named_arguments`: the decorator comes from `miasm2.jitter.jitload`, which is not part of this model. `func_args_*` take the argument count directly.
- The logger setup (jit.py:10-14) and the construction of `x86_32_CGen` (jit.py:18-22): `TranslatorC`, `CGen` and `init_arch_C` are not part of this model.
- `pck*`/`upck*` (`miasm2.core.utils`) are not part of this model. They are modelled as fixed-width little-endian packing that raises when a value does not fit (the `Fit` precondition on pushes) or a buffer has the wrong length (`None`).
- Memory faults raised by the VM are not modelled: memory is a total map, and an unmapped byte reads as 0.
- Stack-pointer wraparound is modelled in every push and pop. These lemmas, however, assume the pushes do not wrap below address 0:
  - X86_32.StdcallRoundTrip: assumes ESP ≥ 4·(n + 1), so the pushes do not wrap below address 0.
  - X86_32.CdeclRoundTrip: assumes ESP ≥ 4·(n + 1).
  - X86_32.FastcallRoundTrip: assumes ESP ≥ 4·(stack arguments + 1).
  - X86_64.StdcallRoundTrip: assumes RSP ≥ 8·(stack arguments + 1).
  - X86_64.SystemVRoundTrip: assumes RSP ≥ 8.
  - X86_64.SystemVMisorder: assumes RSP ≥ 8·(n - 5).
  - X86_64.SystemVAbiRoundTrip: assumes RSP ≥ 8·(stack arguments + 1).
  - X86_16.GetStackArgAfterPush: its second clause assumes SP ≥ 4.
- The round trips below require every argument to fit in the register width. There are two reasons. An argument passed on the stack makes `pck` raise when it does not fit. An argument passed in a register is truncated by the register store, so it would not read back unchanged.
  - X86_32.StdcallRoundTrip: every argument goes on the stack; `pck32` raises on one that does not fit.
  - X86_32.CdeclRoundTrip: the same, through the same prepare.
  - X86_32.FastcallRoundTrip: ECX/EDX truncate the first two arguments modulo 2^32; `pck32` raises on a larger stack argument.
  - X86_64.StdcallRoundTrip: RCX, RDX, R8, R9 truncate the first four modulo 2^64; `pck64` raises on a larger stack argument.
  - X86_64.SystemVRoundTrip: with at most six arguments nothing is packed; the six registers truncate the arguments modulo 2^64.
  - X86_64.SystemVAbiRoundTrip: the six registers truncate; `pck64` raises on a larger stack argument.
- Indices and counts are `nat` throughout (`GetStackArg`, `GetArgNFastcall`, `GetArgNSystemV`, the `Args*` functions), so Python's negative values are not modelled. In Python, `get_arg_n_fastcall(-1)` returns EDX through `args_regs[-1]`, and `get_stack_arg(-1)` reads below the stack pointer. No caller in this layer passes a negative value.
- X86_64.GetStackArg: its ensures only bounds the value; where the value comes from is stated by X86_64.GetStackArgReads.

## Findings

| source | as written | input that shows it | evidently intended | confidence | as-written member | corrected member |
|---|---|---|---|---|---|---|
| miasm2/arch/x86/jit.py:267-274 | `func_prepare_systemv` pushes the return address before the overflow arguments, so `func_args_systemv` pops `args[6]` as the return address | seven arguments a0..a6 and ret r: `func_args_systemv(7)` returns (a6, [a0..a5, r]) | push the overflow arguments first and the return address last, as the System V AMD64 ABI lays out a call | not executed | X86_64.SystemVMisorder (on X86_64.PrepareSystemV) | X86_64.SystemVAbiRoundTrip (on X86_64.PrepareSystemVAbi) |
| miasm2/arch/x86/jit.py:61-62 | the 16-bit `get_stack_arg` reads 4 bytes at SP + 4·i and hands them to `upck16`, which accepts only 2 | any index, for example `get_stack_arg(0)` right after `push_uint16_t(1)` | keep the 4-byte argument slots (the 4·i stride) and read the 2 bytes `upck16` accepts: `upck16` of the bytes at SP + 4·i | not executed | X86_16.GetStackArgAsWrittenFails (on X86_16.GetStackArgAsWritten) | X86_16.GetStackArgAfterPush (on X86_16.GetStackArg) |
| miasm2/arch/x86/jit.py:89-92 | the 32-bit `pop_uint16_t` reads `sp.size / 8` = 4 bytes and hands them to `upck16` | `pop_uint16_t()` right after `push_uint16_t(1)` | read the 2 bytes at ESP, then raise ESP by 4 as `push_uint16_t` lowered it | not executed | X86_32.Pop16AsWrittenFails (on X86_32.Pop16AsWritten) | X86_32.Pop16AfterPush16 (on X86_32.Pop16) |
