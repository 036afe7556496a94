/** The post-block hook of the x86 C code generators (miasm2/arch/x86/jit.py:17-35): after each
    translated block, x86_32_CGen and x86_64_CGen emit a register dump when the block asks for it. */
module CodeGen {
  /** The block attributes gen_post_code consults. */
  datatype Attrib = Attrib(logRegs: bool)

  /** The C statement that dumps the general-purpose registers of a bits-wide CPU. */
  function DumpCall(bits: string): string
  {
    "dump_gpregs_" + bits + "(jitcpu->cpu);"
  }

  /** x86_32_CGen.gen_post_code: the 32-bit register dump when log_regs is set, nothing otherwise. */
  function GenPostCode32(attrib: Attrib): (out: seq<string>)
    ensures |out| <= 1
    ensures out != [] <==> attrib.logRegs
    ensures forall line :: line in out ==> line == DumpCall("32")
  {
    if attrib.logRegs then [DumpCall("32")] else []
  }

  /** x86_64_CGen.gen_post_code, which overrides the inherited one: the 64-bit register dump when
      log_regs is set, nothing otherwise. */
  function GenPostCode64(attrib: Attrib): (out: seq<string>)
    ensures |out| <= 1
    ensures out != [] <==> attrib.logRegs
    ensures forall line :: line in out ==> line == DumpCall("64")
  {
    if attrib.logRegs then [DumpCall("64")] else []
  }

  /** The override changes which dump is emitted, never whether one is: both generators emit the same
      number of lines for every block, and when they emit one the two lines differ. */
  lemma PostCodeOverride(attrib: Attrib)
    ensures |GenPostCode32(attrib)| == |GenPostCode64(attrib)|
    ensures attrib.logRegs ==> GenPostCode32(attrib)[0] != GenPostCode64(attrib)[0]
  {
    if attrib.logRegs {
      assert GenPostCode32(attrib)[0][12] == '3';
      assert GenPostCode64(attrib)[0][12] == '6';
    }
  }
}
