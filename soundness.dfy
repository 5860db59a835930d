/** What the compiler of the current revision and its virtual machine
    guarantee together.  Every window the compiler emits is as wide as its
    handler advances `pos`, with every address in range, so a compiled
    program can fault only by dividing by zero.  The repository writes the
    opcode numbering down twice: baselib.go's `init` numbers the overloads
    after its three copies, and vm.go's `funcAddrs` literal numbers its
    handlers by hand.  The two numberings agree on opcodes 0 to 17 and
    disagree from 18 on.  Both files declare the package-level `funcAddrs`,
    so no build keeps both; what follows states what each numbering makes of
    a compiled program. */
module Soundness {
  import opened Isa
  import opened Registry
  import opened Windows
  import opened Tables
  import opened Compile
  import opened Vm

  /** The machine that runs `p` from its first window. */
  function Start(p: Program): (m: Machine)
    ensures m.Data() == p && m.pos == 0
  {
    Machine(p.opAddrs, p.ints, p.strs, p.bools, 0)
  }

  /** baselib.go and vm.go number opcodes 0 to 17 alike, and 18 to 21
      differently: `Print` and `||` there, `goto`, `if` and two prints here. */
  lemma TablesAgreeBelow18()
    ensures |RegistryTable()| == 22
    ensures RegistryTable()[..18] == VmTable()[..18]
    ensures forall k :: 18 <= k < 22 ==> RegistryTable()[k] != VmTable()[k]
  {
    RegistryTableContents();
  }

  /** A compiled program that uses only opcodes 0 to 17 means the same
      under vm.go's numbering: it runs under that table without indexing out
      of range, and halts within as many
      dispatches as `OpAddrs` has entries. */
  lemma VmRunsLowOpcodes(p: Program, fuel: nat)
    requires OpcodesBelow(RegistryTable(), p, 0, 18)
    ensures var o := RunSpec(VmTable(), Start(p), fuel).0;
      && (o.Faulted? ==> o == Faulted(DivByZero))
      && (fuel >= |p.opAddrs| ==> o != OutOfFuel)
  {
    TablesAgreeBelow18();
    AgreeingTables(RegistryTable(), VmTable(), 18, p, 0);
    CompiledRun(VmTable(), p, fuel);
  }

  /** With baselib.go's declaration of `funcAddrs`, the table at run time is
      the one `init` builds, and every compiled program runs under it without
      indexing out of range, faulting at most on a division or remainder by
      zero, and halts within as many dispatches as `OpAddrs` has entries. */
  lemma RegistryRunsCompiled(lines: seq<string>, lib: map<string, seq<Overload>>, fuel: nat)
    requires Initialized(lib)
    ensures var bc := CompileFrom(Empty(), lines, 0, lib, true).0.bc;
      var o := RunSpec(RegistryTable(), Start(bc), fuel).0;
      && (o.Faulted? ==> o == Faulted(DivByZero))
      && (fuel >= |bc.opAddrs| ==> o != OutOfFuel)
  {
    var bc := CompileFrom(Empty(), lines, 0, lib, true).0.bc;
    CompileWellFormed(lines, lib);
    CompiledRun(RegistryTable(), bc, fuel);
  }

  // ---------------------------------------------------------------------------
  // The two numberings, as written

  /** What `Print 'hi'` compiles to: the string slot 0 holds `hi`, and the
      window is `Print` of a string (opcode 18) on slot 0. */
  function PrintHi(): Program {
    Program([18, 0], [], ["hi"], [])
  }

  /** The window is well-formed for baselib.go's numbering and runs to
      completion there; read with vm.go's hand-written numbering, opcode 18
      is `goto`, which looks for an integer slot that does not exist and
      faults. */
  lemma PrintHiNumberingsDisagree()
    ensures WellFormed(RegistryTable(), PrintHi())
    ensures RunSpec(RegistryTable(), Start(PrintHi()), 1).0 == Halted
    ensures RunSpec(VmTable(), Start(PrintHi()), 1).0 == Faulted(OutOfRange)
  {
    RegistryTableContents();
    var p := PrintHi();
    var m := Start(p);
    assert WindowOk(RegistryTable(), p, 0);
    assert WellFormedFrom(RegistryTable(), p, 2);
    PrintSemantics(RegistryTable(), m);
    GotoSemantics(VmTable(), m);
  }

  // ---------------------------------------------------------------------------
  // The dispatch table baselib.go's numbering calls for

  /** One numbering for both files: vm.go's table renumbered to agree with
      baselib.go, the 22 entries `init` builds, then `goto` and `if`, which
      no compiler emits. */
  function CorrectedVmTable(): (t: seq<Handler>)
    ensures |t| == 24
  {
    [ Copy(Int), Copy(Str), Copy(Bool),
      IntCmp(Ne), StrNe, Arith(Rem), And, Arith(Mul), Arith(Add), Concat, Arith(Sub), Arith(Quo),
      IntCmp(Lt), IntCmp(Le), IntCmp(Eq), StrEq, IntCmp(Gt), IntCmp(Ge),
      Print(Str), Print(Int), Print(Bool), Or,
      Goto, If ]
  }

  lemma CorrectedAgrees()
    ensures |RegistryTable()| == 22 && CorrectedVmTable()[..22] == RegistryTable()
    ensures CorrectedVmTable()[..18] == VmTable()[..18]
  {
    RegistryTableContents();
  }

  /** Every stream that is well-formed for baselib.go's numbering runs
      under the corrected table without indexing out of range, and halts
      within as many dispatches as `OpAddrs` has entries. */
  lemma CorrectedRuns(p: Program, fuel: nat)
    requires WellFormed(RegistryTable(), p)
    ensures var o := RunSpec(CorrectedVmTable(), Start(p), fuel).0;
      && (o.Faulted? ==> o == Faulted(DivByZero))
      && (fuel >= |p.opAddrs| ==> o != OutOfFuel)
  {
    WellFormedOpcodes(RegistryTable(), p, 0);
    CorrectedAgrees();
    AgreeingTables(RegistryTable(), CorrectedVmTable(), 22, p, 0);
    CompiledRun(CorrectedVmTable(), p, fuel);
  }

  /** The headline theorem: whatever the program, the bytecode the compiler
      leaves (complete, or as far as a failing line left it) runs under the
      corrected table without ever indexing out of range, faulting at most on
      a division or remainder by zero, and halts within as many dispatches
      as `OpAddrs` has entries. */
  lemma CompiledProgramsRun(lines: seq<string>, lib: map<string, seq<Overload>>, fuel: nat)
    requires Initialized(lib)
    ensures var bc := CompileFrom(Empty(), lines, 0, lib, true).0.bc;
      var o := RunSpec(CorrectedVmTable(), Start(bc), fuel).0;
      && (o.Faulted? ==> o == Faulted(DivByZero))
      && (fuel >= |bc.opAddrs| ==> o != OutOfFuel)
  {
    CompileWellFormed(lines, lib);
    CorrectedRuns(CompileFrom(Empty(), lines, 0, lib, true).0.bc, fuel);
  }
}
