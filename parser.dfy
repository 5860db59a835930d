/** The compiler of the current revision (parser.go), run as the source
    runs it: a `Parser` object whose identifier tables and bytecode the
    methods update in place, line by line.  Each method is proved to do
    what the matching function of `Compile` describes. */
module Parser {
  import opened Text
  import opened Isa
  import opened Registry
  import opened Windows
  import opened Scanner
  import opened Tables
  import opened Compile

  /** The search for the overload of a call: the first in table order that
      matches, or none. */
  method Resolve(funcs: seq<Overload>, argTypes: seq<BaseType>, assgnTypes: seq<BaseType>)
    returns (found: bool, k: nat)
    ensures found ==> k < |funcs| && Matches(funcs[k], argTypes, assgnTypes)
    ensures found ==> forall j :: 0 <= j < k ==> !Matches(funcs[j], argTypes, assgnTypes)
    ensures !found ==> forall j :: 0 <= j < |funcs| ==> !Matches(funcs[j], argTypes, assgnTypes)
    ensures found <==> FirstMatch(funcs, argTypes, assgnTypes) < |funcs|
    ensures found ==> k == FirstMatch(funcs, argTypes, assgnTypes)
  {
    k := 0;
    while k < |funcs|
      invariant k <= |funcs|
      invariant forall j :: 0 <= j < k ==> !Matches(funcs[j], argTypes, assgnTypes)
    {
      var fun := funcs[k];
      if |fun.inT| != |argTypes| || |fun.outT| != |assgnTypes| {
        k := k + 1;
        continue;
      }
      var inTypesMatch := true;
      var i := 0;
      while i < |fun.inT|
        invariant i <= |fun.inT|
        invariant inTypesMatch ==> forall i' :: 0 <= i' < i ==> fun.inT[i'] == Any || fun.inT[i'] == argTypes[i']
      {
        if fun.inT[i] == Any {
          i := i + 1;
          continue;
        }
        if fun.inT[i] != argTypes[i] {
          inTypesMatch := false;
          break;
        }
        i := i + 1;
      }
      if !inTypesMatch {
        k := k + 1;
        continue;
      }
      var outTypesMatch := true;
      i := 0;
      while i < |fun.outT|
        invariant i <= |fun.outT|
        invariant outTypesMatch ==> forall i' :: 0 <= i' < i ==> assgnTypes[i'] == Any || fun.outT[i'] == assgnTypes[i']
      {
        if assgnTypes[i] == Any {
          i := i + 1;
          continue;
        }
        if fun.outT[i] != assgnTypes[i] {
          outTypesMatch := false;
          break;
        }
        i := i + 1;
      }
      if !outTypesMatch {
        k := k + 1;
        continue;
      }
      return true, k;
    }
    return false, 0;
  }
  // ---------------------------------------------------------------------------
  // The compiler's state

  class Parser {
    var bc: Program
    var intIDAddr: map<string, int>
    var strIDAddr: map<string, int>
    var boolIDAddr: map<string, int>
    /** The dispatch table the emitted windows are meant for. */
    ghost const table: seq<Handler>

    function State(): State
      reads this
    {
      Tables.State(bc, intIDAddr, strIDAddr, boolIDAddr)
    }

    ghost predicate Valid()
      reads this
    {
      Ok(table, State()) && CopiesAt(table)
    }

    constructor (ghost table: seq<Handler>)
      requires CopiesAt(table)
      ensures this.table == table
      ensures State() == Tables.State(Program([], [], [], []), map[], map[], map[])
      ensures Valid()
    {
      bc := Program([], [], [], []);
      intIDAddr, strIDAddr, boolIDAddr := map[], map[], map[];
      this.table := table;
      new;
      StartOk(table);
    }

    /** A compiler that carries on from the names, slots and stream of `s`,
        as main.go's `Prog` does when `Parse` is called again. */
    constructor Resume(ghost table: seq<Handler>, s: State)
      ensures this.table == table && State() == s
    {
      bc := s.bc;
      intIDAddr, strIDAddr, boolIDAddr := s.intIDs, s.strIDs, s.boolIDs;
      this.table := table;
    }

    /** `newAlloc`: a fresh zero slot of type `t` for `id` (nothing at all for
        the wildcard, which answers slot 0). */
    method NewAlloc(id: string, t: BaseType) returns (addr: int)
      modifies this
      ensures t != Any ==> State() == Allocated(old(State()), id, Zero(t)) && addr == ArrLen(old(bc), t)
      ensures t == Any ==> State() == old(State()) && addr == 0
    {
      match t
      case Int =>
        addr := |bc.ints|;
        intIDAddr := intIDAddr[id := |bc.ints|];
        bc := bc.(ints := bc.ints + [0]);
      case Str =>
        addr := |bc.strs|;
        strIDAddr := strIDAddr[id := |bc.strs|];
        bc := bc.(strs := bc.strs + [""]);
      case Bool =>
        addr := |bc.bools|;
        boolIDAddr := boolIDAddr[id := |bc.bools|];
        bc := bc.(bools := bc.bools + [false]);
      case Any =>
        addr := 0;
    }

    /** `newAllocInitialize`: a fresh slot for `id` holding the value of the
        literal `raw`, in the array of the literal's type. */
    method NewAllocInitialize(id: string, raw: string) returns (addr: int, typ: BaseType)
      requires IsLiteral(raw)
      modifies this
      ensures typ == RawToType(raw) && addr == ArrLen(old(bc), typ)
      ensures State() == Allocated(old(State()), id, LiteralValue(raw))
    {
      match RawToType(raw)
      case Str =>
        typ := Str;
        addr := |bc.strs|;
        strIDAddr := strIDAddr[id := |bc.strs|];
        bc := bc.(strs := bc.strs + [raw[1..|raw| - 1]]);
      case Int =>
        typ := Int;
        addr := |bc.ints|;
        intIDAddr := intIDAddr[id := |bc.ints|];
        bc := bc.(ints := bc.ints + [Atoi(raw)]);
      case Bool =>
        typ := Bool;
        addr := |bc.bools|;
        boolIDAddr := boolIDAddr[id := |bc.bools|];
        bc := bc.(bools := bc.bools + [raw == "True"]);
    }

    /** `copyToExisting`: slot `to` of the array of `t` receives slot `from`
        (the source never calls it). */
    method CopyToExisting(from: int, to: int, t: BaseType)
      requires t != Any ==> InBounds(bc, t, from) && InBounds(bc, t, to)
      modifies this
      ensures intIDAddr == old(intIDAddr) && strIDAddr == old(strIDAddr) && boolIDAddr == old(boolIDAddr)
      ensures bc.opAddrs == old(bc.opAddrs)
      ensures bc.ints == if t == Int then old(bc.ints)[to := old(bc.ints)[from]] else old(bc.ints)
      ensures bc.strs == if t == Str then old(bc.strs)[to := old(bc.strs)[from]] else old(bc.strs)
      ensures bc.bools == if t == Bool then old(bc.bools)[to := old(bc.bools)[from]] else old(bc.bools)
    {
      match t
      case Str => bc := bc.(strs := bc.strs[to := bc.strs[from]]);
      case Int => bc := bc.(ints := bc.ints[to := bc.ints[from]]);
      case Bool => bc := bc.(bools := bc.bools[to := bc.bools[from]]);
      case Any =>
    }

    // -------------------------------------------------------------------------
    // Plain assignment

    /** A line `targets = sources` with no operation: exactly one of each, or
        an error; otherwise the state `Assignment` describes, or its error
        with the state left as it was. */
    method Assign(assgns: seq<string>, args: seq<string>, line: int) returns (err: Option<string>)
      requires |assgns| > 0 && |args| > 0
      requires forall k :: 0 <= k < |args| ==> IsArg(args[k])
      modifies this
      ensures |args| > 1 || |assgns| > 1 ==>
        err == Some(ParsingErr(line, MultiAssignMsg)) && State() == old(State())
      ensures |args| == 1 && |assgns| == 1 ==>
        match Assignment(old(State()), assgns[0], args[0])
        case Failure(msg) => err == Some(ParsingErr(line, msg)) && State() == old(State())
        case Success(s') => err == None && State() == s'
    {
      if |args| > 1 || |assgns| > 1 {
        return Some(ParsingErr(line, MultiAssignMsg));
      }
      var target := TypeAndAddrOfID(State(), assgns[0]);
      var targetAddr := target.addr;
      if IsIdentifier(args[0]) {
        var src := TypeAndAddrOfID(State(), args[0]);
        if !src.found {
          return Some(ParsingErr(line, UnboundMsg(args[0])));
        }
        if target.found {
          if target.t != src.t {
            return Some(ParsingErr(line, MismatchMsg(args[0], assgns[0])));
          }
        } else {
          targetAddr := NewAlloc(assgns[0], src.t);
        }
        bc := bc.(opAddrs := bc.opAddrs + [CopyFuncInstructionForType(src.t), src.addr, targetAddr]);
      } else {
        if target.found {
          if target.t != RawToType(args[0]) {
            return Some(ParsingErr(line, MismatchMsg(args[0], assgns[0])));
          }
          var lit := TypeAndAddrOfID(State(), args[0]);
          var addr := lit.addr;
          if !lit.found {
            var typ;
            addr, typ := NewAllocInitialize(args[0], args[0]);
          }
          bc := bc.(opAddrs := bc.opAddrs + [CopyFuncInstructionForType(target.t), addr, targetAddr]);
        } else {
          var addr, typ := NewAllocInitialize(assgns[0], args[0]);
        }
      }
      err := None;
    }

    // -------------------------------------------------------------------------
    // Calls

    /** The argument loop of a call: each identifier must be bound, each
        literal is looked up under its own text and interned on first use.
        The types and slots, and the error that stops the loop, are those
        `InternArgs` describes. */
    method ArgSlots(args: seq<string>) returns (err: Option<string>, argTypes: seq<BaseType>, argAddrs: seq<int>)
      requires forall k :: 0 <= k < |args| ==> IsArg(args[k])
      modifies this
      ensures InternArgs(old(State()), args) == Interned(State(), argTypes, argAddrs, err)
    {
      ghost var s0 := State();
      argTypes, argAddrs := [], [];
      var i := 0;
      while i < |args|
        invariant i <= |args|
        invariant InternArgs(s0, args[..i]) == Interned(State(), argTypes, argAddrs, None)
      {
        var arg := args[i];
        assert args[..i + 1][..i] == args[..i];
        if IsIdentifier(arg) {
          var b := TypeAndAddrOfID(State(), arg);
          if !b.found {
            err := Some(UnboundMsg(arg));
            InternArgsStops(s0, args, i + 1);
            return;
          }
          argTypes, argAddrs := argTypes + [b.t], argAddrs + [b.addr];
        } else {
          var b := TypeAndAddrOfID(State(), arg);
          var typ, addr := b.t, b.addr;
          if !b.found {
            addr, typ := NewAllocInitialize(arg, arg);
          }
          argTypes, argAddrs := argTypes + [typ], argAddrs + [addr];
        }
        i := i + 1;
      }
      assert args[..i] == args;
      err := None;
    }

    /** The target loop of a call: each target's type and slot, the
        wildcard and -1 for an unbound one. */
    method TargetSlots(assgns: seq<string>) returns (assgnTypes: seq<BaseType>, assgnAddrs: seq<int>)
      ensures assgnTypes == TypesOf(State(), assgns) && assgnAddrs == AddrsOf(State(), assgns)
    {
      assgnTypes, assgnAddrs := [], [];
      var i := 0;
      while i < |assgns|
        invariant i <= |assgns|
        invariant assgnTypes == TypesOf(State(), assgns[..i]) && assgnAddrs == AddrsOf(State(), assgns[..i])
      {
        assert assgns[..i + 1][..i] == assgns[..i];
        var b := TypeAndAddrOfID(State(), assgns[i]);
        var typ, addr := b.t, b.addr;
        if !b.found {
          typ, addr := Any, -1;
        }
        assgnTypes, assgnAddrs := assgnTypes + [typ], assgnAddrs + [addr];
        i := i + 1;
      }
      assert assgns[..i] == assgns;
    }

    /** Once an overload is chosen, each unbound target gets a fresh slot of
        the overload's output type, as `BindTargets` describes. */
    method AllocTargets(outT: seq<BaseType>, assgns: seq<string>, assgnTypes: seq<BaseType>, assgnAddrs: seq<int>)
      returns (addrs: seq<int>)
      requires |assgns| == |outT| && |assgnTypes| == |outT| && |assgnAddrs| == |outT|
      modifies this
      ensures (State(), addrs) == BindTargets(old(State()), outT, assgns, assgnTypes, assgnAddrs, |outT|)
    {
      ghost var s0 := State();
      addrs := assgnAddrs;
      var i := 0;
      while i < |outT|
        invariant i <= |outT|
        invariant (State(), addrs) == BindTargets(s0, outT, assgns, assgnTypes, assgnAddrs, i)
      {
        if assgnTypes[i] != Any {
          i := i + 1;
          continue;
        }
        var addr := NewAlloc(assgns[i], outT[i]);
        addrs := addrs[i := addr];
        i := i + 1;
      }
    }

    /** A line with an operation: the overloads of `op` in `lib`, the
        argument and target loops, the first matching overload, then the
        window `[opcode] + argument slots + target slots`; on an error the
        message carries the line.  The new state and the error are those
        `CallEffect` describes. */
    method Call(op: string, lib: map<string, seq<Overload>>, assgns: seq<string>, args: seq<string>, line: int)
      returns (err: Option<string>)
      requires op in lib
      requires forall k :: 0 <= k < |args| ==> IsArg(args[k])
      modifies this
      ensures var (s', e) := CallEffect(old(State()), op, lib[op], assgns, args);
        State() == s' && err == (if e.Some? then Some(ParsingErr(line, e.value)) else None)
    {
      var funcs := lib[op];
      ghost var r := InternArgs(State(), args);
      var e, argTypes, argAddrs := ArgSlots(args);
      if e.Some? {
        return Some(ParsingErr(line, e.value));
      }
      var assgnTypes, assgnAddrs := TargetSlots(assgns);
      var found, k := Resolve(funcs, argTypes, assgnTypes);
      if !found {
        return Some(ParsingErr(line, NoMatchMsg(op)));
      }
      EmitCall(funcs[k], argAddrs, assgns, assgnTypes, assgnAddrs);
      err := None;
    }

    /** The chosen overload at work: bind the unbound targets, then append
        the window `[opcode] + argument slots + target slots`, as `Emit`
        describes. */
    method EmitCall(fun: Overload, argAddrs: seq<int>, assgns: seq<string>, assgnTypes: seq<BaseType>,
                    assgnAddrs: seq<int>)
      requires |fun.outT| == |assgns|
      requires assgnTypes == TypesOf(State(), assgns) && assgnAddrs == AddrsOf(State(), assgns)
      modifies this
      ensures State() == Emit(old(State()), fun, argAddrs, assgns)
    {
      ghost var b := BindTargets(State(), fun.outT, assgns, assgnTypes, assgnAddrs, |assgns|);
      var assgnSlots := AllocTargets(fun.outT, assgns, assgnTypes, assgnAddrs);
      bc := bc.(opAddrs := bc.opAddrs + [fun.addr]);
      bc := bc.(opAddrs := bc.opAddrs + argAddrs);
      bc := bc.(opAddrs := bc.opAddrs + assgnSlots);
      assert bc.opAddrs == b.0.bc.opAddrs + ([fun.addr] + argAddrs + b.1);
    }

    // -------------------------------------------------------------------------
    // Lines

    /** One line of the program: scan its fields, then compile the statement
        they form, as `LineEffect` describes.  The compiler's invariant holds
        after every line, whether it compiles or not. */
    method ParseLine(text: string, line: int, lib: map<string, seq<Overload>>, bools: bool) returns (err: Option<string>)
      modifies this
      ensures (State(), err) == LineEffect(old(State()), text, line, lib, bools)
      ensures old(Valid()) && LibOk(lib) && Consistent(lib, table) ==> Valid()
    {
      ghost var s0 := State();
      var fields := Fields(text);
      var r := ScanLine(lib.Keys, bools, fields);
      if r.Failure? {
        return Some(ParsingErr(line, r.error));
      }
      var st := r.value;
      StartSound(lib.Keys);
      ScanSound(lib.Keys, bools, fields, 0, Start());
      assert LineEffect(s0, text, line, lib, bools) == StatementEffect(s0, st, line, lib);
      if st.op == "" && |st.args| > 0 && |st.assgns| > 0 {
        err := Assign(st.assgns, st.args, line);
      } else if st.op != "" {
        err := Call(st.op, lib, st.assgns, st.args, line);
      } else {
        err := None;
      }
      if Ok(table, s0) && CopiesAt(table) && LibOk(lib) && Consistent(lib, table) {
        LineOk(table, s0, text, line, lib, bools);
      }
    }

    /** The loop of `Parse` over the lines of the program, numbered from 1:
        each line in turn, until the first error. */
    method ParseLines(lines: seq<string>, lib: map<string, seq<Overload>>, bools: bool) returns (err: Option<string>)
      modifies this
      ensures (State(), err) == CompileFrom(old(State()), lines, 0, lib, bools)
    {
      var i := 0;
      while i < |lines|
        invariant i <= |lines|
        invariant CompileFrom(State(), lines, i, lib, bools) == CompileFrom(old(State()), lines, 0, lib, bools)
      {
        var e := ParseLine(lines[i], i + 1, lib, bools);
        if e.Some? {
          return e;
        }
        i := i + 1;
      }
      return None;
    }
  }

  /** `Parse`: compile the lines of a program in order, numbering them from
      1, against the registry after `init`; stop at the first error.  The
      bytecode (complete, or as far as the failing line left it) and the
      error are those `CompileFrom` describes, the bytecode is well-formed
      for the registry's dispatch table, and an error names a line of the
      program. */
  method Parse(lines: seq<string>, lib: map<string, seq<Overload>>) returns (bc: Program, err: Option<string>)
    requires Initialized(lib)
    ensures (bc, err) == (CompileFrom(Empty(), lines, 0, lib, true).0.bc, CompileFrom(Empty(), lines, 0, lib, true).1)
    ensures WellFormed(RegistryTable(), bc)
    ensures err.Some? ==> exists l: int, msg: string :: 0 < l <= |lines| && err == Some(ParsingErr(l, msg))
  {
    CopyOpcodes();
    var p := new Parser(RegistryTable());
    err := p.ParseLines(lines, lib, true);
    bc := p.bc;
    CompileWellFormed(lines, lib);
  }
}
