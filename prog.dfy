/** The older revision (main.go): one `Prog` record holds the compiler's
    symbol tables, the bytecode, the overload table `FuncIDImpls` and the
    dispatch table `FuncAddrs`.  It knows two value types, integers and
    strings; its compiler is the current one with `True` and `False` not
    literals, and its run loop is the current one with the `+1` of every
    window moved out of the handlers and `Pos` reset to 0 at the end. */
module Older {
  import opened Text
  import opened Isa
  import opened Registry
  import opened Tables
  import opened Scanner
  import opened Compile
  import Parser
  import Vm

  /** `Prelude`: `+` on two integers or two strings, `-`, `*` and `/` on
      two integers, each with one output; no opcodes yet. */
  function Prelude(): (lib: map<string, seq<Overload>>)
    ensures lib.Keys == {"+", "*", "/", "-"}
  {
    map[
      "+" := [IntOverload(Add), Overload([Str, Str], [Str], Concat, 0)],
      "*" := [IntOverload(Mul)],
      "/" := [IntOverload(Quo)],
      "-" := [IntOverload(Sub)]
    ]
  }

  /** The prelude's integer overload of `op`; its opcode is assigned later. */
  function IntOverload(op: IntOp): Overload {
    Overload([Int, Int], [Int], Arith(op), 0)
  }

  /** `internalOps`: the integer and string copies, opcodes 0 and 1. */
  const InternalOps: seq<Handler> := [Copy(Int), Copy(Str)]

  /** The revision's types: no overload mentions `Bool`. */
  ghost predicate TwoTyped(lib: map<string, seq<Overload>>) {
    forall n, i :: n in lib && 0 <= i < |lib[n]| ==> Bool !in lib[n][i].inT && Bool !in lib[n][i].outT
  }

  /** Every prelude overload is typed as its handler, the overloads of a
      name are told apart by their input types, and every window is four
      wide: the opcode, two inputs and one output. */
  lemma PreludeOk()
    ensures LibOk(Prelude()) && Unambiguous(Prelude()) && TwoTyped(Prelude())
    ensures forall n, i :: n in Prelude() && 0 <= i < |Prelude()[n]| ==>
      |Prelude()[n][i].inT| == 2 && |Prelude()[n][i].outT| == 1 && Width(Prelude()[n][i].f) == 4
  {
    var lib := Prelude();
    PlusEntryOk();
    forall n | n in lib
      ensures PreludeEntryOk(lib[n])
    {
      if n != "+" {
        var op := if n == "*" then Mul else if n == "/" then Quo else Sub;
        assert lib[n] == [IntOverload(op)];
        IntEntryOk(op);
      }
    }
  }

  lemma IntEntryOk(op: IntOp)
    ensures PreludeEntryOk([IntOverload(op)])
  {
  }

  lemma PlusEntryOk()
    ensures PreludeEntryOk(Prelude()["+"])
  {
    var fs := Prelude()["+"];
    assert fs == [IntOverload(Add), Overload([Str, Str], [Str], Concat, 0)];
    assert fs[0].inT != fs[1].inT by {
      assert fs[0].inT[0] == Int && fs[1].inT[0] == Str;
    }
  }

  /** One name's prelude overloads: typed as their handlers, told apart by
      their inputs, free of `Bool` and four wide. */
  ghost predicate PreludeEntryOk(fs: seq<Overload>) {
    && OverloadsUnambiguous(fs)
    && forall i :: 0 <= i < |fs| ==>
      && OverloadOk(fs[i]) && Bool !in fs[i].inT && Bool !in fs[i].outT
      && |fs[i].inT| == 2 && |fs[i].outT| == 1 && Width(fs[i].f) == 4
  }

  /** A copy's window is three wide: the opcode, the source and the target. */
  lemma InternalWidths()
    ensures forall k :: 0 <= k < |InternalOps| ==> IsTyped(InternalOps[k]) && Width(InternalOps[k]) == 3
  {
  }

  // ---------------------------------------------------------------------------
  // AddOps

  /** The dispatch table `AddOps` starts from: the internal copies when it
      is empty. */
  function Installed(addrs: seq<Handler>): (r: seq<Handler>)
    ensures addrs == [] ==> r == InternalOps
    ensures addrs != [] ==> r == addrs
  {
    if addrs == [] then InternalOps else addrs
  }

  /** The overloads a name already has, if any. */
  function Existing(impls: map<string, seq<Overload>>, name: string): seq<Overload> {
    if name in impls then impls[name] else []
  }

  /** The loop of `AddOps` over the names of `ops` in `order` (the order the
      map hands them out): each name's overloads take the next opcodes, their
      handlers are appended to the dispatch table, and they are appended to
      the overloads the name already has. */
  function AddAll(impls: map<string, seq<Overload>>, addrs: seq<Handler>,
                  ops: map<string, seq<Overload>>, order: seq<string>): (map<string, seq<Overload>>, seq<Handler>)
    requires forall k :: 0 <= k < |order| ==> order[k] in ops
    decreases |order|
  {
    if order == [] then (impls, addrs)
    else
      var name := order[0];
      AddAll(impls[name := Existing(impls, name) + Numbered(ops[name], |addrs|)],
             addrs + HandlersOf(ops[name]), ops, order[1..])
  }

  /** `AddOps` only adds: the dispatch table keeps its entries, every name
      keeps its overloads in front of the new ones, and the names are the old
      ones and those of `ops`. */
  lemma {:induction false} AddAllGrows(impls: map<string, seq<Overload>>, addrs: seq<Handler>,
                                       ops: map<string, seq<Overload>>, order: seq<string>)
    requires forall k :: 0 <= k < |order| ==> order[k] in ops
    ensures var (impls', addrs') := AddAll(impls, addrs, ops, order);
      && addrs <= addrs'
      && (forall n :: n in impls' <==> n in impls || n in order)
      && (forall n :: n in impls ==> impls[n] <= impls'[n])
    decreases |order|
  {
    if order != [] {
      var name := order[0];
      var impls1 := impls[name := Existing(impls, name) + Numbered(ops[name], |addrs|)];
      var addrs1 := addrs + HandlersOf(ops[name]);
      AddAllGrows(impls1, addrs1, ops, order[1..]);
      assert forall n :: n in order <==> n == name || n in order[1..];
      assert forall n :: n in impls ==> impls[n] <= impls1[n];
    }
  }

  /** One name's turn keeps every overload's opcode pointing at its own
      handler: the new ones get the slots their handlers are appended to. */
  lemma AddOneConsistent(impls: map<string, seq<Overload>>, addrs: seq<Handler>, name: string, fs: seq<Overload>)
    requires Consistent(impls, addrs)
    ensures Consistent(impls[name := Existing(impls, name) + Numbered(fs, |addrs|)], addrs + HandlersOf(fs))
  {
    var impls1: map<string, seq<Overload>> := impls[name := Existing(impls, name) + Numbered(fs, |addrs|)];
    var addrs1: seq<Handler> := addrs + HandlersOf(fs);
    forall n: string, i: int | n in impls1 && 0 <= i < |impls1[n]|
      ensures 0 <= impls1[n][i].addr < |addrs1| && addrs1[impls1[n][i].addr] == impls1[n][i].f
    {
      var e := |Existing(impls, name)|;
      if n != name {
        assert impls1[n][i] == impls[n][i];
      } else if i < e {
        assert impls1[n][i] == impls[n][i];
      } else {
        NumberedAt(fs, |addrs|, i - e);
        HandlersAt(fs, i - e);
      }
    }
  }

  /** After `AddOps`, `FuncAddrs[f.addr]` is the handler of every overload
      `f`, the old ones and the new ones. */
  lemma {:induction false} AddAllConsistent(impls: map<string, seq<Overload>>, addrs: seq<Handler>,
                                            ops: map<string, seq<Overload>>, order: seq<string>)
    requires forall k :: 0 <= k < |order| ==> order[k] in ops
    requires Consistent(impls, addrs)
    ensures Consistent(AddAll(impls, addrs, ops, order).0, AddAll(impls, addrs, ops, order).1)
    decreases |order|
  {
    if order != [] {
      var name := order[0];
      AddOneConsistent(impls, addrs, name, ops[name]);
      AddAllConsistent(impls[name := Existing(impls, name) + Numbered(ops[name], |addrs|)],
                       addrs + HandlersOf(ops[name]), ops, order[1..]);
    }
  }

  /** Opcodes aside, the overloads `AddOps` stores are those it was given:
      typed as their handlers, and free of `Bool`, when they were. */
  lemma AddOneKeepsTypes(impls: map<string, seq<Overload>>, name: string, fs: seq<Overload>, start: int)
    ensures var impls1 := impls[name := Existing(impls, name) + Numbered(fs, start)];
      && (LibOk(impls) && (forall i :: 0 <= i < |fs| ==> OverloadOk(fs[i])) ==> LibOk(impls1))
      && (TwoTyped(impls) && TwoTyped(map[name := fs]) ==> TwoTyped(impls1))
  {
    var impls1 := impls[name := Existing(impls, name) + Numbered(fs, start)];
    var e := |Existing(impls, name)|;
    forall i | e <= i < |impls1[name]|
      ensures impls1[name][i] == fs[i - e].(addr := start + i - e)
    {
      NumberedAt(fs, start, i - e);
    }
    assert forall i :: 0 <= i < e ==> impls1[name][i] == impls[name][i];
    if TwoTyped(impls) && TwoTyped(map[name := fs]) {
      forall n, i | n in impls1 && 0 <= i < |impls1[n]|
        ensures Bool !in impls1[n][i].inT && Bool !in impls1[n][i].outT
      {
        if n == name && i >= e {
          assert fs[i - e] == map[name := fs][name][i - e];
        }
      }
    }
  }

  lemma {:induction false} AddAllKeepsTypes(impls: map<string, seq<Overload>>, addrs: seq<Handler>,
                                            ops: map<string, seq<Overload>>, order: seq<string>)
    requires forall k :: 0 <= k < |order| ==> order[k] in ops
    ensures LibOk(impls) && LibOk(ops) ==> LibOk(AddAll(impls, addrs, ops, order).0)
    ensures TwoTyped(impls) && TwoTyped(ops) ==> TwoTyped(AddAll(impls, addrs, ops, order).0)
    decreases |order|
  {
    if order != [] {
      var name := order[0];
      AddOneKeepsTypes(impls, name, ops[name], |addrs|);
      assert TwoTyped(ops) ==> TwoTyped(map[name := ops[name]]);
      AddAllKeepsTypes(impls[name := Existing(impls, name) + Numbered(ops[name], |addrs|)],
                       addrs + HandlersOf(ops[name]), ops, order[1..]);
    }
  }

  /** The prelude added to an empty `Prog`, in any map order: the copies
      stay at opcodes 0 and 1, every overload's opcode names its handler,
      every overload is typed as its handler and free of `Bool`, and the
      operation names are those of the prelude. */
  lemma PreludeInstalled(order: seq<string>)
    requires NoDup(order) && forall n :: n in order <==> n in Prelude()
    ensures var (impls, addrs) := AddAll(map[], Installed([]), Prelude(), order);
      && |addrs| >= 2 && addrs[..2] == InternalOps
      && Consistent(impls, addrs) && LibOk(impls) && TwoTyped(impls)
      && impls.Keys == Prelude().Keys
  {
    var r := AddAll(map[], Installed([]), Prelude(), order);
    AddAllGrows(map[], InternalOps, Prelude(), order);
    AddAllConsistent(map[], InternalOps, Prelude(), order);
    PreludeOk();
    AddAllKeepsTypes(map[], InternalOps, Prelude(), order);
    assert InternalOps <= r.1;
  }

  // ---------------------------------------------------------------------------
  // The record

  class Prog {
    var pos: int
    var opAddrs: seq<int>
    var ints: seq<int>
    var strs: seq<string>
    var intIDAddr: map<string, int>
    var strIDAddr: map<string, int>
    var funcIDImpls: map<string, seq<Overload>>
    var funcAddrs: seq<Handler>

    /** The compiler's view of the record: no booleans, ever. */
    function Compiler(): State
      reads this
    {
      State(Program(opAddrs, ints, strs, []), intIDAddr, strIDAddr, map[])
    }

    /** The run loop's view of the record. */
    function RunState(): Machine
      reads this
    {
      Machine(opAddrs, ints, strs, [], pos)
    }

    /** A record with empty tables. */
    constructor ()
      ensures pos == 0 && opAddrs == [] && ints == [] && strs == []
      ensures intIDAddr == map[] && strIDAddr == map[] && funcIDImpls == map[] && funcAddrs == []
    {
      pos, opAddrs, ints, strs := 0, [], [], [];
      intIDAddr, strIDAddr, funcIDImpls, funcAddrs := map[], map[], map[], [];
    }

    /** `AddOps`: install the copies if the dispatch table is empty, then
        add the overloads of `ops` name by name in `order`, every key of
        `ops` once.  It always reports success. */
    method AddOps(ops: map<string, seq<Overload>>, order: seq<string>) returns (err: Option<string>)
      requires NoDup(order) && forall n :: n in order <==> n in ops
      modifies this
      ensures err == None
      ensures (funcIDImpls, funcAddrs) == AddAll(old(funcIDImpls), Installed(old(funcAddrs)), ops, order)
      ensures Compiler() == old(Compiler()) && pos == old(pos)
    {
      if |funcAddrs| == 0 {
        funcAddrs := InternalOps;
      }
      ghost var impls0, addrs0 := funcIDImpls, funcAddrs;
      var k := 0;
      while k < |order|
        invariant 0 <= k <= |order|
        invariant AddAll(funcIDImpls, funcAddrs, ops, order[k..]) == AddAll(impls0, addrs0, ops, order)
        invariant Compiler() == old(Compiler()) && pos == old(pos)
      {
        var opName := order[k];
        ghost var impls1, addrs1 := funcIDImpls, funcAddrs;
        var opFuncs := NumberOps(ops[opName]);
        if opName in funcIDImpls {
          funcIDImpls := funcIDImpls[opName := funcIDImpls[opName] + opFuncs];
        } else {
          assert [] + opFuncs == opFuncs;
          funcIDImpls := funcIDImpls[opName := opFuncs];
        }
        assert funcIDImpls == impls1[opName := Existing(impls1, opName) + Numbered(ops[opName], |addrs1|)];
        assert order[k..][0] == opName && order[k..][1..] == order[k + 1..];
        k := k + 1;
      }
      assert order[k..] == [];
      err := None;
    }

    /** The inner loop of `AddOps`: each overload of one name gets the next
        opcode and its handler is appended to the dispatch table. */
    method NumberOps(opFuncs: seq<Overload>) returns (numbered: seq<Overload>)
      modifies this
      ensures funcAddrs == old(funcAddrs) + HandlersOf(opFuncs)
      ensures numbered == Numbered(opFuncs, |old(funcAddrs)|)
      ensures funcIDImpls == old(funcIDImpls) && Compiler() == old(Compiler()) && pos == old(pos)
    {
      numbered := opFuncs;
      ghost var start := |funcAddrs|;
      var i := 0;
      while i < |numbered|
        invariant 0 <= i <= |numbered| == |opFuncs|
        invariant funcAddrs == old(funcAddrs) + HandlersOf(opFuncs[..i])
        invariant numbered == Numbered(opFuncs[..i], start) + opFuncs[i..]
        invariant funcIDImpls == old(funcIDImpls) && Compiler() == old(Compiler()) && pos == old(pos)
      {
        var opFunc := numbered[i];
        opFunc := opFunc.(addr := |funcAddrs|);
        funcAddrs := funcAddrs + [opFunc.f];
        numbered := numbered[i := opFunc];
        NumberedSnoc(opFuncs, i, start);
        i := i + 1;
      }
      assert opFuncs[..i] == opFuncs;
    }

    /** `Run`, cut off after `fuel` dispatches: each dispatch is the
        handler (which moves `Pos` past all but the last slot of its window)
        followed by the loop's `Pos += 1`, which together make the window
        semantics of `RunSpec`; a run that halts leaves `Pos` at 0, so the
        program can be run again. */
    method Run(fuel: nat) returns (o: Outcome)
      modifies this
      ensures var (o', m) := RunSpec(old(funcAddrs), old(RunState()), fuel);
        && o == o' && opAddrs == old(opAddrs) && ints == m.ints && strs == m.strs
        && pos == (if o == Halted then 0 else m.pos)
      ensures funcAddrs == old(funcAddrs) && funcIDImpls == old(funcIDImpls)
      ensures intIDAddr == old(intIDAddr) && strIDAddr == old(strIDAddr)
    {
      var b := new Vm.Bytecode(Program(opAddrs, ints, strs, []));
      b.pos := pos;
      o := b.Run(funcAddrs, fuel);
      RunKeepsOpAddrs(funcAddrs, old(RunState()), fuel);
      ints, strs := b.ints, b.strs;
      pos := if o == Halted then 0 else b.pos;
    }

    /** `Parse`: the lines compiled by the current compiler's rules with
        `True` and `False` not literals, against `FuncIDImpls`, carrying on
        from the record's symbol tables and stream.  A program never gets a
        boolean slot, so the record holds all of the compiler's state. */
    method Parse(lines: seq<string>) returns (err: Option<string>)
      modifies this
      ensures var (s, e) := CompileFrom(old(Compiler()), lines, 0, old(funcIDImpls), false);
        && err == e && opAddrs == s.bc.opAddrs && ints == s.bc.ints && strs == s.bc.strs
        && intIDAddr == s.intIDs && strIDAddr == s.strIDs
      ensures TwoTyped(old(funcIDImpls)) ==>
        Compiler() == CompileFrom(old(Compiler()), lines, 0, old(funcIDImpls), false).0
      ensures pos == old(pos) && funcAddrs == old(funcAddrs) && funcIDImpls == old(funcIDImpls)
    {
      var p := new Parser.Parser.Resume(funcAddrs, Compiler());
      err := p.ParseLines(lines, funcIDImpls, false);
      opAddrs, ints, strs := p.bc.opAddrs, p.bc.ints, p.bc.strs;
      intIDAddr, strIDAddr := p.intIDAddr, p.strIDAddr;
      if TwoTyped(funcIDImpls) {
        CompileNoBools(old(Compiler()), lines, 0, funcIDImpls);
      }
    }
  }

  // ---------------------------------------------------------------------------
  // No booleans

  predicate NoBools(s: State) {
    s.boolIDs == map[] && s.bc.bools == []
  }

  predicate NoBoolArgs(st: ScanState) {
    forall k :: 0 <= k < |st.args| ==> !IsBool(st.args[k])
  }

  /** `True` and `False` are neither identifiers, integers nor strings. */
  lemma BoolIsNothingElse(f: string)
    requires IsBool(f)
    ensures !IsIdentifier(f) && !IsInt(f) && !IsStringStart(f) && !(|f| > 0 && f[0] == '\'')
  {
    assert f[0] == 'T' || f[0] == 'F';
    assert !IsDigit(f[0]) && Unsigned(f) == f;
  }

  lemma OlderStepNoBools(ops: set<string>, first: bool, st: ScanState, field: string)
    requires Sound(ops, st) && NoBoolArgs(st) && Step(ops, false, first, st, field).Success?
    ensures NoBoolArgs(Step(ops, false, first, st, field).value)
  {
    var r := Step(ops, false, first, st, field).value;
    if IsBool(field) {
      BoolIsNothingElse(field);
    }
    if st.buildingStr && IsStringEnd(field) {
      var s := st.buildStr + " " + field;
      assert s[0] == '\'';
      if IsBool(s) {
        BoolIsNothingElse(s);
      }
      assert r.args == st.args + [s];
    }
  }

  /** The older loop never yields `True` or `False` as an argument. */
  lemma {:induction false} OlderScanNoBools(ops: set<string>, fields: seq<string>, i: nat, st: ScanState)
    requires i <= |fields| && Sound(ops, st) && NoBoolArgs(st) && Scan(ops, false, fields, i, st).Success?
    ensures NoBoolArgs(Scan(ops, false, fields, i, st).value)
    decreases |fields| - i
  {
    if i < |fields| && !IsComment(fields[i]) {
      StepSound(ops, false, i == 0, st, fields[i]);
      OlderStepNoBools(ops, i == 0, st, fields[i]);
      OlderScanNoBools(ops, fields, i + 1, Step(ops, false, i == 0, st, fields[i]).value);
    }
  }

  lemma BindingNotBool(s: State, id: string)
    requires NoBools(s)
    ensures TypeAndAddrOfID(s, id).t != Bool
  {
  }

  lemma LiteralNotBool(raw: string)
    requires IsArg(raw) && !IsIdentifier(raw) && !IsBool(raw)
    ensures IsLiteral(raw) && RawToType(raw) != Bool && TypeOf(LiteralValue(raw)) == RawToType(raw)
  {
  }

  lemma AssignmentNoBools(s: State, target: string, arg: string)
    requires NoBools(s) && IsArg(arg) && !IsBool(arg)
    ensures Assignment(s, target, arg).Success? ==> NoBools(Assignment(s, target, arg).value)
  {
    BindingNotBool(s, arg);
    BindingNotBool(s, target);
    if !IsIdentifier(arg) {
      LiteralNotBool(arg);
    }
  }

  lemma {:induction false} InternArgsNoBools(s: State, args: seq<string>)
    requires NoBools(s)
    requires forall k :: 0 <= k < |args| ==> IsArg(args[k]) && !IsBool(args[k])
    ensures NoBools(InternArgs(s, args).s)
  {
    if args != [] {
      var prev := args[..|args| - 1];
      var a := args[|args| - 1];
      InternArgsNoBools(s, prev);
      if !IsIdentifier(a) {
        LiteralNotBool(a);
      }
    }
  }

  lemma {:induction false} BindTargetsNoBools(s: State, outT: seq<BaseType>, assgns: seq<string>,
                                              types: seq<BaseType>, addrs: seq<int>, n: nat)
    requires n <= |outT| && |assgns| == |outT| && |types| == |outT| && |addrs| == |outT|
    requires NoBools(s) && Bool !in outT
    ensures NoBools(BindTargets(s, outT, assgns, types, addrs, n).0)
  {
    if n > 0 {
      BindTargetsNoBools(s, outT, assgns, types, addrs, n - 1);
    }
  }

  lemma CallNoBools(s: State, op: string, funcs: seq<Overload>, assgns: seq<string>, args: seq<string>)
    requires NoBools(s)
    requires forall i :: 0 <= i < |funcs| ==> Bool !in funcs[i].outT
    requires forall k :: 0 <= k < |args| ==> IsArg(args[k]) && !IsBool(args[k])
    ensures NoBools(CallEffect(s, op, funcs, assgns, args).0)
  {
    var r := InternArgs(s, args);
    InternArgsNoBools(s, args);
    if r.err.None? {
      var k := FirstMatch(funcs, r.types, TypesOf(r.s, assgns));
      if k < |funcs| {
        var f := funcs[k];
        BindTargetsNoBools(r.s, f.outT, assgns, TypesOf(r.s, assgns), AddrsOf(r.s, assgns), |assgns|);
      }
    }
  }

  lemma StatementNoBools(s: State, st: ScanState, line: int, lib: map<string, seq<Overload>>)
    requires Sound(lib.Keys, st) && NoBoolArgs(st) && NoBools(s) && TwoTyped(lib)
    ensures NoBools(StatementEffect(s, st, line, lib).0)
  {
    if st.op == "" && |st.args| > 0 && |st.assgns| > 0 {
      if |st.args| == 1 && |st.assgns| == 1 {
        AssignmentNoBools(s, st.assgns[0], st.args[0]);
      }
    } else if st.op != "" {
      CallNoBools(s, st.op, lib[st.op], st.assgns, st.args);
    }
  }

  lemma LineNoBools(s: State, text: string, line: int, lib: map<string, seq<Overload>>)
    requires NoBools(s) && TwoTyped(lib)
    ensures NoBools(LineEffect(s, text, line, lib, false).0)
  {
    var fields := Fields(text);
    var r := Scan(lib.Keys, false, fields, 0, Start());
    if r.Success? {
      StartSound(lib.Keys);
      ScanSound(lib.Keys, false, fields, 0, Start());
      OlderScanNoBools(lib.Keys, fields, 0, Start());
      StatementNoBools(s, r.value, line, lib);
    }
  }

  /** The older compiler, from a state without booleans and with a table
      free of `Bool`, never binds a boolean name or allocates a boolean
      slot. */
  lemma {:induction false} CompileNoBools(s: State, lines: seq<string>, i: nat, lib: map<string, seq<Overload>>)
    requires i <= |lines| && NoBools(s) && TwoTyped(lib)
    ensures NoBools(CompileFrom(s, lines, i, lib, false).0)
    decreases |lines| - i
  {
    if i < |lines| {
      var r := LineEffect(s, lines[i], i + 1, lib, false);
      LineNoBools(s, lines[i], i + 1, lib);
      if r.1.None? {
        CompileNoBools(r.0, lines, i + 1, lib);
        assert CompileFrom(s, lines, i, lib, false) == CompileFrom(r.0, lines, i + 1, lib, false);
      }
    }
  }
}
