/** The virtual machine of the current revision (vm.go): the hand-numbered
    dispatch table `funcAddrs` and `Run`, which dispatches on the opcode at
    `pos` until `pos` passes the end of `OpAddrs`.  The `Bytecode` record is
    a class whose fields the handlers update in place; every method is
    proved to do what `Next` and `RunSpec` describe. */
module Vm {
  import opened Isa
  import opened Registry
  import opened Windows

  /** vm.go's `funcAddrs`, opcode by opcode.  It agrees with the table
      baselib.go's `init` builds up to opcode 17 only: here 18 is `goto`, 19
      is `if`, 20 to 22 print and 23 is `||`. */
  function VmTable(): (t: seq<Handler>)
    ensures |t| == 24
  {
    [ Copy(Int), Copy(Str), Copy(Bool),
      IntCmp(Ne), StrNe, Arith(Rem), And, Arith(Mul), Arith(Add), Concat, Arith(Sub), Arith(Quo),
      IntCmp(Lt), IntCmp(Le), IntCmp(Eq), StrEq, IntCmp(Gt), IntCmp(Ge),
      Goto, If,
      Print(Str), Print(Int), Print(Bool),
      Or ]
  }

  // ---------------------------------------------------------------------------
  // The windows of the three shapes

  /** A one-operand window (`print`): the opcode and one address in range. */
  lemma WindowOfOne(h: Handler, m: Machine)
    requires |Operands(h)| == 1
    ensures WindowInBounds(h, m) <==>
      0 <= m.pos && m.pos + 2 <= |m.opAddrs| && InBounds(m.Data(), Operands(h)[0], m.opAddrs[m.pos + 1])
  {
  }

  /** A two-operand window (a copy). */
  lemma WindowOfTwo(h: Handler, m: Machine)
    requires |Operands(h)| == 2
    ensures WindowInBounds(h, m) <==>
      && 0 <= m.pos && m.pos + 3 <= |m.opAddrs|
      && InBounds(m.Data(), Operands(h)[0], m.opAddrs[m.pos + 1])
      && InBounds(m.Data(), Operands(h)[1], m.opAddrs[m.pos + 2])
  {
    if 0 <= m.pos && m.pos + 3 <= |m.opAddrs|
       && InBounds(m.Data(), Operands(h)[0], m.opAddrs[m.pos + 1])
       && InBounds(m.Data(), Operands(h)[1], m.opAddrs[m.pos + 2]) {
      forall j | 0 <= j < 2 ensures InBounds(m.Data(), Operands(h)[j], m.opAddrs[m.pos + 1 + j]) {
        if j == 1 {
          assert m.opAddrs[m.pos + 1 + j] == m.opAddrs[m.pos + 2];
        }
      }
    }
  }

  /** A three-operand window (a binary operation). */
  lemma WindowOfThree(h: Handler, m: Machine)
    requires |Operands(h)| == 3
    ensures WindowInBounds(h, m) <==>
      && 0 <= m.pos && m.pos + 4 <= |m.opAddrs|
      && InBounds(m.Data(), Operands(h)[0], m.opAddrs[m.pos + 1])
      && InBounds(m.Data(), Operands(h)[1], m.opAddrs[m.pos + 2])
      && InBounds(m.Data(), Operands(h)[2], m.opAddrs[m.pos + 3])
  {
    if && 0 <= m.pos && m.pos + 4 <= |m.opAddrs|
       && InBounds(m.Data(), Operands(h)[0], m.opAddrs[m.pos + 1])
       && InBounds(m.Data(), Operands(h)[1], m.opAddrs[m.pos + 2])
       && InBounds(m.Data(), Operands(h)[2], m.opAddrs[m.pos + 3]) {
      forall j | 0 <= j < 3 ensures InBounds(m.Data(), Operands(h)[j], m.opAddrs[m.pos + 1 + j]) {
        if j == 1 {
          assert m.opAddrs[m.pos + 1 + j] == m.opAddrs[m.pos + 2];
        } else if j == 2 {
          assert m.opAddrs[m.pos + 1 + j] == m.opAddrs[m.pos + 3];
        }
      }
    }
  }

  // ---------------------------------------------------------------------------
  // What each kind of handler does

  /** A copy sets the destination slot to the source slot in its typed
      array, advances `pos` by 3 and changes nothing else; an address out of
      range faults. */
  lemma CopySemantics(table: seq<Handler>, m: Machine)
    requires 0 <= m.pos < |m.opAddrs| && 0 <= m.opAddrs[m.pos] < |table|
    requires table[m.opAddrs[m.pos]].Copy?
    ensures var t := table[m.opAddrs[m.pos]].t;
      if m.pos + 3 <= |m.opAddrs| && InBounds(m.Data(), t, m.opAddrs[m.pos + 1]) && InBounds(m.Data(), t, m.opAddrs[m.pos + 2])
      then
        var src, dst := m.opAddrs[m.pos + 1], m.opAddrs[m.pos + 2];
        Next(table, m) == Success(m.(
          ints := if t == Int then m.ints[dst := m.ints[src]] else m.ints,
          strs := if t == Str then m.strs[dst := m.strs[src]] else m.strs,
          bools := if t == Bool then m.bools[dst := m.bools[src]] else m.bools,
          pos := m.pos + 3))
      else Next(table, m) == Failure(OutOfRange)
  {
    var h := table[m.opAddrs[m.pos]];
    WindowOfTwo(h, m);
    if WindowInBounds(h, m) {
      assert Inputs(h, m)[0] == Read(m.Data(), h.t, m.opAddrs[m.pos + 1]);
    }
  }

  /** A binary operation writes slot `OpAddrs[pos+3]` of its output array
      with the value it computes from the slots at `pos+1` and `pos+2`,
      advances `pos` by 4 and changes nothing else; `/` and `%` by zero
      fault, and so does an address out of range, except for `&&` and `||`,
      whose second operand may go unread (`LogicSemantics`). */
  lemma BinarySemantics(table: seq<Handler>, m: Machine)
    requires 0 <= m.pos < |m.opAddrs| && 0 <= m.opAddrs[m.pos] < |table|
    requires IsBinary(table[m.opAddrs[m.pos]])
    ensures var h := table[m.opAddrs[m.pos]];
      if !(&& m.pos + 4 <= |m.opAddrs|
           && InBounds(m.Data(), InTypes(h)[0], m.opAddrs[m.pos + 1])
           && InBounds(m.Data(), InTypes(h)[1], m.opAddrs[m.pos + 2])
           && InBounds(m.Data(), OutTypes(h)[0], m.opAddrs[m.pos + 3]))
      then !(h.And? || h.Or?) ==> Next(table, m) == Failure(OutOfRange)
      else
        var a := Read(m.Data(), InTypes(h)[0], m.opAddrs[m.pos + 1]);
        var b := Read(m.Data(), InTypes(h)[1], m.opAddrs[m.pos + 2]);
        if DividesByZero(h, [a, b]) then Next(table, m) == Failure(DivByZero)
        else Next(table, m) == Success(Write(m, OutTypes(h)[0], m.opAddrs[m.pos + 3], Apply(h, [a, b])).(pos := m.pos + 4))
  {
    var h := table[m.opAddrs[m.pos]];
    assert Operands(h) == [InTypes(h)[0], InTypes(h)[1], OutTypes(h)[0]];
    WindowOfThree(h, m);
    if WindowInBounds(h, m) {
      BinaryInputs(h, m);
      if h.And? || h.Or? {
        LogicEffectInBounds(h, m);
      }
    }
  }

  /** An integer operation reads two `Ints` slots and writes a third with
      their sum, difference, product, truncated quotient or remainder; a
      zero divisor for `/` or `%` faults. */
  lemma ArithSemantics(table: seq<Handler>, m: Machine, op: IntOp)
    requires 0 <= m.pos < |m.opAddrs| && 0 <= m.opAddrs[m.pos] < |table|
    requires table[m.opAddrs[m.pos]] == Arith(op)
    ensures
      if !(&& m.pos + 4 <= |m.opAddrs| && 0 <= m.opAddrs[m.pos + 1] < |m.ints|
           && 0 <= m.opAddrs[m.pos + 2] < |m.ints| && 0 <= m.opAddrs[m.pos + 3] < |m.ints|)
      then Next(table, m) == Failure(OutOfRange)
      else
        var a, b := m.ints[m.opAddrs[m.pos + 1]], m.ints[m.opAddrs[m.pos + 2]];
        if (op == Quo || op == Rem) && b == 0 then Next(table, m) == Failure(DivByZero)
        else Next(table, m) == Success(m.(ints := m.ints[m.opAddrs[m.pos + 3] := Arithmetic(op, a, b)], pos := m.pos + 4))
  {
    BinarySemantics(table, m);
  }

  /** An integer comparison reads two `Ints` slots and writes its outcome
      to a `Bools` slot. */
  lemma CompareSemantics(table: seq<Handler>, m: Machine, cmp: Cmp)
    requires 0 <= m.pos < |m.opAddrs| && 0 <= m.opAddrs[m.pos] < |table|
    requires table[m.opAddrs[m.pos]] == IntCmp(cmp)
    ensures
      if !(&& m.pos + 4 <= |m.opAddrs| && 0 <= m.opAddrs[m.pos + 1] < |m.ints|
           && 0 <= m.opAddrs[m.pos + 2] < |m.ints| && 0 <= m.opAddrs[m.pos + 3] < |m.bools|)
      then Next(table, m) == Failure(OutOfRange)
      else
        var a, b := m.ints[m.opAddrs[m.pos + 1]], m.ints[m.opAddrs[m.pos + 2]];
        Next(table, m) == Success(m.(bools := m.bools[m.opAddrs[m.pos + 3] := Comparison(cmp, a, b)], pos := m.pos + 4))
  {
    BinarySemantics(table, m);
  }

  /** String `==` (when `eq`) or `!=` reads two `Strs` slots and writes its
      outcome to a `Bools` slot. */
  lemma StrCompareSemantics(table: seq<Handler>, m: Machine, eq: bool)
    requires 0 <= m.pos < |m.opAddrs| && 0 <= m.opAddrs[m.pos] < |table|
    requires table[m.opAddrs[m.pos]] == if eq then StrEq else StrNe
    ensures
      if !(&& m.pos + 4 <= |m.opAddrs| && 0 <= m.opAddrs[m.pos + 1] < |m.strs|
           && 0 <= m.opAddrs[m.pos + 2] < |m.strs| && 0 <= m.opAddrs[m.pos + 3] < |m.bools|)
      then Next(table, m) == Failure(OutOfRange)
      else
        var a, b := m.strs[m.opAddrs[m.pos + 1]], m.strs[m.opAddrs[m.pos + 2]];
        Next(table, m) == Success(m.(bools := m.bools[m.opAddrs[m.pos + 3] := if eq then a == b else a != b], pos := m.pos + 4))
  {
    BinarySemantics(table, m);
  }

  /** `&&` (when `and`) or `||` reads the `Bools` slot at `pos+1`.  When
      that value decides the result (false for `&&`, true for `||`) it is
      written to the slot at `pos+3` and the slot at `pos+2` is never read;
      otherwise the slot at `pos+2` is read and its value is the result.
      Either way `pos` advances by 4. */
  lemma LogicSemantics(table: seq<Handler>, m: Machine, and: bool)
    requires 0 <= m.pos < |m.opAddrs| && 0 <= m.opAddrs[m.pos] < |table|
    requires table[m.opAddrs[m.pos]] == if and then And else Or
    ensures
      if !(&& m.pos + 4 <= |m.opAddrs| && 0 <= m.opAddrs[m.pos + 1] < |m.bools|
           && 0 <= m.opAddrs[m.pos + 3] < |m.bools|)
      then Next(table, m) == Failure(OutOfRange)
      else
        var a, dst := m.bools[m.opAddrs[m.pos + 1]], m.opAddrs[m.pos + 3];
        if a != and then Next(table, m) == Success(m.(bools := m.bools[dst := a], pos := m.pos + 4))
        else if !(0 <= m.opAddrs[m.pos + 2] < |m.bools|) then Next(table, m) == Failure(OutOfRange)
        else
          var b := m.bools[m.opAddrs[m.pos + 2]];
          && Next(table, m) == Success(m.(bools := m.bools[dst := b], pos := m.pos + 4))
          && b == if and then a && b else a || b
  {
  }

  /** The short circuit at work: `[&&, 0, 5, 0]` on `Bools = [false]` writes
      false and halts, though slot 5 does not exist; so does `[||, 0, 5, 0]`
      on `Bools = [true]`, writing true. */
  lemma ShortCircuitSkipsSecond()
    ensures var m := Machine([6, 0, 5, 0], [], [], [false], 0);
      RunSpec(VmTable(), m, 1) == (Halted, m.(pos := 4))
    ensures var m := Machine([23, 0, 5, 0], [], [], [true], 0);
      RunSpec(VmTable(), m, 1) == (Halted, m.(pos := 4))
  {
    var m := Machine([6, 0, 5, 0], [], [], [false], 0);
    LogicSemantics(VmTable(), m, true);
    assert m.bools[0 := false] == m.bools;
    var n := Machine([23, 0, 5, 0], [], [], [true], 0);
    LogicSemantics(VmTable(), n, false);
    assert n.bools[0 := true] == n.bools;
  }

  /** The handlers that read two inputs and write one output. */
  predicate IsBinary(h: Handler) {
    h.Arith? || h.Concat? || h.IntCmp? || h.StrEq? || h.StrNe? || h.And? || h.Or?
  }

  lemma BinaryInputs(h: Handler, m: Machine)
    requires IsBinary(h) && WindowInBounds(h, m)
    ensures InBounds(m.Data(), InTypes(h)[0], m.opAddrs[m.pos + 1])
    ensures InBounds(m.Data(), InTypes(h)[1], m.opAddrs[m.pos + 2])
    ensures Inputs(h, m) == [Read(m.Data(), InTypes(h)[0], m.opAddrs[m.pos + 1]),
                             Read(m.Data(), InTypes(h)[1], m.opAddrs[m.pos + 2])]
  {
    assert Operands(h)[0] == InTypes(h)[0] && Operands(h)[1] == InTypes(h)[1];
  }

  /** `print` checks its slot, changes no array and advances `pos` by 2. */
  lemma PrintSemantics(table: seq<Handler>, m: Machine)
    requires 0 <= m.pos < |m.opAddrs| && 0 <= m.opAddrs[m.pos] < |table|
    requires table[m.opAddrs[m.pos]].Print?
    ensures var t := table[m.opAddrs[m.pos]].t;
      Next(table, m) ==
        if m.pos + 2 <= |m.opAddrs| && InBounds(m.Data(), t, m.opAddrs[m.pos + 1])
        then Success(m.(pos := m.pos + 2))
        else Failure(OutOfRange)
  {
    WindowOfOne(table[m.opAddrs[m.pos]], m);
  }

  /** `goto` loads `pos` from the `Ints` slot its operand names, not from
      the stream itself, and changes nothing else. */
  lemma GotoSemantics(table: seq<Handler>, m: Machine)
    requires 0 <= m.pos < |m.opAddrs| && 0 <= m.opAddrs[m.pos] < |table|
    requires table[m.opAddrs[m.pos]] == Goto
    ensures Next(table, m) ==
      if m.pos + 1 < |m.opAddrs| && 0 <= m.opAddrs[m.pos + 1] < |m.ints|
      then Success(m.(pos := m.ints[m.opAddrs[m.pos + 1]]))
      else Failure(OutOfRange)
  {
  }

  /** `if` falls through by 3 when its boolean holds and otherwise jumps to
      the offset stored inline at `pos + 2`; nothing else changes. */
  lemma IfSemantics(table: seq<Handler>, m: Machine)
    requires 0 <= m.pos < |m.opAddrs| && 0 <= m.opAddrs[m.pos] < |table|
    requires table[m.opAddrs[m.pos]] == If
    ensures Next(table, m) ==
      if !(m.pos + 1 < |m.opAddrs| && 0 <= m.opAddrs[m.pos + 1] < |m.bools|) then Failure(OutOfRange)
      else if m.bools[m.opAddrs[m.pos + 1]] then Success(m.(pos := m.pos + 3))
      else if m.pos + 2 < |m.opAddrs| then Success(m.(pos := m.opAddrs[m.pos + 2]))
      else Failure(OutOfRange)
  {
  }

  /** The widths of vm.go's handlers: copies 3, binary operations 4, prints
      2; only opcodes 18 and 19 jump. */
  lemma VmWidths(k: nat)
    requires k < 24
    ensures IsJump(VmTable()[k]) <==> k == 18 || k == 19
    ensures !IsJump(VmTable()[k]) ==> IsTyped(VmTable()[k])
    ensures k < 3 ==> Width(VmTable()[k]) == 3
    ensures 20 <= k <= 22 ==> Width(VmTable()[k]) == 2
    ensures 3 <= k < 18 || k == 23 ==> IsBinary(VmTable()[k]) && Width(VmTable()[k]) == 4
  {
  }

  /** Every opcode of vm.go other than 18 and 19 strictly increases `pos`. */
  lemma VmAdvances(m: Machine)
    requires Next(VmTable(), m).Success?
    requires m.opAddrs[m.pos] != 18 && m.opAddrs[m.pos] != 19
    ensures Next(VmTable(), m).value.pos > m.pos
    ensures Next(VmTable(), m).value.opAddrs == m.opAddrs
  {
    VmWidths(m.opAddrs[m.pos]);
    NextAdvancesByWidth(VmTable(), m);
  }

  // ---------------------------------------------------------------------------
  // The record and the run loop

  class Bytecode {
    var opAddrs: seq<int>
    var ints: seq<int>
    var strs: seq<string>
    var bools: seq<bool>
    var pos: int

    function State(): Machine
      reads this
    {
      Machine(opAddrs, ints, strs, bools, pos)
    }

    /** The record as the compiler hands it over, `pos` at 0. */
    constructor (p: Program)
      ensures State() == Machine(p.opAddrs, p.ints, p.strs, p.bools, 0)
    {
      opAddrs, ints, strs, bools := p.opAddrs, p.ints, p.strs, p.bools;
      pos := 0;
    }

    /** `Run` with the dispatch table `funcAddrs`, cut off after `fuel`
        dispatches: the outcome and the final record are those `RunSpec`
        describes. */
    method Run(funcAddrs: seq<Handler>, fuel: nat) returns (o: Outcome)
      modifies this
      ensures (o, State()) == RunSpec(funcAddrs, old(State()), fuel)
    {
      var f := fuel;
      while pos < |opAddrs|
        invariant RunSpec(funcAddrs, State(), f) == RunSpec(funcAddrs, old(State()), fuel)
        decreases f
      {
        if f == 0 {
          return OutOfFuel;
        }
        var fault := Step(funcAddrs);
        if fault.Some? {
          return Faulted(fault.value);
        }
        f := f - 1;
      }
      return Halted;
    }

    /** The record is what one dispatch from `m` makes of it: the next
        machine state, or `m` itself with the fault reported. */
    ghost predicate Stepped(funcAddrs: seq<Handler>, m: Machine, fault: Option<Fault>)
      reads this
    {
      match Next(funcAddrs, m)
      case Success(m') => fault == None && State() == m'
      case Failure(e) => fault == Some(e) && State() == m
    }

    /** One dispatch: the handler `funcAddrs` holds for the opcode at `pos`,
        run on the record.  A panic leaves the record as it was. */
    method Step(funcAddrs: seq<Handler>) returns (fault: Option<Fault>)
      modifies this
      ensures Stepped(funcAddrs, old(State()), fault)
    {
      if !(0 <= pos < |opAddrs|) {
        return Some(OutOfRange);
      }
      var op := opAddrs[pos];
      if !(0 <= op < |funcAddrs|) {
        return Some(OutOfRange);
      }
      match funcAddrs[op]
      case Goto =>
        GotoSemantics(funcAddrs, State());
        if !(pos + 1 < |opAddrs| && 0 <= opAddrs[pos + 1] < |ints|) {
          return Some(OutOfRange);
        }
        pos := ints[opAddrs[pos + 1]];
        fault := None;
      case If =>
        IfSemantics(funcAddrs, State());
        if !(pos + 1 < |opAddrs| && 0 <= opAddrs[pos + 1] < |bools|) {
          return Some(OutOfRange);
        }
        if bools[opAddrs[pos + 1]] {
          pos := pos + 3;
        } else {
          if !(pos + 2 < |opAddrs|) {
            return Some(OutOfRange);
          }
          pos := opAddrs[pos + 2];
        }
        fault := None;
      case Copy(t) =>
        fault := CopyOp(funcAddrs, t);
      case Print(t) =>
        fault := PrintOp(funcAddrs, t);
      case h =>
        fault := BinaryOp(funcAddrs, h);
    }

    /** A copy handler: `dst := src` in the array of `t`, then `pos += 3`. */
    method CopyOp(funcAddrs: seq<Handler>, t: BaseType) returns (fault: Option<Fault>)
      requires 0 <= pos < |opAddrs| && 0 <= opAddrs[pos] < |funcAddrs| && funcAddrs[opAddrs[pos]] == Copy(t)
      modifies this
      ensures Stepped(funcAddrs, old(State()), fault)
    {
      CopySemantics(funcAddrs, State());
      if !(pos + 3 <= |opAddrs|) {
        return Some(OutOfRange);
      }
      var src, dst := opAddrs[pos + 1], opAddrs[pos + 2];
      match t {
        case Int =>
          if !(0 <= src < |ints| && 0 <= dst < |ints|) {
            return Some(OutOfRange);
          }
          ints := ints[dst := ints[src]];
        case Str =>
          if !(0 <= src < |strs| && 0 <= dst < |strs|) {
            return Some(OutOfRange);
          }
          strs := strs[dst := strs[src]];
        case Bool =>
          if !(0 <= src < |bools| && 0 <= dst < |bools|) {
            return Some(OutOfRange);
          }
          bools := bools[dst := bools[src]];
        case Any =>
          return Some(OutOfRange);
      }
      pos := pos + 3;
      fault := None;
      ghost var m := old(State());
      assert State() == m.(
          ints := if t == Int then m.ints[dst := m.ints[src]] else m.ints,
          strs := if t == Str then m.strs[dst := m.strs[src]] else m.strs,
          bools := if t == Bool then m.bools[dst := m.bools[src]] else m.bools,
          pos := m.pos + 3);
    }

    /** A print handler: the slot must exist (the line it logs is left out);
        then `pos += 2`. */
    method PrintOp(funcAddrs: seq<Handler>, t: BaseType) returns (fault: Option<Fault>)
      requires 0 <= pos < |opAddrs| && 0 <= opAddrs[pos] < |funcAddrs| && funcAddrs[opAddrs[pos]] == Print(t)
      modifies this
      ensures Stepped(funcAddrs, old(State()), fault)
    {
      PrintSemantics(funcAddrs, State());
      if !(pos + 2 <= |opAddrs| && InBounds(State().Data(), t, opAddrs[pos + 1])) {
        return Some(OutOfRange);
      }
      pos := pos + 2;
      fault := None;
    }

    /** A binary handler: read the slots at `pos+1` and `pos+2`, write the
        result to the slot at `pos+3`, then `pos += 4`. */
    method BinaryOp(funcAddrs: seq<Handler>, h: Handler) returns (fault: Option<Fault>)
      requires 0 <= pos < |opAddrs| && 0 <= opAddrs[pos] < |funcAddrs| && funcAddrs[opAddrs[pos]] == h
      requires IsBinary(h)
      modifies this
      ensures Stepped(funcAddrs, old(State()), fault)
    {
      match h {
        case Arith(op) =>
          fault := ArithOp(funcAddrs, op);
        case IntCmp(cmp) =>
          fault := CompareOp(funcAddrs, cmp);
        case Concat =>
          fault := ConcatOp(funcAddrs);
        case StrEq =>
          fault := StrCompareOp(funcAddrs, true);
        case StrNe =>
          fault := StrCompareOp(funcAddrs, false);
        case And =>
          fault := LogicOp(funcAddrs, true);
        case Or =>
          fault := LogicOp(funcAddrs, false);
      }
    }

    /** String concatenation. */
    method ConcatOp(funcAddrs: seq<Handler>) returns (fault: Option<Fault>)
      requires 0 <= pos < |opAddrs| && 0 <= opAddrs[pos] < |funcAddrs| && funcAddrs[opAddrs[pos]] == Concat
      modifies this
      ensures Stepped(funcAddrs, old(State()), fault)
    {
      BinarySemantics(funcAddrs, State());
      if !(pos + 4 <= |opAddrs| && 0 <= opAddrs[pos + 1] < |strs| && 0 <= opAddrs[pos + 2] < |strs|
           && 0 <= opAddrs[pos + 3] < |strs|) {
        return Some(OutOfRange);
      }
      strs := strs[opAddrs[pos + 3] := strs[opAddrs[pos + 1]] + strs[opAddrs[pos + 2]]];
      pos := pos + 4;
      fault := None;
    }

    /** String `==` (when `eq`) or `!=`, written to a boolean slot. */
    method StrCompareOp(funcAddrs: seq<Handler>, eq: bool) returns (fault: Option<Fault>)
      requires 0 <= pos < |opAddrs| && 0 <= opAddrs[pos] < |funcAddrs|
      requires funcAddrs[opAddrs[pos]] == if eq then StrEq else StrNe
      modifies this
      ensures Stepped(funcAddrs, old(State()), fault)
    {
      StrCompareSemantics(funcAddrs, State(), eq);
      if !(pos + 4 <= |opAddrs| && 0 <= opAddrs[pos + 1] < |strs| && 0 <= opAddrs[pos + 2] < |strs|
           && 0 <= opAddrs[pos + 3] < |bools|) {
        return Some(OutOfRange);
      }
      var a, b := strs[opAddrs[pos + 1]], strs[opAddrs[pos + 2]];
      bools := bools[opAddrs[pos + 3] := if eq then a == b else a != b];
      pos := pos + 4;
      fault := None;
    }

    /** Boolean `&&` (when `and`) or `||`, short-circuiting: the second
        operand is read only when the first does not decide the result. */
    method LogicOp(funcAddrs: seq<Handler>, and: bool) returns (fault: Option<Fault>)
      requires 0 <= pos < |opAddrs| && 0 <= opAddrs[pos] < |funcAddrs|
      requires funcAddrs[opAddrs[pos]] == if and then And else Or
      modifies this
      ensures Stepped(funcAddrs, old(State()), fault)
    {
      LogicSemantics(funcAddrs, State(), and);
      if !(pos + 4 <= |opAddrs| && 0 <= opAddrs[pos + 1] < |bools| && 0 <= opAddrs[pos + 3] < |bools|) {
        return Some(OutOfRange);
      }
      var r := bools[opAddrs[pos + 1]];
      if r == and {
        if !(0 <= opAddrs[pos + 2] < |bools|) {
          return Some(OutOfRange);
        }
        r := bools[opAddrs[pos + 2]];
      }
      bools := bools[opAddrs[pos + 3] := r];
      pos := pos + 4;
      fault := None;
    }

    /** An integer operation: `+`, `-`, `*`, and Go's truncating `/` and `%`,
        which fault on a zero divisor. */
    method ArithOp(funcAddrs: seq<Handler>, op: IntOp) returns (fault: Option<Fault>)
      requires 0 <= pos < |opAddrs| && 0 <= opAddrs[pos] < |funcAddrs| && funcAddrs[opAddrs[pos]] == Arith(op)
      modifies this
      ensures Stepped(funcAddrs, old(State()), fault)
    {
      ArithSemantics(funcAddrs, State(), op);
      if !(pos + 4 <= |opAddrs| && 0 <= opAddrs[pos + 1] < |ints| && 0 <= opAddrs[pos + 2] < |ints|
           && 0 <= opAddrs[pos + 3] < |ints|) {
        return Some(OutOfRange);
      }
      var a, b, dst := ints[opAddrs[pos + 1]], ints[opAddrs[pos + 2]], opAddrs[pos + 3];
      if (op == Quo || op == Rem) && b == 0 {
        return Some(DivByZero);
      }
      ints := ints[dst := Arithmetic(op, a, b)];
      pos := pos + 4;
      fault := None;
    }

    /** An integer comparison, written to a boolean slot. */
    method CompareOp(funcAddrs: seq<Handler>, cmp: Cmp) returns (fault: Option<Fault>)
      requires 0 <= pos < |opAddrs| && 0 <= opAddrs[pos] < |funcAddrs| && funcAddrs[opAddrs[pos]] == IntCmp(cmp)
      modifies this
      ensures Stepped(funcAddrs, old(State()), fault)
    {
      CompareSemantics(funcAddrs, State(), cmp);
      if !(pos + 4 <= |opAddrs| && 0 <= opAddrs[pos + 1] < |ints| && 0 <= opAddrs[pos + 2] < |ints|
           && 0 <= opAddrs[pos + 3] < |bools|) {
        return Some(OutOfRange);
      }
      var a, b, dst := ints[opAddrs[pos + 1]], ints[opAddrs[pos + 2]], opAddrs[pos + 3];
      bools := bools[dst := Comparison(cmp, a, b)];
      pos := pos + 4;
      fault := None;
    }
  }
}
