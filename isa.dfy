/** The `Bytecode` record (bytecode.go) and what every handler the registries
    and the dispatch tables can hold does to it.  A handler reads the operand
    addresses that follow its opcode in `OpAddrs` and indexes one of the three
    typed arrays with each; the window it occupies is the opcode plus one
    address per input and per output. */
module Isa {

  datatype Option<T> = None | Some(value: T)

  datatype Result<T, E> = Success(value: T) | Failure(error: E)

  /** The value types of the current revision (parser.go's baseType) plus the
      wildcard; the older revision uses Int, Str and Any only. */
  datatype BaseType = Int | Str | Bool | Any

  /** The persisted part of the record: the operand stream and the three
      typed arrays. */
  datatype Program = Program(opAddrs: seq<int>, ints: seq<int>, strs: seq<string>, bools: seq<bool>)

  /** The record together with the instruction pointer `pos`. */
  datatype Machine = Machine(opAddrs: seq<int>, ints: seq<int>, strs: seq<string>, bools: seq<bool>, pos: int)
  {
    function Data(): Program {
      Program(opAddrs, ints, strs, bools)
    }
  }

  /** A Go run-time panic: an index out of range or an integer division by zero. */
  datatype Fault = OutOfRange | DivByZero

  datatype IntOp = Add | Sub | Mul | Quo | Rem

  datatype Cmp = Gt | Lt | Ge | Le | Eq | Ne

  /** The closures found in the handler tables, one constructor per behaviour. */
  datatype Handler =
    | Copy(t: BaseType)      // dst := src in the array of t
    | Arith(op: IntOp)       // int, int -> int
    | Concat                 // str, str -> str
    | IntCmp(cmp: Cmp)       // int, int -> bool
    | StrEq                  // str, str -> bool
    | StrNe                  // str, str -> bool
    | And                    // bool, bool -> bool
    | Or                     // bool, bool -> bool
    | Print(t: BaseType)     // one input, no output, no change to the arrays
    | Goto                   // pos := Ints[operand]
    | If                     // falls through or jumps to an inline offset

  predicate IsJump(h: Handler) { h.Goto? || h.If? }

  function InTypes(h: Handler): seq<BaseType> {
    match h
    case Copy(t) => [t]
    case Arith(_) => [Int, Int]
    case Concat => [Str, Str]
    case IntCmp(_) => [Int, Int]
    case StrEq => [Str, Str]
    case StrNe => [Str, Str]
    case And => [Bool, Bool]
    case Or => [Bool, Bool]
    case Print(t) => [t]
    case Goto => [Int]
    case If => [Bool]
  }

  function OutTypes(h: Handler): seq<BaseType> {
    match h
    case Copy(t) => [t]
    case Arith(_) => [Int]
    case Concat => [Str]
    case Print(_) => []
    case Goto => []
    case If => []
    case _ => [Bool]
  }

  /** A handler whose window is fully typed: not a jump, and no slot of the
      wildcard type. */
  predicate IsTyped(h: Handler) {
    match h
    case Copy(t) => t != Any
    case Print(t) => t != Any
    case Goto => false
    case If => false
    case _ => true
  }

  lemma TypedWindow(h: Handler)
    requires IsTyped(h)
    ensures !IsJump(h) && Any !in InTypes(h) && Any !in OutTypes(h)
  {
  }

  /** The types of the operand addresses of a window, inputs first. */
  function Operands(h: Handler): seq<BaseType> {
    InTypes(h) + OutTypes(h)
  }

  /** The length of the window of a non-jump handler: opcode, inputs, outputs. */
  function Width(h: Handler): nat {
    1 + |InTypes(h)| + |OutTypes(h)|
  }

  // ---------------------------------------------------------------------------
  // Go integer division

  function Abs(a: int): nat { if a < 0 then -a else a }

  /** Go's `/` on integers: the quotient truncated toward zero. */
  function GoQuo(a: int, b: int): int
    requires b != 0
  {
    var q := Abs(a) / Abs(b);
    if (a < 0) == (b < 0) then q else -q
  }

  /** Go's `%` on integers: the remainder of the truncated quotient, which
      takes the sign of the dividend. */
  function GoRem(a: int, b: int): int
    requires b != 0
  {
    a - b * GoQuo(a, b)
  }

  lemma MulNeg(x: int, y: int)
    ensures x * (-y) == -(x * y) && (-x) * y == -(x * y)
  {
  }

  /** The divisor times the truncated quotient is the product of the
      magnitudes, with the sign of the dividend. */
  lemma DivisorTimesQuotient(a: int, b: int)
    requires b != 0
    ensures b * GoQuo(a, b) == if a < 0 then -(Abs(b) * (Abs(a) / Abs(b))) else Abs(b) * (Abs(a) / Abs(b))
  {
    var q := Abs(a) / Abs(b);
    if b < 0 {
      MulNeg(-b, q);
      if a < 0 {
        assert GoQuo(a, b) == q;
      } else {
        assert GoQuo(a, b) == -q;
        MulNeg(b, q);
      }
    } else {
      if a < 0 {
        assert GoQuo(a, b) == -q;
        MulNeg(b, q);
      }
    }
  }

  /** The laws the Go language specification states for `/` and `%`: the
      quotient and remainder recombine to the dividend, the remainder is
      smaller than the divisor and carries the sign of the dividend. */
  lemma GoDivision(a: int, b: int)
    requires b != 0
    ensures a == b * GoQuo(a, b) + GoRem(a, b)
    ensures Abs(GoRem(a, b)) < Abs(b)
    ensures a >= 0 ==> GoRem(a, b) >= 0
    ensures a < 0 ==> GoRem(a, b) <= 0
  {
    var x: int, y: int := Abs(a), Abs(b);
    var q: int, r: int := x / y, x % y;
    assert x == y * q + r && 0 <= r < y;
    DivisorTimesQuotient(a, b);
    assert GoRem(a, b) == a - b * GoQuo(a, b);
    assert GoRem(a, b) == if a < 0 then -r else r;
  }

  /** Where Go and Dafny disagree: -7 / 2 is -3 in Go and -4 in Dafny. */
  lemma GoDivisionExamples()
    ensures GoQuo(7, 2) == 3 && GoRem(7, 2) == 1
    ensures GoQuo(-7, 2) == -3 && GoRem(-7, 2) == -1
    ensures GoQuo(7, -2) == -3 && GoRem(7, -2) == 1
    ensures (-7) / 2 == -4 && (-7) % 2 == 1
  {
  }

  // ---------------------------------------------------------------------------
  // Typed arrays

  predicate InBounds(p: Program, t: BaseType, a: int) {
    match t
    case Int => 0 <= a < |p.ints|
    case Str => 0 <= a < |p.strs|
    case Bool => 0 <= a < |p.bools|
    case Any => false
  }

  datatype Value = IntV(i: int) | StrV(s: string) | BoolV(b: bool)

  function Read(p: Program, t: BaseType, a: int): (v: Value)
    requires InBounds(p, t, a)
  {
    match t
    case Int => IntV(p.ints[a])
    case Str => StrV(p.strs[a])
    case Bool => BoolV(p.bools[a])
  }

  predicate HasType(v: Value, t: BaseType) {
    match t
    case Int => v.IntV?
    case Str => v.StrV?
    case Bool => v.BoolV?
    case Any => false
  }

  /** The record with slot `a` of the array of `t` replaced by `v`. */
  function Write(m: Machine, t: BaseType, a: int, v: Value): (r: Machine)
    requires InBounds(m.Data(), t, a) && HasType(v, t)
    ensures r.opAddrs == m.opAddrs && r.pos == m.pos
    ensures |r.ints| == |m.ints| && |r.strs| == |m.strs| && |r.bools| == |m.bools|
    ensures Read(r.Data(), t, a) == v
    ensures forall u, b :: InBounds(m.Data(), u, b) && (u, b) != (t, a) ==>
              InBounds(r.Data(), u, b) && Read(r.Data(), u, b) == Read(m.Data(), u, b)
  {
    match t
    case Int => m.(ints := m.ints[a := v.i])
    case Str => m.(strs := m.strs[a := v.s])
    case Bool => m.(bools := m.bools[a := v.b])
  }

  // ---------------------------------------------------------------------------
  // One handler on one window

  /** The operand address at offset `j` of the window starting at `pos`. */
  function Operand(m: Machine, j: nat): int
    requires 0 <= m.pos && m.pos + j < |m.opAddrs|
  {
    m.opAddrs[m.pos + j]
  }

  /** The whole window lies inside `OpAddrs` and every address in it indexes
      the array its type selects. */
  predicate WindowInBounds(h: Handler, m: Machine) {
    && 0 <= m.pos && m.pos + Width(h) <= |m.opAddrs|
    && forall j :: 0 <= j < |Operands(h)| ==> InBounds(m.Data(), Operands(h)[j], m.opAddrs[m.pos + 1 + j])
  }

  lemma InputsInBounds(h: Handler, m: Machine)
    requires WindowInBounds(h, m)
    ensures forall j :: 0 <= j < |InTypes(h)| ==>
      m.pos + 1 + j < |m.opAddrs| && InBounds(m.Data(), InTypes(h)[j], m.opAddrs[m.pos + 1 + j])
  {
    forall j | 0 <= j < |InTypes(h)|
      ensures m.pos + 1 + j < |m.opAddrs| && InBounds(m.Data(), InTypes(h)[j], m.opAddrs[m.pos + 1 + j])
    {
      assert Operands(h)[j] == InTypes(h)[j];
    }
  }

  /** The values a handler reads: its inputs, in order. */
  function Inputs(h: Handler, m: Machine): (vs: seq<Value>)
    requires WindowInBounds(h, m)
    ensures |vs| == |InTypes(h)|
    ensures forall j :: 0 <= j < |vs| ==> HasType(vs[j], InTypes(h)[j])
  {
    var ins := InTypes(h);
    InputsInBounds(h, m);
    seq(|ins|, j requires 0 <= j < |ins| => Read(m.Data(), ins[j], Operand(m, 1 + j)))
  }

  predicate DividesByZero(h: Handler, vs: seq<Value>)
    requires |vs| == |InTypes(h)|
    requires forall j :: 0 <= j < |vs| ==> HasType(vs[j], InTypes(h)[j])
  {
    h.Arith? && (h.op == Quo || h.op == Rem) && vs[1] == IntV(0)
  }

  /** The value an integer operation computes; Go's `/` and `%` truncate. */
  function Arithmetic(op: IntOp, a: int, b: int): int
    requires (op == Quo || op == Rem) ==> b != 0
  {
    match op
    case Add => a + b
    case Sub => a - b
    case Mul => a * b
    case Quo => GoQuo(a, b)
    case Rem => GoRem(a, b)
  }

  /** The outcome of an integer comparison. */
  function Comparison(cmp: Cmp, a: int, b: int): bool {
    match cmp
    case Gt => a > b
    case Lt => a < b
    case Ge => a >= b
    case Le => a <= b
    case Eq => a == b
    case Ne => a != b
  }

  /** The value a data handler computes from its inputs. */
  function Apply(h: Handler, vs: seq<Value>): (v: Value)
    requires !IsJump(h) && |OutTypes(h)| == 1
    requires |vs| == |InTypes(h)|
    requires forall j :: 0 <= j < |vs| ==> HasType(vs[j], InTypes(h)[j])
    requires !DividesByZero(h, vs)
    ensures HasType(v, OutTypes(h)[0])
  {
    match h
    case Copy(_) => vs[0]
    case Arith(op) =>
      IntV(Arithmetic(op, vs[0].i, vs[1].i))
    case Concat => StrV(vs[0].s + vs[1].s)
    case IntCmp(cmp) =>
      BoolV(Comparison(cmp, vs[0].i, vs[1].i))
    case StrEq => BoolV(vs[0].s == vs[1].s)
    case StrNe => BoolV(vs[0].s != vs[1].s)
    case And => BoolV(vs[0].b && vs[1].b)
    case Or => BoolV(vs[0].b || vs[1].b)
  }

  /** What a data handler does to the arrays, leaving `pos` alone.  `&&` and
      `||` evaluate as Go does, reading their second operand only when the
      first does not decide the result; every other handler reads its whole
      window. */
  function Effect(h: Handler, m: Machine): Result<Machine, Fault>
    requires !IsJump(h)
  {
    if h.And? || h.Or? then LogicEffect(h, m) else WindowEffect(h, m)
  }

  /** A handler that reads every address of its window: a panic when the
      window or an address is out of range or a divisor is zero; otherwise
      the output slot, if any, receives the computed value. */
  function WindowEffect(h: Handler, m: Machine): Result<Machine, Fault>
    requires !IsJump(h)
  {
    if !WindowInBounds(h, m) then Failure(OutOfRange)
    else
      var vs := Inputs(h, m);
      if DividesByZero(h, vs) then Failure(DivByZero)
      else if OutTypes(h) == [] then Success(m)
      else
        assert Operands(h)[|InTypes(h)|] == OutTypes(h)[0];
        Success(Write(m, OutTypes(h)[0], Operand(m, 1 + |InTypes(h)|), Apply(h, vs)))
  }

  /** The first operand decides `&&` when it is false and `||` when it is
      true; the result is then that operand. */
  predicate Decides(h: Handler, first: bool) {
    (h.And? && !first) || (h.Or? && first)
  }

  /** `&&` and `||` on the window `[opcode, a, b, out]`: the slots of `a` and
      `out` must exist; the slot of `b` is read, and must exist, only when
      `a` does not decide the result. */
  function LogicEffect(h: Handler, m: Machine): Result<Machine, Fault>
    requires h.And? || h.Or?
  {
    if !(0 <= m.pos && m.pos + 4 <= |m.opAddrs|) then Failure(OutOfRange)
    else if !(InBounds(m.Data(), Bool, Operand(m, 1)) && InBounds(m.Data(), Bool, Operand(m, 3))) then Failure(OutOfRange)
    else
      var a := m.bools[Operand(m, 1)];
      if Decides(h, a) then Success(Write(m, Bool, Operand(m, 3), BoolV(a)))
      else if !InBounds(m.Data(), Bool, Operand(m, 2)) then Failure(OutOfRange)
      else Success(Write(m, Bool, Operand(m, 3), BoolV(m.bools[Operand(m, 2)])))
  }

  /** Short-circuiting changes nothing on a window whose addresses are all in
      range: there it computes `a && b` and `a || b` as a whole-window read
      does. */
  lemma LogicEffectInBounds(h: Handler, m: Machine)
    requires (h.And? || h.Or?) && WindowInBounds(h, m)
    ensures LogicEffect(h, m) == WindowEffect(h, m)
  {
    assert Operands(h) == [Bool, Bool, Bool];
    assert InBounds(m.Data(), Operands(h)[0], m.opAddrs[m.pos + 1 + 0]);
    assert InBounds(m.Data(), Operands(h)[1], m.opAddrs[m.pos + 1 + 1]);
    assert InBounds(m.Data(), Operands(h)[2], m.opAddrs[m.pos + 1 + 2]);
    var a, b := m.bools[Operand(m, 1)], m.bools[Operand(m, 2)];
    var vs := Inputs(h, m);
    assert vs == [BoolV(a), BoolV(b)];
    var v := if Decides(h, a) then BoolV(a) else BoolV(b);
    assert Apply(h, vs) == v;
    assert WindowEffect(h, m) == Success(Write(m, Bool, Operand(m, 3), v));
  }

  /** The only faults a window whose addresses are all in range can raise are
      division and remainder by zero; otherwise exactly the output slot
      changes, and `OpAddrs`, `pos` and the array lengths stay. */
  lemma EffectOfInBoundsWindow(h: Handler, m: Machine)
    requires !IsJump(h) && WindowInBounds(h, m)
    ensures Effect(h, m).Failure? ==>
              Effect(h, m).error == DivByZero && h.Arith? && (h.op == Quo || h.op == Rem)
              && 0 <= Operand(m, 2) < |m.ints| && m.ints[Operand(m, 2)] == 0
    ensures Effect(h, m).Success? ==>
              var r := Effect(h, m).value;
              && r.opAddrs == m.opAddrs && r.pos == m.pos
              && |r.ints| == |m.ints| && |r.strs| == |m.strs| && |r.bools| == |m.bools|
              && forall u, b :: InBounds(m.Data(), u, b) ==>
                   (InBounds(r.Data(), u, b)
                    && (Read(r.Data(), u, b) != Read(m.Data(), u, b) ==>
                          OutTypes(h) != [] && u == OutTypes(h)[0] && b == Operand(m, 1 + |InTypes(h)|)))
  {
    if h.And? || h.Or? {
      LogicEffectInBounds(h, m);
    }
    var vs := Inputs(h, m);
    if DividesByZero(h, vs) {
      assert Operands(h)[1] == Int;
      assert vs[1] == Read(m.Data(), Int, Operand(m, 2));
    }
  }

  // ---------------------------------------------------------------------------
  // One dispatch of the current revision's run loop

  /** One iteration of `Run` over a dispatch table: look up the handler of the
      opcode at `pos` and run it.  Data handlers advance `pos` by their window
      width; `Goto` loads `pos` from `Ints`; `If` falls through by 3 when its
      boolean holds and otherwise jumps to the offset stored inline. */
  function Next(table: seq<Handler>, m: Machine): Result<Machine, Fault> {
    if !(0 <= m.pos < |m.opAddrs|) then Failure(OutOfRange)
    else
      var op := m.opAddrs[m.pos];
      if !(0 <= op < |table|) then Failure(OutOfRange)
      else
        match table[op]
        case Goto =>
          if m.pos + 1 < |m.opAddrs| && InBounds(m.Data(), Int, Operand(m, 1))
          then Success(m.(pos := m.ints[Operand(m, 1)]))
          else Failure(OutOfRange)
        case If =>
          if !(m.pos + 1 < |m.opAddrs| && InBounds(m.Data(), Bool, Operand(m, 1))) then Failure(OutOfRange)
          else if m.bools[Operand(m, 1)] then Success(m.(pos := m.pos + 3))
          else if m.pos + 2 < |m.opAddrs| then Success(m.(pos := Operand(m, 2)))
          else Failure(OutOfRange)
        case h =>
          match Effect(h, m)
          case Success(r) => Success(r.(pos := m.pos + Width(h)))
          case Failure(e) => Failure(e)
  }

  /** Every handler other than `Goto` and `If` moves `pos` forward by its
      window width and leaves `OpAddrs` as it is. */
  lemma NextAdvancesByWidth(table: seq<Handler>, m: Machine)
    requires Next(table, m).Success?
    requires !IsJump(table[m.opAddrs[m.pos]])
    ensures Next(table, m).value.pos == m.pos + Width(table[m.opAddrs[m.pos]]) > m.pos
    ensures Next(table, m).value.opAddrs == m.opAddrs
  {
    var h := table[m.opAddrs[m.pos]];
    assert Effect(h, m).Success?;
  }

  /** No dispatch changes `OpAddrs`: the jumps only move `pos`. */
  lemma NextKeepsOpAddrs(table: seq<Handler>, m: Machine)
    requires Next(table, m).Success?
    ensures Next(table, m).value.opAddrs == m.opAddrs
  {
    if !IsJump(table[m.opAddrs[m.pos]]) {
      NextAdvancesByWidth(table, m);
    }
  }

  // ---------------------------------------------------------------------------
  // Whole runs

  datatype Outcome = Halted | Faulted(fault: Fault) | OutOfFuel

  /** The run loop `for pos < len(OpAddrs) { dispatch }` over a dispatch
      function `step`, cut off after `fuel` dispatches.  A fault stops the
      run with the record as it was before the faulting dispatch. */
  function RunWith(step: Machine -> Result<Machine, Fault>, m: Machine, fuel: nat): (Outcome, Machine)
    decreases fuel
  {
    if m.pos >= |m.opAddrs| then (Halted, m)
    else if fuel == 0 then (OutOfFuel, m)
    else
      match step(m)
      case Failure(e) => (Faulted(e), m)
      case Success(m') => RunWith(step, m', fuel - 1)
  }

  /** One dispatch over `table`, as a function value. */
  function NextOf(table: seq<Handler>): (step: Machine -> Result<Machine, Fault>)
    ensures forall x :: step(x) == Next(table, x)
  {
    x => Next(table, x)
  }

  /** The run loop of vm.go, dispatching through `table`. */
  function RunSpec(table: seq<Handler>, m: Machine, fuel: nat): (Outcome, Machine) {
    RunWith(NextOf(table), m, fuel)
  }

  /** A run never changes `OpAddrs`, and a run that halts leaves `pos` at or
      past its end, so a second run executes nothing. */
  lemma {:induction false} RunKeepsOpAddrs(table: seq<Handler>, m: Machine, fuel: nat)
    ensures RunSpec(table, m, fuel).1.opAddrs == m.opAddrs
    ensures RunSpec(table, m, fuel).0 == Halted ==>
              RunSpec(table, m, fuel).1.pos >= |m.opAddrs|
              && forall f: nat :: RunSpec(table, RunSpec(table, m, fuel).1, f) == (Halted, RunSpec(table, m, fuel).1)
    decreases fuel
  {
    if m.pos < |m.opAddrs| && fuel > 0 && Next(table, m).Success? {
      var m' := Next(table, m).value;
      NextKeepsOpAddrs(table, m);
      RunKeepsOpAddrs(table, m', fuel - 1);
    }
  }
}
