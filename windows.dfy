/** Well-formed instruction streams: `OpAddrs` read as a sequence of windows
    `[opcode, inputs..., outputs...]`, each of the width its handler advances
    `pos` by and each address inside the array its type selects.  A run over
    such a stream can fault only by dividing by zero, and stops within
    `len(OpAddrs)` dispatches. */
module Windows {
  import opened Isa

  /** The window at `pos` names a typed handler of `table` and lies, with all
      its addresses, in range. */
  predicate WindowOk(table: seq<Handler>, p: Program, pos: int) {
    && 0 <= pos < |p.opAddrs|
    && 0 <= p.opAddrs[pos] < |table|
    && IsTyped(table[p.opAddrs[pos]])
    && WindowInBounds(table[p.opAddrs[pos]], Machine(p.opAddrs, p.ints, p.strs, p.bools, pos))
  }

  /** From `pos` on, `OpAddrs` splits exactly into well-formed windows. */
  predicate WellFormedFrom(table: seq<Handler>, p: Program, pos: nat)
    decreases |p.opAddrs| - pos
  {
    pos == |p.opAddrs|
    || (WindowOk(table, p, pos) && WellFormedFrom(table, p, pos + Width(table[p.opAddrs[pos]])))
  }

  predicate WellFormed(table: seq<Handler>, p: Program) {
    WellFormedFrom(table, p, 0)
  }

  /** The window `[op] + addrs` for handler `table[op]`: one address per
      operand, each in range for its type. */
  predicate FitsWindow(table: seq<Handler>, p: Program, op: int, addrs: seq<int>) {
    && 0 <= op < |table|
    && IsTyped(table[op])
    && |addrs| == |Operands(table[op])|
    && forall j :: 0 <= j < |addrs| ==> InBounds(p, Operands(table[op])[j], addrs[j])
  }

  /** `q` has the same stream as `p` and arrays at least as long. */
  predicate Grown(p: Program, q: Program) {
    && q.opAddrs == p.opAddrs
    && |p.ints| <= |q.ints| && |p.strs| <= |q.strs| && |p.bools| <= |q.bools|
  }

  lemma InBoundsGrown(p: Program, q: Program, t: BaseType, a: int)
    requires Grown(p, q) && InBounds(p, t, a)
    ensures InBounds(q, t, a)
  {
  }

  lemma WindowOkGrown(table: seq<Handler>, p: Program, q: Program, pos: int)
    requires Grown(p, q) && WindowOk(table, p, pos)
    ensures WindowOk(table, q, pos)
  {
    var h := table[p.opAddrs[pos]];
    forall j | 0 <= j < |Operands(h)|
      ensures InBounds(q, Operands(h)[j], q.opAddrs[pos + 1 + j])
    {
      assert InBounds(Machine(p.opAddrs, p.ints, p.strs, p.bools, pos).Data(), Operands(h)[j], p.opAddrs[pos + 1 + j]);
      InBoundsGrown(p, q, Operands(h)[j], p.opAddrs[pos + 1 + j]);
    }
    assert Machine(q.opAddrs, q.ints, q.strs, q.bools, pos).Data() == q;
  }

  /** Growing the arrays keeps a stream well-formed: an address in range
      stays in range. */
  lemma {:induction false} WellFormedGrown(table: seq<Handler>, p: Program, q: Program, pos: nat)
    requires Grown(p, q) && WellFormedFrom(table, p, pos)
    ensures WellFormedFrom(table, q, pos)
    decreases |p.opAddrs| - pos
  {
    if pos < |p.opAddrs| {
      WindowOkGrown(table, p, q, pos);
      WellFormedGrown(table, p, q, pos + Width(table[p.opAddrs[pos]]));
    }
  }

  /** `q` has the same arrays as `p` and a stream that starts with `p`'s. */
  predicate Extends(p: Program, q: Program) {
    && q.ints == p.ints && q.strs == p.strs && q.bools == p.bools
    && |p.opAddrs| <= |q.opAddrs| && q.opAddrs[..|p.opAddrs|] == p.opAddrs
  }

  lemma WindowOkExtends(table: seq<Handler>, p: Program, q: Program, pos: int)
    requires Extends(p, q) && WindowOk(table, p, pos) && pos + Width(table[p.opAddrs[pos]]) <= |p.opAddrs|
    ensures WindowOk(table, q, pos)
  {
    var h := table[p.opAddrs[pos]];
    assert q.opAddrs[pos] == q.opAddrs[..|p.opAddrs|][pos] == p.opAddrs[pos];
    forall j | 0 <= j < |Operands(h)|
      ensures InBounds(q, Operands(h)[j], q.opAddrs[pos + 1 + j])
    {
      assert InBounds(Machine(p.opAddrs, p.ints, p.strs, p.bools, pos).Data(), Operands(h)[j], p.opAddrs[pos + 1 + j]);
      assert q.opAddrs[pos + 1 + j] == q.opAddrs[..|p.opAddrs|][pos + 1 + j];
    }
    assert Machine(q.opAddrs, q.ints, q.strs, q.bools, pos).Data() == q;
  }

  lemma NewWindowOk(table: seq<Handler>, p: Program, op: int, addrs: seq<int>)
    requires FitsWindow(table, p, op, addrs)
    ensures var q := p.(opAddrs := p.opAddrs + [op] + addrs);
      WindowOk(table, q, |p.opAddrs|) && |p.opAddrs| + Width(table[op]) == |q.opAddrs|
  {
    var q := p.(opAddrs := p.opAddrs + [op] + addrs);
    var pos := |p.opAddrs|;
    var h := table[op];
    assert q.opAddrs[pos] == op;
    forall j | 0 <= j < |Operands(h)|
      ensures InBounds(q, Operands(h)[j], q.opAddrs[pos + 1 + j])
    {
      assert q.opAddrs[pos + 1 + j] == addrs[j];
    }
    assert Machine(q.opAddrs, q.ints, q.strs, q.bools, pos).Data() == q;
  }

  /** A well-formed stream opens with a well-formed window that ends inside
      it, and goes on well-formed after that window. */
  lemma WellFormedStep(table: seq<Handler>, p: Program, pos: nat)
    requires WellFormedFrom(table, p, pos) && pos < |p.opAddrs|
    ensures WindowOk(table, p, pos)
    ensures pos + Width(table[p.opAddrs[pos]]) <= |p.opAddrs|
    ensures WellFormedFrom(table, p, pos + Width(table[p.opAddrs[pos]]))
  {
  }

  lemma WellFormedCons(table: seq<Handler>, p: Program, pos: nat, h: Handler)
    requires WindowOk(table, p, pos) && table[p.opAddrs[pos]] == h && WellFormedFrom(table, p, pos + Width(h))
    ensures WellFormedFrom(table, p, pos)
  {
  }

  /** Extending the stream keeps the windows of `p` well-formed, so a
      stream that goes on well-formed where `p`'s ends is well-formed. */
  lemma {:induction false} WellFormedExtends(table: seq<Handler>, p: Program, q: Program, pos: nat)
    requires Extends(p, q) && WellFormedFrom(table, p, pos) && WellFormedFrom(table, q, |p.opAddrs|)
    ensures WellFormedFrom(table, q, pos)
    decreases |p.opAddrs| - pos
  {
    if pos < |p.opAddrs| {
      var h := table[p.opAddrs[pos]];
      var next := pos + Width(h);
      WellFormedStep(table, p, pos);
      WindowOkExtends(table, p, q, pos);
      assert q.opAddrs[pos] == q.opAddrs[..|p.opAddrs|][pos] == p.opAddrs[pos];
      assert table[q.opAddrs[pos]] == h;
      WellFormedExtends(table, p, q, next);
      WellFormedCons(table, q, pos, h);
    }
  }

  /** Appending a window that fits keeps the stream well-formed: the old
      windows keep their places and the new one starts where they end. */
  lemma WellFormedAppend(table: seq<Handler>, p: Program, op: int, addrs: seq<int>)
    requires WellFormed(table, p) && FitsWindow(table, p, op, addrs)
    ensures WellFormed(table, p.(opAddrs := p.opAddrs + [op] + addrs))
  {
    var q := p.(opAddrs := p.opAddrs + [op] + addrs);
    NewWindowOk(table, p, op, addrs);
    assert WellFormedFrom(table, q, |q.opAddrs|);
    assert WellFormedFrom(table, q, |p.opAddrs|);
    assert q.opAddrs[..|p.opAddrs|] == p.opAddrs;
    WellFormedExtends(table, p, q, 0);
  }

  lemma EmptyWellFormed(table: seq<Handler>, p: Program)
    requires p.opAddrs == []
    ensures WellFormed(table, p)
  {
  }

  // ---------------------------------------------------------------------------
  // Runs over well-formed streams

  /** The machine state of a run over `p` stays well-formed: same stream,
      same array lengths, `pos` on a window boundary. */
  predicate AtBoundary(table: seq<Handler>, m: Machine) {
    0 <= m.pos && WellFormedFrom(table, m.Data(), m.pos)
  }

  /** One dispatch on a well-formed window either divides by zero or moves
      to the next window boundary with the stream and array lengths kept. */
  lemma NextOnBoundary(table: seq<Handler>, m: Machine)
    requires AtBoundary(table, m) && m.pos < |m.opAddrs|
    ensures Next(table, m).Failure? ==> Next(table, m).error == DivByZero
    ensures Next(table, m).Success? ==>
              var m' := Next(table, m).value;
              && AtBoundary(table, m')
              && m'.opAddrs == m.opAddrs && m'.pos > m.pos
              && |m'.ints| == |m.ints| && |m'.strs| == |m.strs| && |m'.bools| == |m.bools|
  {
    var h := table[m.opAddrs[m.pos]];
    assert m == Machine(m.Data().opAddrs, m.Data().ints, m.Data().strs, m.Data().bools, m.pos);
    assert WindowOk(table, m.Data(), m.pos);
    TypedWindow(h);
    EffectOfInBoundsWindow(h, m);
    if Effect(h, m).Success? {
      var r := Effect(h, m).value;
      var m' := r.(pos := m.pos + Width(h));
      assert Next(table, m) == Success(m');
      WellFormedGrown(table, m.Data(), m'.Data(), m.pos + Width(h));
    }
  }

  /** From a state satisfying `inv`, `step` faults only by dividing by zero,
      or reaches a state satisfying `inv` further along the same stream. */
  predicate Advances(step: Machine -> Result<Machine, Fault>, inv: Machine -> bool, x: Machine) {
    && (step(x).Failure? ==> step(x).error == DivByZero)
    && (step(x).Success? ==>
          inv(step(x).value) && step(x).value.opAddrs == x.opAddrs && step(x).value.pos > x.pos)
  }

  /** A run that keeps such an invariant faults only by dividing by zero,
      and fuel for every stream entry left is enough. */
  lemma {:induction false} InvariantRun(step: Machine -> Result<Machine, Fault>, inv: Machine -> bool, m: Machine, fuel: nat)
    requires inv(m) && 0 <= m.pos
    requires forall x :: inv(x) && 0 <= x.pos < |x.opAddrs| ==> Advances(step, inv, x)
    ensures RunWith(step, m, fuel).0.Faulted? ==> RunWith(step, m, fuel).0.fault == DivByZero
    ensures fuel >= |m.opAddrs| - m.pos ==> RunWith(step, m, fuel).0 != OutOfFuel
    decreases fuel
  {
    if m.pos < |m.opAddrs| && fuel > 0 {
      assert Advances(step, inv, m);
      if step(m).Success? {
        InvariantRun(step, inv, step(m).value, fuel - 1);
      }
    }
  }

  /** Compiled programs never index out of range: a run from a window
      boundary halts or runs out of fuel or faults dividing by zero, and
      without jumps every dispatch moves `pos` forward, so fuel for as many
      dispatches as there are stream entries left is always enough. */
  lemma RunNeverOutOfRange(table: seq<Handler>, m: Machine, fuel: nat)
    requires AtBoundary(table, m)
    ensures RunSpec(table, m, fuel).0.Faulted? ==> RunSpec(table, m, fuel).0.fault == DivByZero
    ensures fuel >= |m.opAddrs| - m.pos ==> RunSpec(table, m, fuel).0 != OutOfFuel
  {
    var step := NextOf(table);
    var inv := x => AtBoundary(table, x);
    forall x | inv(x) && 0 <= x.pos < |x.opAddrs|
      ensures Advances(step, inv, x)
    {
      NextOnBoundary(table, x);
    }
    InvariantRun(step, inv, m, fuel);
  }

  /** A run of a compiled program from the start. */
  lemma CompiledRun(table: seq<Handler>, p: Program, fuel: nat)
    requires WellFormed(table, p)
    ensures var (o, _) := RunSpec(table, Machine(p.opAddrs, p.ints, p.strs, p.bools, 0), fuel);
      (o.Faulted? ==> o == Faulted(DivByZero))
      && (fuel >= |p.opAddrs| ==> o != OutOfFuel)
  {
    var m := Machine(p.opAddrs, p.ints, p.strs, p.bools, 0);
    assert m.Data() == p;
    RunNeverOutOfRange(table, m, fuel);
  }

  // ---------------------------------------------------------------------------
  // Tables that agree on a prefix

  /** Every window's opcode is below `n`. */
  predicate OpcodesBelow(table: seq<Handler>, p: Program, pos: nat, n: int)
    decreases |p.opAddrs| - pos
  {
    pos == |p.opAddrs|
    || (WindowOk(table, p, pos) && p.opAddrs[pos] < n
        && OpcodesBelow(table, p, pos + Width(table[p.opAddrs[pos]]), n))
  }

  /** A stream that uses only opcodes below `n` of `t` is well-formed for
      every table that agrees with `t` below `n`. */
  lemma {:induction false} AgreeingTables(t: seq<Handler>, u: seq<Handler>, n: nat, p: Program, pos: nat)
    requires n <= |t| && n <= |u| && t[..n] == u[..n]
    requires OpcodesBelow(t, p, pos, n)
    ensures WellFormedFrom(u, p, pos) && OpcodesBelow(u, p, pos, n)
    decreases |p.opAddrs| - pos
  {
    if pos < |p.opAddrs| {
      var op := p.opAddrs[pos];
      assert t[op] == t[..n][op] == u[..n][op] == u[op];
      AgreeingTables(t, u, n, p, pos + Width(t[op]));
    }
  }

  /** A well-formed stream uses only opcodes of its table. */
  lemma {:induction false} WellFormedOpcodes(table: seq<Handler>, p: Program, pos: nat)
    requires WellFormedFrom(table, p, pos)
    ensures OpcodesBelow(table, p, pos, |table|)
    decreases |p.opAddrs| - pos
  {
    if pos < |p.opAddrs| {
      WellFormedOpcodes(table, p, pos + Width(table[p.opAddrs[pos]]));
    }
  }
}
