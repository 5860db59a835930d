/** The compiler of the current revision (parser.go) as functions on its
    state: what a plain assignment, an operation call and a whole line make
    of the identifier tables and the bytecode, and the invariant each keeps.
    The `Parser` module runs the same steps imperatively and is proved to
    agree with these functions. */
module Compile {
  import opened Text
  import opened Isa
  import opened Registry
  import opened Windows
  import opened Scanner
  import opened Tables

  /** A plain assignment has exactly one source and one target. */
  const MultiAssignMsg := "can only assign one expression to one argument"

  /** The message of a plain assignment whose two sides differ in type. */
  function MismatchMsg(arg: string, target: string): string {
    "cannot assign '" + arg + "' to '" + target + "' - type mismatch"
  }

  function UnboundMsg(arg: string): string {
    "reference to uninitialized identifier: " + arg
  }

  function NoMatchMsg(op: string): string {
    "no function signature named '" + op + "' to handle types/quantity of arguments or assignments"
  }

  /** The types the names have in `s`: the wildcard for an unbound name. */
  function TypesOf(s: State, ids: seq<string>): (ts: seq<BaseType>)
    ensures |ts| == |ids|
  {
    if ids == [] then [] else TypesOf(s, ids[..|ids| - 1]) + [TypeAndAddrOfID(s, ids[|ids| - 1]).t]
  }

  /** The slots the names have in `s`: -1 for an unbound name. */
  function AddrsOf(s: State, ids: seq<string>): (as_: seq<int>)
    ensures |as_| == |ids|
  {
    if ids == [] then [] else AddrsOf(s, ids[..|ids| - 1]) + [TypeAndAddrOfID(s, ids[|ids| - 1]).addr]
  }

  lemma {:induction false} TypesOfAt(s: State, ids: seq<string>, i: nat)
    requires i < |ids|
    ensures TypesOf(s, ids)[i] == TypeAndAddrOfID(s, ids[i]).t
    ensures AddrsOf(s, ids)[i] == TypeAndAddrOfID(s, ids[i]).addr
  {
    if i < |ids| - 1 {
      TypesOfAt(s, ids[..|ids| - 1], i);
    }
  }

  lemma TypesOfSnoc(s: State, ids: seq<string>, i: nat)
    requires i < |ids|
    ensures TypesOf(s, ids[..i + 1]) == TypesOf(s, ids[..i]) + [TypeAndAddrOfID(s, ids[i]).t]
    ensures AddrsOf(s, ids[..i + 1]) == AddrsOf(s, ids[..i]) + [TypeAndAddrOfID(s, ids[i]).addr]
  {
    assert ids[..i + 1][..i] == ids[..i];
  }

  /** The bindings of `s` all survive in `s'`, unchanged. */
  ghost predicate Extends(s: State, s': State) {
    forall id :: Bound(s, id) ==> TypeAndAddrOfID(s', id) == TypeAndAddrOfID(s, id)
  }

  /** No identifier is bound or rebound between `s` and `s'`: only literal
      texts were interned. */
  ghost predicate IdentifiersKept(s: State, s': State) {
    forall id :: IsIdentifier(id) ==> TypeAndAddrOfID(s', id) == TypeAndAddrOfID(s, id)
  }

  // ---------------------------------------------------------------------------
  // Overload resolution

  /** Overload `f` accepts arguments of types `argTypes` and targets of types
      `assgnTypes`: the counts agree, every input type is the wildcard or the
      argument's type, and every bound target has the output's type. */
  predicate Matches(f: Overload, argTypes: seq<BaseType>, assgnTypes: seq<BaseType>) {
    && |f.inT| == |argTypes| && |f.outT| == |assgnTypes|
    && (forall i :: 0 <= i < |f.inT| ==> f.inT[i] == Any || f.inT[i] == argTypes[i])
    && (forall i :: 0 <= i < |f.outT| ==> assgnTypes[i] == Any || f.outT[i] == assgnTypes[i])
  }

  /** The first overload in table order that matches, or `|funcs|`. */
  function FirstMatch(funcs: seq<Overload>, argTypes: seq<BaseType>, assgnTypes: seq<BaseType>): (k: nat)
    ensures k <= |funcs|
    ensures k < |funcs| ==> Matches(funcs[k], argTypes, assgnTypes)
    ensures forall j :: 0 <= j < k ==> !Matches(funcs[j], argTypes, assgnTypes)
    decreases |funcs|
  {
    if funcs == [] then 0
    else if Matches(funcs[0], argTypes, assgnTypes) then 0
    else
      var k := 1 + FirstMatch(funcs[1..], argTypes, assgnTypes);
      assert forall j :: 1 <= j < k ==> funcs[j] == funcs[1..][j - 1];
      k
  }

  /** With a table whose overloads are typed and pairwise distinguishable,
      and arguments of known types, at most one overload matches: the first
      match is the only one. */
  lemma MatchIsUnique(funcs: seq<Overload>, argTypes: seq<BaseType>, assgnTypes: seq<BaseType>, j: nat, k: nat)
    requires OverloadsUnambiguous(funcs)
    requires forall i :: 0 <= i < |funcs| ==> OverloadOk(funcs[i])
    requires j < |funcs| && k < |funcs|
    requires Matches(funcs[j], argTypes, assgnTypes) && Matches(funcs[k], argTypes, assgnTypes)
    ensures j == k
  {
    TypedWindow(funcs[j].f);
    TypedWindow(funcs[k].f);
    assert funcs[j].inT == argTypes by {
      forall i | 0 <= i < |argTypes| ensures funcs[j].inT[i] == argTypes[i] {
        assert funcs[j].inT[i] in InTypes(funcs[j].f);
      }
    }
    assert funcs[k].inT == argTypes by {
      forall i | 0 <= i < |argTypes| ensures funcs[k].inT[i] == argTypes[i] {
        assert funcs[k].inT[i] in InTypes(funcs[k].f);
      }
    }
  }

  /** `+` on two integers resolves to integer addition and on two strings to
      concatenation; a mix matches neither. */
  lemma PlusResolves()
    ensures Matches(Overloads[4][0], [Int, Int], [Any]) && Overloads[4][0].f == Arith(Add)
    ensures !Matches(Overloads[4][1], [Int, Int], [Any])
    ensures !Matches(Overloads[4][0], [Str, Str], [Any])
    ensures Matches(Overloads[4][1], [Str, Str], [Any]) && Overloads[4][1].f == Concat
    ensures !Matches(Overloads[4][0], [Int, Str], [Any]) && !Matches(Overloads[4][1], [Int, Str], [Any])
    ensures !Matches(Overloads[4][0], [Int, Int], [Str])
  {
    var a, c := Overloads[4][0], Overloads[4][1];
    assert a.inT == [Int, Int] && c.inT == [Str, Str];
    assert !Matches(c, [Int, Int], [Any]) by { assert c.inT[0] != Int; }
    assert !Matches(a, [Str, Str], [Any]) by { assert a.inT[0] != Str; }
    assert !Matches(a, [Int, Str], [Any]) by { assert a.inT[1] != Str; }
    assert !Matches(c, [Int, Str], [Any]) by { assert c.inT[0] != Int; }
    assert !Matches(a, [Int, Int], [Str]) by { assert a.outT[0] != Str; }
  }
  // ---------------------------------------------------------------------------
  // Plain assignment

  /** What `target = arg` makes of the compiler's state.  A source identifier
      must be bound and a bound target must have the source's type; an
      unbound target gets a fresh zero slot of that type; then the copy
      window `[copy opcode, source slot, target slot]` is emitted.  A literal
      assigned to an unbound target becomes the initial value of the target's
      fresh slot and nothing is emitted; assigned to a bound target of its
      type it is interned (once, under its own text) and copied. */
  function Assignment(s: State, target: string, arg: string): Result<State, string>
    requires IsArg(arg)
  {
    if IsIdentifier(arg) then IdentifierAssignment(s, target, arg) else LiteralAssignment(s, target, arg)
  }

  function IdentifierAssignment(s: State, target: string, arg: string): Result<State, string> {
    var dst, src := TypeAndAddrOfID(s, target), TypeAndAddrOfID(s, arg);
    if !src.found then Failure(UnboundMsg(arg))
    else if dst.found && dst.t != src.t then Failure(MismatchMsg(arg, target))
    else if dst.found then Success(Emitted(s, [CopyFuncInstructionForType(src.t), src.addr, dst.addr]))
    else
      Success(Emitted(Allocated(s, target, Zero(src.t)),
                      [CopyFuncInstructionForType(src.t), src.addr, ArrLen(s.bc, src.t)]))
  }

  function LiteralAssignment(s: State, target: string, arg: string): Result<State, string>
    requires IsLiteral(arg)
  {
    var dst, lit := TypeAndAddrOfID(s, target), TypeAndAddrOfID(s, arg);
    if !dst.found then Success(Allocated(s, target, LiteralValue(arg)))
    else if dst.t != RawToType(arg) then Failure(MismatchMsg(arg, target))
    else if lit.found then Success(Emitted(s, [CopyFuncInstructionForType(dst.t), lit.addr, dst.addr]))
    else
      Success(Emitted(Allocated(s, arg, LiteralValue(arg)),
                      [CopyFuncInstructionForType(dst.t), ArrLen(s.bc, dst.t), dst.addr]))
  }

  /** A successful assignment keeps the compiler's invariant, so the stream
      stays a sequence of well-formed windows. */
  lemma AssignmentOk(table: seq<Handler>, s: State, target: string, arg: string)
    requires Ok(table, s) && CopiesAt(table)
    requires IsIdentifier(target) && IsArg(arg)
    ensures Assignment(s, target, arg).Success? ==> Ok(table, Assignment(s, target, arg).value)
  {
    if IsIdentifier(arg) {
      IdentifierAssignmentOk(table, s, target, arg);
    } else {
      LiteralAssignmentOk(table, s, target, arg);
    }
  }

  lemma IdentifierAssignmentOk(table: seq<Handler>, s: State, target: string, arg: string)
    requires Ok(table, s) && CopiesAt(table)
    requires IsIdentifier(target)
    ensures IdentifierAssignment(s, target, arg).Success? ==> Ok(table, IdentifierAssignment(s, target, arg).value)
  {
    var dst, src := TypeAndAddrOfID(s, target), TypeAndAddrOfID(s, arg);
    if src.found {
      BoundInRange(table, s, arg);
      if dst.found {
        if dst.t == src.t {
          BoundInRange(table, s, target);
          CopyOk(table, s, src.t, src.addr, dst.addr);
        }
      } else {
        IdentifierIsNotLiteral(target);
        FreshCopyOk(table, s, target, Zero(src.t), src.addr);
      }
    }
  }

  lemma LiteralAssignmentOk(table: seq<Handler>, s: State, target: string, arg: string)
    requires Ok(table, s) && CopiesAt(table)
    requires IsIdentifier(target) && IsLiteral(arg)
    ensures LiteralAssignment(s, target, arg).Success? ==> Ok(table, LiteralAssignment(s, target, arg).value)
  {
    var dst := TypeAndAddrOfID(s, target);
    if !dst.found {
      IdentifierIsNotLiteral(target);
      AllocatedOk(table, s, target, LiteralValue(arg));
    } else if dst.t == RawToType(arg) {
      LiteralCopyOk(table, s, target, arg);
    }
  }

  lemma LiteralCopyOk(table: seq<Handler>, s: State, target: string, arg: string)
    requires Ok(table, s) && CopiesAt(table)
    requires IsLiteral(arg) && Bound(s, target) && TypeAndAddrOfID(s, target).t == RawToType(arg)
    ensures Ok(table, LiteralAssignment(s, target, arg).value)
  {
    var dst, lit := TypeAndAddrOfID(s, target), TypeAndAddrOfID(s, arg);
    BoundInRange(table, s, target);
    if lit.found {
      LiteralBinding(table, s, arg);
      CopyOk(table, s, dst.t, lit.addr, dst.addr);
    } else {
      FreshCopyOk(table, s, arg, LiteralValue(arg), dst.addr);
    }
  }

  /** A copy between two slots of type `t` keeps the invariant. */
  lemma CopyOk(table: seq<Handler>, s: State, t: BaseType, src: int, dst: int)
    requires Ok(table, s) && CopiesAt(table)
    requires t != Any && InBounds(s.bc, t, src) && InBounds(s.bc, t, dst)
    ensures Ok(table, Emitted(s, [CopyFuncInstructionForType(t), src, dst]))
  {
    CopyFits(table, s, t, src, dst);
    EmittedOk(table, s, CopyFuncInstructionForType(t), [src, dst]);
    assert [CopyFuncInstructionForType(t)] + [src, dst] == [CopyFuncInstructionForType(t), src, dst];
  }

  /** A fresh slot for `id`, then a copy between it and a slot `a` of its
      type, in either direction, keeps the invariant. */
  lemma FreshCopyOk(table: seq<Handler>, s: State, id: string, v: Value, a: int)
    requires Ok(table, s) && CopiesAt(table) && !Bound(s, id)
    requires IsLiteral(id) ==> v == LiteralValue(id)
    requires InBounds(s.bc, TypeOf(v), a)
    ensures var s1, t := Allocated(s, id, v), TypeOf(v);
      && Ok(table, Emitted(s1, [CopyFuncInstructionForType(t), a, ArrLen(s.bc, t)]))
      && Ok(table, Emitted(s1, [CopyFuncInstructionForType(t), ArrLen(s.bc, t), a]))
  {
    var s1, t := Allocated(s, id, v), TypeOf(v);
    AllocatedOk(table, s, id, v);
    AllocatedSlot(s, id, v);
    AllocatedKeepsSlot(s, id, v, t, a);
    CopyOk(table, s1, t, a, ArrLen(s.bc, t));
    CopyOk(table, s1, t, ArrLen(s.bc, t), a);
  }
  /** A fresh binding for an unbound name leaves every other binding as it
      was. */
  lemma AllocationExtends(s: State, id: string, v: Value)
    requires !Bound(s, id)
    ensures Extends(s, Allocated(s, id, v))
  {
    forall x | Bound(s, x)
      ensures TypeAndAddrOfID(Allocated(s, id, v), x) == TypeAndAddrOfID(s, x)
    {
      AllocatedKeeps(s, id, v, x);
    }
  }

  /** Interning a literal under its own text binds no identifier. */
  lemma LiteralKeepsIdentifiers(s: State, raw: string, v: Value)
    requires IsLiteral(raw)
    ensures IdentifiersKept(s, Allocated(s, raw, v))
  {
    forall id | IsIdentifier(id)
      ensures TypeAndAddrOfID(Allocated(s, raw, v), id) == TypeAndAddrOfID(s, id)
    {
      IdentifierIsNotLiteral(id);
      AllocatedKeeps(s, raw, v, id);
    }
  }

  /** An assignment fails exactly when the source is an unbound identifier
      or a bound target has a type other than the source's. */
  lemma AssignmentFails(s: State, target: string, arg: string)
    requires IsArg(arg)
    ensures var t := if IsIdentifier(arg) then TypeAndAddrOfID(s, arg).t else RawToType(arg);
      Assignment(s, target, arg).Failure? <==>
        || (IsIdentifier(arg) && !Bound(s, arg))
        || ((!IsIdentifier(arg) || Bound(s, arg)) && Bound(s, target) && TypeAndAddrOfID(s, target).t != t)
  {
  }

  /** A successful assignment from an identifier leaves the target bound to
      the source's type, keeps every earlier binding, and appends exactly
      the copy window from the source's slot to the target's. */
  lemma IdentifierAssignmentEffect(s: State, target: string, arg: string)
    requires Disjoint(s) && IsIdentifier(arg)
    ensures var r := IdentifierAssignment(s, target, arg);
      r.Success? ==>
        var src, dst := TypeAndAddrOfID(s, arg), TypeAndAddrOfID(r.value, target);
        && dst.found && dst.t == src.t
        && Extends(s, r.value)
        && r.value.bc.opAddrs == s.bc.opAddrs + [CopyFuncInstructionForType(src.t), src.addr, dst.addr]
  {
    var src, dst := TypeAndAddrOfID(s, arg), TypeAndAddrOfID(s, target);
    if src.found && !dst.found {
      AllocatedSlot(s, target, Zero(src.t));
      AllocationExtends(s, target, Zero(src.t));
    }
  }

  /** A successful assignment of a literal leaves the target bound to the
      literal's type and keeps every earlier binding.  An unbound target's
      fresh slot holds the literal and nothing is emitted; otherwise the
      copy window from the literal's interned slot to the target's is
      appended. */
  lemma LiteralAssignmentEffect(s: State, target: string, arg: string)
    requires Disjoint(s) && IsIdentifier(target) && IsLiteral(arg)
    ensures var r := LiteralAssignment(s, target, arg);
      r.Success? ==>
        var dst := TypeAndAddrOfID(r.value, target);
        && dst.found && dst.t == RawToType(arg)
        && Extends(s, r.value)
        && (!Bound(s, target) ==>
              r.value.bc.opAddrs == s.bc.opAddrs && Read(r.value.bc, dst.t, dst.addr) == LiteralValue(arg))
        && (Bound(s, target) ==>
              r.value.bc.opAddrs
              == s.bc.opAddrs + [CopyFuncInstructionForType(dst.t), TypeAndAddrOfID(r.value, arg).addr, dst.addr])
  {
    IdentifierIsNotLiteral(target);
    var dst := TypeAndAddrOfID(s, target);
    if !dst.found {
      AllocatedSlot(s, target, LiteralValue(arg));
      AllocationExtends(s, target, LiteralValue(arg));
    } else if dst.t == RawToType(arg) {
      LiteralCopyEffect(s, target, arg);
    }
  }

  lemma LiteralCopyEffect(s: State, target: string, arg: string)
    requires Disjoint(s) && IsIdentifier(target) && IsLiteral(arg)
    requires Bound(s, target) && TypeAndAddrOfID(s, target).t == RawToType(arg)
    ensures var s' := LiteralAssignment(s, target, arg).value;
      && TypeAndAddrOfID(s', target) == TypeAndAddrOfID(s, target)
      && Extends(s, s')
      && s'.bc.opAddrs
         == s.bc.opAddrs + [CopyFuncInstructionForType(RawToType(arg)), TypeAndAddrOfID(s', arg).addr,
                            TypeAndAddrOfID(s, target).addr]
  {
    if !Bound(s, arg) {
      IdentifierIsNotLiteral(target);
      AllocatedSlot(s, arg, LiteralValue(arg));
      AllocationExtends(s, arg, LiteralValue(arg));
    }
  }

  // ---------------------------------------------------------------------------
  // Operation calls

  /** The arguments of a call as far as they have been looked up: the state,
      their types and slots so far, and the error that stopped the loop. */
  datatype Interned = Interned(s: State, types: seq<BaseType>, addrs: seq<int>, err: Option<string>)

  /** One turn of the argument loop of a call: an identifier must be bound;
      a literal is looked up under its own text and interned on first use.
      Once the loop has stopped, nothing changes. */
  function InternArg(r: Interned, a: string): Interned
    requires IsArg(a)
  {
    var b := TypeAndAddrOfID(r.s, a);
    if r.err.Some? then r
    else if b.found then r.(types := r.types + [b.t], addrs := r.addrs + [b.addr])
    else if IsIdentifier(a) then r.(err := Some(UnboundMsg(a)))
    else
      Interned(Allocated(r.s, a, LiteralValue(a)), r.types + [RawToType(a)],
               r.addrs + [ArrLen(r.s.bc, RawToType(a))], None)
  }

  /** The argument loop of a call, over the arguments in order: the first
      unbound identifier stops it, with the literals before it already
      interned. */
  function InternArgs(s: State, args: seq<string>): (r: Interned)
    requires forall k :: 0 <= k < |args| ==> IsArg(args[k])
    ensures r.err.None? ==> |r.types| == |args| && |r.addrs| == |args|
  {
    if args == [] then Interned(s, [], [], None)
    else InternArg(InternArgs(s, args[..|args| - 1]), args[|args| - 1])
  }

  /** Once the loop stops, the arguments after it change nothing. */
  lemma {:induction false} InternArgsStops(s: State, args: seq<string>, n: nat)
    requires forall k :: 0 <= k < |args| ==> IsArg(args[k])
    requires n <= |args| && InternArgs(s, args[..n]).err.Some?
    ensures InternArgs(s, args) == InternArgs(s, args[..n])
    decreases |args| - n
  {
    if n < |args| {
      assert args[..n + 1][..n] == args[..n];
      InternArgsStops(s, args, n + 1);
    } else {
      assert args[..n] == args;
    }
  }

  lemma InternArgOk(table: seq<Handler>, r: Interned, a: string)
    requires Ok(table, r.s) && IsArg(a)
    ensures Ok(table, InternArg(r, a).s) && Grown(r.s.bc, InternArg(r, a).s.bc)
  {
    if r.err.None? && !Bound(r.s, a) && !IsIdentifier(a) {
      AllocatedOk(table, r.s, a, LiteralValue(a));
      AllocatedSlot(r.s, a, LiteralValue(a));
    }
  }

  /** The argument loop keeps the invariant and emits nothing. */
  lemma {:induction false} InternArgsOk(table: seq<Handler>, s: State, args: seq<string>)
    requires Ok(table, s)
    requires forall k :: 0 <= k < |args| ==> IsArg(args[k])
    ensures Ok(table, InternArgs(s, args).s) && Grown(s.bc, InternArgs(s, args).s.bc)
  {
    if args != [] {
      InternArgsOk(table, s, args[..|args| - 1]);
      InternArgOk(table, InternArgs(s, args[..|args| - 1]), args[|args| - 1]);
    }
  }

  lemma InternArgKeeps(r: Interned, a: string)
    requires IsArg(a)
    ensures Extends(r.s, InternArg(r, a).s) && IdentifiersKept(r.s, InternArg(r, a).s)
    ensures InternArg(r, a).s.bc.opAddrs == r.s.bc.opAddrs
  {
    if r.err.None? && !Bound(r.s, a) && !IsIdentifier(a) {
      AllocationExtends(r.s, a, LiteralValue(a));
      LiteralKeepsIdentifiers(r.s, a, LiteralValue(a));
    }
  }

  /** The argument loop binds no identifier and changes no binding. */
  lemma {:induction false} InternArgsKeeps(s: State, args: seq<string>)
    requires forall k :: 0 <= k < |args| ==> IsArg(args[k])
    ensures Extends(s, InternArgs(s, args).s) && IdentifiersKept(s, InternArgs(s, args).s)
    ensures InternArgs(s, args).s.bc.opAddrs == s.bc.opAddrs
  {
    if args != [] {
      InternArgsKeeps(s, args[..|args| - 1]);
      InternArgKeeps(InternArgs(s, args[..|args| - 1]), args[|args| - 1]);
    }
  }

  /** The arguments so far are bound to the types and slots reported. */
  ghost predicate Reports(r: Interned, args: seq<string>) {
    r.err.None? ==>
      && |r.types| == |args| && |r.addrs| == |args|
      && forall j :: 0 <= j < |args| ==> TypeAndAddrOfID(r.s, args[j]) == Binding(r.types[j], r.addrs[j], true)
  }

  lemma InternArgBinds(r: Interned, prev: seq<string>, a: string)
    requires Disjoint(r.s) && IsArg(a) && Reports(r, prev)
    ensures Disjoint(InternArg(r, a).s) && Reports(InternArg(r, a), prev + [a])
  {
    if r.err.None? {
      var args := prev + [a];
      var r' := InternArg(r, a);
      if !Bound(r.s, a) && !IsIdentifier(a) {
        var v := LiteralValue(a);
        AllocatedSlot(r.s, a, v);
        forall j | 0 <= j < |prev|
          ensures TypeAndAddrOfID(r'.s, args[j]) == Binding(r'.types[j], r'.addrs[j], true)
        {
          AllocatedKeeps(r.s, a, v, prev[j]);
          assert args[j] == prev[j];
        }
      } else if r'.err.None? {
        forall j | 0 <= j < |prev|
          ensures TypeAndAddrOfID(r'.s, args[j]) == Binding(r'.types[j], r'.addrs[j], true)
        {
          assert args[j] == prev[j];
        }
      }
    }
  }

  /** When the argument loop completes, every argument is bound, to the type
      and slot the loop reports. */
  lemma {:induction false} InternArgsBinds(s: State, args: seq<string>)
    requires Disjoint(s)
    requires forall k :: 0 <= k < |args| ==> IsArg(args[k])
    ensures Disjoint(InternArgs(s, args).s) && Reports(InternArgs(s, args), args)
  {
    if args != [] {
      var init := args[..|args| - 1];
      InternArgsBinds(s, init);
      InternArgBinds(InternArgs(s, init), init, args[|args| - 1]);
      assert init + [args[|args| - 1]] == args;
    }
  }

  /** The loop has failed exactly when one of `args` is an identifier
      unbound in `s`, and then names one. */
  ghost predicate FailsOnUnbound(s: State, r: Interned, args: seq<string>) {
    && (r.err.None? <==> forall j :: 0 <= j < |args| && IsIdentifier(args[j]) ==> Bound(s, args[j]))
    && (r.err.Some? ==>
          exists j :: 0 <= j < |args| && IsIdentifier(args[j]) && !Bound(s, args[j])
                      && r.err == Some(UnboundMsg(args[j])))
  }

  lemma InternArgFails(s: State, r: Interned, prev: seq<string>, a: string)
    requires IsArg(a) && IdentifiersKept(s, r.s) && FailsOnUnbound(s, r, prev)
    ensures FailsOnUnbound(s, InternArg(r, a), prev + [a])
  {
    var args := prev + [a];
    assert forall j :: 0 <= j < |prev| ==> args[j] == prev[j];
    if r.err.Some? {
      var j :| 0 <= j < |prev| && IsIdentifier(prev[j]) && !Bound(s, prev[j]) && r.err == Some(UnboundMsg(prev[j]));
      assert args[j] == prev[j];
    } else if IsIdentifier(a) {
      assert TypeAndAddrOfID(r.s, a) == TypeAndAddrOfID(s, a);
      assert args[|prev|] == a;
    }
  }

  /** The argument loop fails exactly when some argument is an unbound
      identifier, and then names one. */
  lemma {:induction false} InternArgsFails(s: State, args: seq<string>)
    requires forall k :: 0 <= k < |args| ==> IsArg(args[k])
    ensures FailsOnUnbound(s, InternArgs(s, args), args)
  {
    if args != [] {
      var init := args[..|args| - 1];
      InternArgsFails(s, init);
      InternArgsKeeps(s, init);
      InternArgFails(s, InternArgs(s, init), init, args[|args| - 1]);
      assert init + [args[|args| - 1]] == args;
    }
  }

  /** The loop that binds each unbound target of the chosen overload to a
      fresh zero slot of the overload's output type (for the wildcard, the
      source allocates nothing and records slot 0). */
  function BindTargets(s: State, outT: seq<BaseType>, assgns: seq<string>, types: seq<BaseType>,
                       addrs: seq<int>, n: nat): (r: (State, seq<int>))
    requires n <= |outT| && |assgns| == |outT| && |types| == |outT| && |addrs| == |outT|
    ensures |r.1| == |addrs|
  {
    if n == 0 then (s, addrs)
    else
      var (s1, as1) := BindTargets(s, outT, assgns, types, addrs, n - 1);
      if types[n - 1] != Any then (s1, as1)
      else if outT[n - 1] == Any then (s1, as1[n - 1 := 0])
      else (Allocated(s1, assgns[n - 1], Zero(outT[n - 1])), as1[n - 1 := ArrLen(s1.bc, outT[n - 1])])
  }

  /** For an overload with at most one output (every handler has), binding
      the targets keeps the invariant. */
  lemma BindTargetsOk(table: seq<Handler>, s: State, outT: seq<BaseType>, assgns: seq<string>)
    requires Ok(table, s) && |outT| <= 1 && |assgns| == |outT| && Any !in outT
    requires forall i :: 0 <= i < |assgns| ==> IsIdentifier(assgns[i])
    ensures var r := BindTargets(s, outT, assgns, TypesOf(s, assgns), AddrsOf(s, assgns), |outT|);
      Ok(table, r.0) && Grown(s.bc, r.0.bc)
  {
    if |outT| == 1 {
      var id := assgns[0];
      TypesOfAt(s, assgns, 0);
      if !Bound(s, id) {
        IdentifierIsNotLiteral(id);
        AllocatedOk(table, s, id, Zero(outT[0]));
        AllocatedSlot(s, id, Zero(outT[0]));
      }
    }
  }

  /** Binding the targets emits nothing. */
  lemma {:induction false} BindTargetsStream(s: State, outT: seq<BaseType>, assgns: seq<string>, types: seq<BaseType>,
                                             addrs: seq<int>, n: nat)
    requires n <= |outT| && |assgns| == |outT| && |types| == |outT| && |addrs| == |outT|
    ensures BindTargets(s, outT, assgns, types, addrs, n).0.bc.opAddrs == s.bc.opAddrs
  {
    if n > 0 {
      BindTargetsStream(s, outT, assgns, types, addrs, n - 1);
    }
  }

  /** Binding the targets keeps the earlier bindings and leaves every target
      bound to the output type at the slot reported. */
  lemma BindTargetsBinds(s: State, outT: seq<BaseType>, assgns: seq<string>)
    requires Disjoint(s) && |outT| <= 1 && |assgns| == |outT| && Any !in outT
    requires forall i :: 0 <= i < |outT| ==> TypesOf(s, assgns)[i] == Any || outT[i] == TypesOf(s, assgns)[i]
    ensures var r := BindTargets(s, outT, assgns, TypesOf(s, assgns), AddrsOf(s, assgns), |outT|);
      && Extends(s, r.0) && Disjoint(r.0)
      && forall i :: 0 <= i < |assgns| ==> TypeAndAddrOfID(r.0, assgns[i]) == Binding(outT[i], r.1[i], true)
  {
    if |outT| == 1 {
      var id := assgns[0];
      TypesOfAt(s, assgns, 0);
      if !Bound(s, id) {
        AllocatedSlot(s, id, Zero(outT[0]));
        AllocationExtends(s, id, Zero(outT[0]));
      }
    }
  }

  /** What a call makes of the compiler's state: intern the arguments, look
      up the targets, take the first matching overload, then `Emit`.  The
      error is the message without its line. */
  function CallEffect(s: State, op: string, funcs: seq<Overload>, assgns: seq<string>, args: seq<string>)
    : (State, Option<string>)
    requires forall k :: 0 <= k < |args| ==> IsArg(args[k])
  {
    var r := InternArgs(s, args);
    if r.err.Some? then (r.s, r.err)
    else
      var k := FirstMatch(funcs, r.types, TypesOf(r.s, assgns));
      if k == |funcs| then (r.s, Some(NoMatchMsg(op)))
      else (Emit(r.s, funcs[k], r.addrs, assgns), None)
  }

  /** The chosen overload `f` at work: bind the unbound targets, then
      append `[opcode] + argument slots + target slots`. */
  function Emit(s: State, f: Overload, argAddrs: seq<int>, assgns: seq<string>): State
    requires |f.outT| == |assgns|
  {
    var b := BindTargets(s, f.outT, assgns, TypesOf(s, assgns), AddrsOf(s, assgns), |assgns|);
    Emitted(b.0, [f.addr] + argAddrs + b.1)
  }

  /** What the chosen overload needs of the state: it is typed and numbered
      as in the table, and it matches the arguments, bound to the types and
      slots given, and the targets as bound in `s`. */
  ghost predicate Chosen(table: seq<Handler>, s: State, f: Overload, args: seq<string>, types: seq<BaseType>,
                         addrs: seq<int>, assgns: seq<string>) {
    && OverloadOk(f) && 0 <= f.addr < |table| && table[f.addr] == f.f
    && Matches(f, types, TypesOf(s, assgns))
    && |args| == |types| == |addrs|
    && (forall j :: 0 <= j < |args| ==> TypeAndAddrOfID(s, args[j]) == Binding(types[j], addrs[j], true))
    && (forall i :: 0 <= i < |assgns| ==> IsIdentifier(assgns[i]))
  }

  /** Emitting the chosen overload's window keeps the invariant. */
  lemma EmitOk(table: seq<Handler>, s: State, f: Overload, args: seq<string>, types: seq<BaseType>,
               addrs: seq<int>, assgns: seq<string>)
    requires Ok(table, s) && Chosen(table, s, f, args, types, addrs, assgns)
    ensures Ok(table, Emit(s, f, addrs, assgns))
  {
    TypedWindow(f.f);
    BindTargetsOk(table, s, f.outT, assgns);
    BindTargetsBinds(s, f.outT, assgns);
    var b := BindTargets(s, f.outT, assgns, TypesOf(s, assgns), AddrsOf(s, assgns), |assgns|);
    CallFits(table, b.0, f, args, types, addrs, assgns, b.1);
    EmittedOk(table, b.0, f.addr, addrs + b.1);
    WindowAssoc(f.addr, addrs, b.1);
  }

  lemma WindowAssoc(op: int, ins: seq<int>, outs: seq<int>)
    ensures [op] + ins + outs == [op] + (ins + outs)
  {
  }

  /** After the chosen overload's window, the arguments keep their types
      and slots. */
  lemma EmitKeepsArgs(table: seq<Handler>, s: State, f: Overload, args: seq<string>, types: seq<BaseType>,
                      addrs: seq<int>, assgns: seq<string>)
    requires Disjoint(s) && Chosen(table, s, f, args, types, addrs, assgns)
    ensures var s' := Emit(s, f, addrs, assgns);
      TypesOf(s', args) == types && AddrsOf(s', args) == addrs
  {
    TypedWindow(f.f);
    BindTargetsBinds(s, f.outT, assgns);
    var s' := Emit(s, f, addrs, assgns);
    forall j | 0 <= j < |args|
      ensures TypesOf(s', args)[j] == types[j] && AddrsOf(s', args)[j] == addrs[j]
    {
      TypesOfAt(s', args, j);
    }
  }

  /** After the chosen overload's window, each target is bound to the output
      type at the slot the window names, and no earlier binding changed. */
  lemma EmitBinds(table: seq<Handler>, s: State, f: Overload, args: seq<string>, types: seq<BaseType>,
                  addrs: seq<int>, assgns: seq<string>)
    requires Disjoint(s) && Chosen(table, s, f, args, types, addrs, assgns)
    ensures var s' := Emit(s, f, addrs, assgns);
      && AddrsOf(s', assgns) == BindTargets(s, f.outT, assgns, TypesOf(s, assgns), AddrsOf(s, assgns), |assgns|).1
      && (forall i :: 0 <= i < |assgns| ==> TypeAndAddrOfID(s', assgns[i]).t == f.outT[i])
      && Extends(s, s')
  {
    TypedWindow(f.f);
    BindTargetsBinds(s, f.outT, assgns);
    var b := BindTargets(s, f.outT, assgns, TypesOf(s, assgns), AddrsOf(s, assgns), |assgns|);
    var s' := Emit(s, f, addrs, assgns);
    forall i | 0 <= i < |assgns|
      ensures AddrsOf(s', assgns)[i] == b.1[i]
    {
      TypesOfAt(s', assgns, i);
    }
  }

  /** The window appended for the chosen overload: its opcode, then the
      argument slots and the target slots as bound afterwards, as long as
      the handler's width. */
  lemma EmitShape(table: seq<Handler>, s: State, f: Overload, args: seq<string>, types: seq<BaseType>,
                  addrs: seq<int>, assgns: seq<string>)
    requires Disjoint(s) && Chosen(table, s, f, args, types, addrs, assgns)
    ensures var s' := Emit(s, f, addrs, assgns);
      && s'.bc.opAddrs == s.bc.opAddrs + [f.addr] + AddrsOf(s', args) + AddrsOf(s', assgns)
      && |s'.bc.opAddrs| == |s.bc.opAddrs| + Width(f.f)
  {
    BindTargetsStream(s, f.outT, assgns, TypesOf(s, assgns), AddrsOf(s, assgns), |assgns|);
    EmitKeepsArgs(table, s, f, args, types, addrs, assgns);
    EmitBinds(table, s, f, args, types, addrs, assgns);
    EmitUnfolds(s, f, addrs, assgns);
  }

  lemma EmitUnfolds(s: State, f: Overload, argAddrs: seq<int>, assgns: seq<string>)
    requires |f.outT| == |assgns|
    ensures var b := BindTargets(s, f.outT, assgns, TypesOf(s, assgns), AddrsOf(s, assgns), |assgns|);
      Emit(s, f, argAddrs, assgns).bc.opAddrs == b.0.bc.opAddrs + [f.addr] + argAddrs + b.1
  {
  }

  /** The overloads of a name as the dispatch table numbers them. */
  ghost predicate OverloadsIn(funcs: seq<Overload>, table: seq<Handler>) {
    forall k :: 0 <= k < |funcs| ==>
      OverloadOk(funcs[k]) && 0 <= funcs[k].addr < |table| && table[funcs[k].addr] == funcs[k].f
  }

  /** Every address of the emitted window is in range for its operand. */
  lemma CallFits(table: seq<Handler>, s: State, f: Overload, args: seq<string>, types: seq<BaseType>,
                 addrs: seq<int>, assgns: seq<string>, outAddrs: seq<int>)
    requires Ok(table, s) && OverloadOk(f) && 0 <= f.addr < |table| && table[f.addr] == f.f
    requires |args| == |types| == |addrs| == |f.inT| && |assgns| == |outAddrs| == |f.outT|
    requires forall i :: 0 <= i < |f.inT| ==> f.inT[i] == Any || f.inT[i] == types[i]
    requires forall j :: 0 <= j < |args| ==> TypeAndAddrOfID(s, args[j]) == Binding(types[j], addrs[j], true)
    requires forall i :: 0 <= i < |assgns| ==> TypeAndAddrOfID(s, assgns[i]) == Binding(f.outT[i], outAddrs[i], true)
    ensures FitsWindow(table, s.bc, f.addr, addrs + outAddrs)
  {
    TypedWindow(f.f);
    var ops := Operands(f.f);
    forall j | 0 <= j < |addrs + outAddrs|
      ensures InBounds(s.bc, ops[j], (addrs + outAddrs)[j])
    {
      if j < |addrs| {
        assert f.inT[j] in InTypes(f.f);
        BoundInRange(table, s, args[j]);
      } else {
        BoundInRange(table, s, assgns[j - |addrs|]);
      }
    }
  }

  /** A call keeps the compiler's invariant, whether it succeeds or not. */
  lemma CallOk(table: seq<Handler>, s: State, op: string, funcs: seq<Overload>, assgns: seq<string>, args: seq<string>)
    requires Ok(table, s) && OverloadsIn(funcs, table)
    requires forall i :: 0 <= i < |assgns| ==> IsIdentifier(assgns[i])
    requires forall k :: 0 <= k < |args| ==> IsArg(args[k])
    ensures Ok(table, CallEffect(s, op, funcs, assgns, args).0)
  {
    var r := InternArgs(s, args);
    InternArgsOk(table, s, args);
    InternArgsBinds(s, args);
    if r.err.None? {
      var k := FirstMatch(funcs, r.types, TypesOf(r.s, assgns));
      if k < |funcs| {
        EmitOk(table, r.s, funcs[k], args, r.types, r.addrs, assgns);
      }
    }
  }

  /** Identifiers keep their types while only literals are interned. */
  lemma TargetTypesKept(s: State, s': State, assgns: seq<string>)
    requires IdentifiersKept(s, s')
    requires forall i :: 0 <= i < |assgns| ==> IsIdentifier(assgns[i])
    ensures TypesOf(s', assgns) == TypesOf(s, assgns)
  {
    forall i | 0 <= i < |assgns| ensures TypesOf(s', assgns)[i] == TypesOf(s, assgns)[i] {
      TypesOfAt(s', assgns, i);
      TypesOfAt(s, assgns, i);
    }
  }

  /** A successful call appends exactly one window: the chosen overload's
      opcode, then the slots of the arguments and of the targets as bound
      afterwards, as long as the handler's width.  The chosen overload is the
      first that matches the argument types and the targets' types as bound
      before; afterwards each target has its output type. */
  lemma CallEmits(table: seq<Handler>, s: State, op: string, funcs: seq<Overload>, assgns: seq<string>, args: seq<string>)
    requires Disjoint(s) && OverloadsIn(funcs, table)
    requires forall i :: 0 <= i < |assgns| ==> IsIdentifier(assgns[i])
    requires forall k :: 0 <= k < |args| ==> IsArg(args[k])
    ensures var (s', e) := CallEffect(s, op, funcs, assgns, args);
      e.None? ==>
        var k := FirstMatch(funcs, TypesOf(s', args), TypesOf(s, assgns));
        && k < |funcs|
        && s'.bc.opAddrs == s.bc.opAddrs + [funcs[k].addr] + AddrsOf(s', args) + AddrsOf(s', assgns)
        && |s'.bc.opAddrs| == |s.bc.opAddrs| + Width(funcs[k].f)
        && (forall i :: 0 <= i < |assgns| ==> TypeAndAddrOfID(s', assgns[i]).t == funcs[k].outT[i])
        && Extends(s, s')
  {
    var r := InternArgs(s, args);
    InternArgsBinds(s, args);
    InternArgsKeeps(s, args);
    if r.err.None? {
      TargetTypesKept(s, r.s, assgns);
      var k := FirstMatch(funcs, r.types, TypesOf(r.s, assgns));
      if k < |funcs| {
        assert CallEffect(s, op, funcs, assgns, args) == (Emit(r.s, funcs[k], r.addrs, assgns), None);
        EmitShape(table, r.s, funcs[k], args, r.types, r.addrs, assgns);
        EmitKeepsArgs(table, r.s, funcs[k], args, r.types, r.addrs, assgns);
        EmitBinds(table, r.s, funcs[k], args, r.types, r.addrs, assgns);
      }
    }
  }

  // ---------------------------------------------------------------------------
  // Lines and programs

  /** What one source line makes of the compiler's state: its fields are
      scanned against the operation names of `lib`, and the statement they
      form is compiled.  Errors carry the line number. */
  function LineEffect(s: State, text: string, line: int, lib: map<string, seq<Overload>>, bools: bool): (State, Option<string>) {
    var fields := Fields(text);
    match Scan(lib.Keys, bools, fields, 0, Start())
    case Failure(msg) => (s, Some(ParsingErr(line, msg)))
    case Success(st) =>
      StartSound(lib.Keys);
      ScanSound(lib.Keys, bools, fields, 0, Start());
      StatementEffect(s, st, line, lib)
  }

  /** A scanned statement: with targets and sources and no operation it is a
      plain assignment (of exactly one source to one target), with an
      operation it is a call, and anything else (a blank or comment line)
      changes nothing. */
  function StatementEffect(s: State, st: ScanState, line: int, lib: map<string, seq<Overload>>): (State, Option<string>)
    requires Sound(lib.Keys, st)
  {
    if st.op == "" && |st.args| > 0 && |st.assgns| > 0 then
      if |st.args| > 1 || |st.assgns| > 1 then
        (s, Some(ParsingErr(line, MultiAssignMsg)))
      else
        match Assignment(s, st.assgns[0], st.args[0])
        case Failure(msg) => (s, Some(ParsingErr(line, msg)))
        case Success(s') => (s', None)
    else if st.op != "" then
      var (s', e) := CallEffect(s, st.op, lib[st.op], st.assgns, st.args);
      (s', if e.Some? then Some(ParsingErr(line, e.value)) else None)
    else (s, None)
  }

  /** The program from its `i`-th line (numbered `i + 1`) on: the first error
      stops the compilation, with the state as the failing line left it. */
  function CompileFrom(s: State, lines: seq<string>, i: nat, lib: map<string, seq<Overload>>, bools: bool): (State, Option<string>)
    requires i <= |lines|
    decreases |lines| - i
  {
    if i == |lines| then (s, None)
    else
      var (s', e) := LineEffect(s, lines[i], i + 1, lib, bools);
      if e.Some? then (s', e) else CompileFrom(s', lines, i + 1, lib, bools)
  }

  /** The state the compiler starts from: no names, no slots, no windows. */
  function Empty(): State {
    State(Program([], [], [], []), map[], map[], map[])
  }

  /** The overloads of every name are typed and numbered as in `table`. */
  lemma LibOverloadsIn(lib: map<string, seq<Overload>>, table: seq<Handler>, op: string)
    requires LibOk(lib) && Consistent(lib, table) && op in lib
    ensures OverloadsIn(lib[op], table)
  {
  }

  /** Every statement keeps the invariant, whether it compiles or not. */
  lemma StatementOk(table: seq<Handler>, s: State, st: ScanState, line: int, lib: map<string, seq<Overload>>)
    requires Sound(lib.Keys, st)
    requires Ok(table, s) && CopiesAt(table) && LibOk(lib) && Consistent(lib, table)
    ensures Ok(table, StatementEffect(s, st, line, lib).0)
  {
    if st.op == "" && |st.args| > 0 && |st.assgns| > 0 {
      AssignStatementOk(table, s, st, line, lib);
    } else if st.op != "" {
      CallStatementOk(table, s, st, line, lib);
    }
  }

  lemma AssignStatementOk(table: seq<Handler>, s: State, st: ScanState, line: int, lib: map<string, seq<Overload>>)
    requires Sound(lib.Keys, st) && st.op == "" && |st.args| > 0 && |st.assgns| > 0
    requires Ok(table, s) && CopiesAt(table)
    ensures Ok(table, StatementEffect(s, st, line, lib).0)
  {
    var r := StatementEffect(s, st, line, lib);
    if |st.args| == 1 && |st.assgns| == 1 {
      var a := Assignment(s, st.assgns[0], st.args[0]);
      AssignmentOk(table, s, st.assgns[0], st.args[0]);
      assert r.0 == if a.Success? then a.value else s;
    } else {
      assert r.0 == s;
    }
  }

  lemma CallStatementOk(table: seq<Handler>, s: State, st: ScanState, line: int, lib: map<string, seq<Overload>>)
    requires Sound(lib.Keys, st) && st.op != ""
    requires Ok(table, s) && LibOk(lib) && Consistent(lib, table)
    ensures Ok(table, StatementEffect(s, st, line, lib).0)
  {
    LibOverloadsIn(lib, table, st.op);
    CallOk(table, s, st.op, lib[st.op], st.assgns, st.args);
  }

  /** Every line keeps the invariant, whether it compiles or not. */
  lemma LineOk(table: seq<Handler>, s: State, text: string, line: int, lib: map<string, seq<Overload>>, bools: bool)
    requires Ok(table, s) && CopiesAt(table) && LibOk(lib) && Consistent(lib, table)
    ensures Ok(table, LineEffect(s, text, line, lib, bools).0)
  {
    var fields := Fields(text);
    var r := Scan(lib.Keys, bools, fields, 0, Start());
    if r.Success? {
      StartSound(lib.Keys);
      ScanSound(lib.Keys, bools, fields, 0, Start());
      StatementOk(table, s, r.value, line, lib);
    }
  }

  /** A statement that fails appends no window; one that compiles only
      appends. */
  lemma StatementStream(s: State, st: ScanState, line: int, lib: map<string, seq<Overload>>)
    requires Sound(lib.Keys, st) && Disjoint(s)
    ensures var (s', e) := StatementEffect(s, st, line, lib);
      && (e.Some? ==> s'.bc.opAddrs == s.bc.opAddrs)
      && s.bc.opAddrs <= s'.bc.opAddrs
  {
    if st.op == "" && |st.args| > 0 && |st.assgns| > 0 {
      if |st.args| == 1 && |st.assgns| == 1 {
        if IsIdentifier(st.args[0]) {
          IdentifierAssignmentEffect(s, st.assgns[0], st.args[0]);
        } else {
          LiteralAssignmentEffect(s, st.assgns[0], st.args[0]);
        }
      }
    } else if st.op != "" {
      CallStream(s, st.op, lib[st.op], st.assgns, st.args);
    }
  }

  /** A line that fails appends no window; one that compiles only appends. */
  lemma LineStream(s: State, text: string, line: int, lib: map<string, seq<Overload>>, bools: bool)
    requires Disjoint(s)
    ensures var (s', e) := LineEffect(s, text, line, lib, bools);
      && (e.Some? ==> s'.bc.opAddrs == s.bc.opAddrs)
      && s.bc.opAddrs <= s'.bc.opAddrs
  {
    var fields := Fields(text);
    var r := Scan(lib.Keys, bools, fields, 0, Start());
    if r.Success? {
      StartSound(lib.Keys);
      ScanSound(lib.Keys, bools, fields, 0, Start());
      StatementStream(s, r.value, line, lib);
    }
  }

  /** A failing call appends no window (it may have interned literals); a
      successful one only appends. */
  lemma CallStream(s: State, op: string, funcs: seq<Overload>, assgns: seq<string>, args: seq<string>)
    requires forall k :: 0 <= k < |args| ==> IsArg(args[k])
    ensures var (s', e) := CallEffect(s, op, funcs, assgns, args);
      && (e.Some? ==> s'.bc.opAddrs == s.bc.opAddrs)
      && s.bc.opAddrs <= s'.bc.opAddrs
  {
    var r := InternArgs(s, args);
    InternArgsKeeps(s, args);
    if r.err.None? {
      var k := FirstMatch(funcs, r.types, TypesOf(r.s, assgns));
      if k < |funcs| {
        var f := funcs[k];
        BindTargetsStream(r.s, f.outT, assgns, TypesOf(r.s, assgns), AddrsOf(r.s, assgns), |assgns|);
        EmitUnfolds(r.s, f, r.addrs, assgns);
      }
    }
  }

  // ---------------------------------------------------------------------------
  // The bytecode only grows at the end

  /** An assignment appends: no window and no slot it finds is rewritten. */
  lemma AssignmentAppends(s: State, target: string, arg: string)
    requires IsArg(arg)
    ensures Assignment(s, target, arg).Success? ==> Appended(s.bc, Assignment(s, target, arg).value.bc)
  {
    var dst, src := TypeAndAddrOfID(s, target), TypeAndAddrOfID(s, arg);
    if IsIdentifier(arg) {
      if src.found && !dst.found {
        AllocatedAppends(s, target, Zero(src.t));
        var s1 := Allocated(s, target, Zero(src.t));
        EmittedAppends(s1, [CopyFuncInstructionForType(src.t), src.addr, ArrLen(s.bc, src.t)]);
        AppendedTrans(s.bc, s1.bc, IdentifierAssignment(s, target, arg).value.bc);
      }
    } else if !dst.found {
      AllocatedAppends(s, target, LiteralValue(arg));
    } else if dst.t == RawToType(arg) && !TypeAndAddrOfID(s, arg).found {
      AllocatedAppends(s, arg, LiteralValue(arg));
      var s1 := Allocated(s, arg, LiteralValue(arg));
      EmittedAppends(s1, [CopyFuncInstructionForType(dst.t), ArrLen(s.bc, dst.t), dst.addr]);
      AppendedTrans(s.bc, s1.bc, LiteralAssignment(s, target, arg).value.bc);
    }
  }

  /** Interning the arguments appends slots only. */
  lemma {:induction false} InternArgsAppends(s: State, args: seq<string>)
    requires forall k :: 0 <= k < |args| ==> IsArg(args[k])
    ensures Appended(s.bc, InternArgs(s, args).s.bc)
  {
    if args != [] {
      var r := InternArgs(s, args[..|args| - 1]);
      InternArgsAppends(s, args[..|args| - 1]);
      var a := args[|args| - 1];
      if r.err.None? && !TypeAndAddrOfID(r.s, a).found && !IsIdentifier(a) {
        AllocatedAppends(r.s, a, LiteralValue(a));
        AppendedTrans(s.bc, r.s.bc, InternArg(r, a).s.bc);
      }
    }
  }

  /** Binding the targets appends slots only. */
  lemma {:induction false} BindTargetsAppends(s: State, outT: seq<BaseType>, assgns: seq<string>, types: seq<BaseType>,
                                              addrs: seq<int>, n: nat)
    requires n <= |outT| && |assgns| == |outT| && |types| == |outT| && |addrs| == |outT|
    ensures Appended(s.bc, BindTargets(s, outT, assgns, types, addrs, n).0.bc)
  {
    if n > 0 {
      BindTargetsAppends(s, outT, assgns, types, addrs, n - 1);
      var s1 := BindTargets(s, outT, assgns, types, addrs, n - 1).0;
      if types[n - 1] == Any && outT[n - 1] != Any {
        AllocatedAppends(s1, assgns[n - 1], Zero(outT[n - 1]));
        AppendedTrans(s.bc, s1.bc, BindTargets(s, outT, assgns, types, addrs, n).0.bc);
      }
    }
  }

  /** A call appends, whether it compiles or not. */
  lemma CallAppends(s: State, op: string, funcs: seq<Overload>, assgns: seq<string>, args: seq<string>)
    requires forall k :: 0 <= k < |args| ==> IsArg(args[k])
    ensures Appended(s.bc, CallEffect(s, op, funcs, assgns, args).0.bc)
  {
    var r := InternArgs(s, args);
    InternArgsAppends(s, args);
    if r.err.None? {
      var k := FirstMatch(funcs, r.types, TypesOf(r.s, assgns));
      if k < |funcs| {
        var f := funcs[k];
        var b := BindTargets(r.s, f.outT, assgns, TypesOf(r.s, assgns), AddrsOf(r.s, assgns), |assgns|);
        BindTargetsAppends(r.s, f.outT, assgns, TypesOf(r.s, assgns), AddrsOf(r.s, assgns), |assgns|);
        EmittedAppends(b.0, [f.addr] + r.addrs + b.1);
        AppendedTrans(s.bc, r.s.bc, b.0.bc);
        AppendedTrans(s.bc, b.0.bc, Emit(r.s, f, r.addrs, assgns).bc);
      }
    }
  }

  /** A statement appends, whether it compiles or not. */
  lemma StatementAppends(s: State, st: ScanState, line: int, lib: map<string, seq<Overload>>)
    requires Sound(lib.Keys, st)
    ensures Appended(s.bc, StatementEffect(s, st, line, lib).0.bc)
  {
    if st.op == "" && |st.args| > 0 && |st.assgns| > 0 {
      if |st.args| == 1 && |st.assgns| == 1 {
        AssignmentAppends(s, st.assgns[0], st.args[0]);
      }
    } else if st.op != "" {
      CallAppends(s, st.op, lib[st.op], st.assgns, st.args);
    }
  }

  /** A line appends, whether it compiles or not. */
  lemma LineAppends(s: State, text: string, line: int, lib: map<string, seq<Overload>>, bools: bool)
    ensures Appended(s.bc, LineEffect(s, text, line, lib, bools).0.bc)
  {
    var fields := Fields(text);
    var r := Scan(lib.Keys, bools, fields, 0, Start());
    if r.Success? {
      StartSound(lib.Keys);
      ScanSound(lib.Keys, bools, fields, 0, Start());
      StatementAppends(s, r.value, line, lib);
    }
  }

  /** Compilation only appends: every window emitted and every slot filled
      before line `i + 1` keeps its value in the bytecode the compiler
      leaves, whether it finishes or stops at an error. */
  lemma {:induction false} CompileAppends(s: State, lines: seq<string>, i: nat, lib: map<string, seq<Overload>>, bools: bool)
    requires i <= |lines|
    ensures Appended(s.bc, CompileFrom(s, lines, i, lib, bools).0.bc)
    decreases |lines| - i
  {
    if i < |lines| {
      var r := LineEffect(s, lines[i], i + 1, lib, bools);
      LineAppends(s, lines[i], i + 1, lib, bools);
      if r.1.None? {
        CompileAppends(r.0, lines, i + 1, lib, bools);
        AppendedTrans(s.bc, r.0.bc, CompileFrom(s, lines, i, lib, bools).0.bc);
      }
    }
  }

  /** Compilation keeps the invariant, so the bytecode it returns, on
      success or at the failing line, is a sequence of well-formed windows. */
  lemma {:induction false} CompileOk(table: seq<Handler>, s: State, lines: seq<string>, i: nat,
                                     lib: map<string, seq<Overload>>, bools: bool)
    requires i <= |lines|
    requires Ok(table, s) && CopiesAt(table) && LibOk(lib) && Consistent(lib, table)
    ensures Ok(table, CompileFrom(s, lines, i, lib, bools).0)
    decreases |lines| - i
  {
    if i < |lines| {
      var r := LineEffect(s, lines[i], i + 1, lib, bools);
      LineOk(table, s, lines[i], i + 1, lib, bools);
      if r.1.None? {
        CompileOk(table, r.0, lines, i + 1, lib, bools);
        assert CompileFrom(s, lines, i, lib, bools) == CompileFrom(r.0, lines, i + 1, lib, bools);
      }
    }
  }

  /** An error names a line of the program: the text is `ParsingErr` of a
      line number between `i + 1` and the number of lines. */
  lemma {:induction false} CompileErrors(s: State, lines: seq<string>, i: nat, lib: map<string, seq<Overload>>, bools: bool)
    requires i <= |lines|
    ensures var e := CompileFrom(s, lines, i, lib, bools).1;
      e.Some? ==> exists l: int, msg: string :: i < l <= |lines| && e == Some(ParsingErr(l, msg))
    decreases |lines| - i
  {
    if i < |lines| {
      var (s', e) := LineEffect(s, lines[i], i + 1, lib, bools);
      if e.None? {
        CompileErrors(s', lines, i + 1, lib, bools);
      } else {
        LineErrors(s, lines[i], i + 1, lib, bools);
      }
    }
  }

  /** Every error of a statement is `ParsingErr` of its line. */
  lemma StatementErrors(s: State, st: ScanState, line: int, lib: map<string, seq<Overload>>)
    requires Sound(lib.Keys, st)
    ensures var e := StatementEffect(s, st, line, lib).1;
      e.Some? ==> exists msg: string :: e == Some(ParsingErr(line, msg))
  {
    var e := StatementEffect(s, st, line, lib).1;
    if st.op == "" && |st.args| > 0 && |st.assgns| > 0 {
      if |st.args| > 1 || |st.assgns| > 1 {
        assert e == Some(ParsingErr(line, MultiAssignMsg));
      } else {
        var a := Assignment(s, st.assgns[0], st.args[0]);
        if a.Failure? {
          assert e == Some(ParsingErr(line, a.error));
        }
      }
    } else if st.op != "" {
      var c := CallEffect(s, st.op, lib[st.op], st.assgns, st.args).1;
      if c.Some? {
        assert e == Some(ParsingErr(line, c.value));
      }
    }
  }

  /** Every error of a line is `ParsingErr` of that line. */
  lemma LineErrors(s: State, text: string, line: int, lib: map<string, seq<Overload>>, bools: bool)
    ensures var e := LineEffect(s, text, line, lib, bools).1;
      e.Some? ==> exists msg: string :: e == Some(ParsingErr(line, msg))
  {
    var fields := Fields(text);
    var r := Scan(lib.Keys, bools, fields, 0, Start());
    if r.Failure? {
      assert LineEffect(s, text, line, lib, bools).1 == Some(ParsingErr(line, r.error));
    } else {
      StartSound(lib.Keys);
      ScanSound(lib.Keys, bools, fields, 0, Start());
      StatementErrors(s, r.value, line, lib);
    }
  }

  /** The registry after `init` is what the compiler needs: every overload
      typed, every opcode naming its overload's handler, and the copy
      handlers at opcodes 0, 1 and 2. */
  lemma RegistryReady(lib: map<string, seq<Overload>>)
    requires Initialized(lib)
    ensures LibOk(lib) && Consistent(lib, RegistryTable()) && CopiesAt(RegistryTable())
  {
    InitializedWellFormed(lib);
    CopyOpcodes();
  }

  /** The headline property of the compiler: whatever the program, and
      whether it compiles or stops at an error, the bytecode it leaves splits
      into windows of the width their handler advances by, with every
      address in range; an error names a line of the program. */
  lemma CompileWellFormed(lines: seq<string>, lib: map<string, seq<Overload>>)
    requires Initialized(lib)
    ensures var (s, e) := CompileFrom(Empty(), lines, 0, lib, true);
      && WellFormed(RegistryTable(), s.bc)
      && (e.Some? ==> exists l: int, msg: string :: 0 < l <= |lines| && e == Some(ParsingErr(l, msg)))
  {
    RegistryReady(lib);
    StartOk(RegistryTable());
    assert Empty() == State(Program([], [], [], []), map[], map[], map[]);
    CompileOk(RegistryTable(), Empty(), lines, 0, lib, true);
    CompileErrors(Empty(), lines, 0, lib, true);
  }
}
