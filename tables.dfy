/** The compiler state of the current revision as a value: the bytecode being
    built and the three name-to-slot maps (`IntIDAddr`, `StrIDAddr`,
    `BoolIDAddr`), with the lookup, slot allocation and window emission the
    compiler performs, and the invariant they keep. */
module Tables {
  import opened Text
  import opened Isa
  import opened Registry
  import opened Windows

  /** The answer of `typeAndAddrOfID`. */
  datatype Binding = Binding(t: BaseType, addr: int, found: bool)

  datatype State = State(bc: Program, intIDs: map<string, int>, strIDs: map<string, int>, boolIDs: map<string, int>)

  /** The length of the array of type `t` (none for the wildcard). */
  function ArrLen(p: Program, t: BaseType): nat {
    match t
    case Int => |p.ints|
    case Str => |p.strs|
    case Bool => |p.bools|
    case Any => 0
  }

  /** The name map of type `t`. */
  function IDs(s: State, t: BaseType): map<string, int> {
    match t
    case Int => s.intIDs
    case Str => s.strIDs
    case Bool => s.boolIDs
    case Any => map[]
  }

  predicate Bound(s: State, id: string) {
    id in s.intIDs || id in s.strIDs || id in s.boolIDs
  }

  /** `typeAndAddrOfID`: the type and slot of a bound name, or the wildcard
      and -1.  The source walks a Go map of the three maps, in an order the
      language leaves open; this looks in the order the source lists them,
      and `LookupOrderFree` shows the order does not matter while the maps
      are disjoint. */
  function TypeAndAddrOfID(s: State, id: string): (r: Binding)
    ensures r.found <==> Bound(s, id)
    ensures !r.found ==> r == Binding(Any, -1, false)
    ensures r.found ==> r.t != Any && id in IDs(s, r.t) && IDs(s, r.t)[id] == r.addr
  {
    if id in s.strIDs then Binding(Str, s.strIDs[id], true)
    else if id in s.intIDs then Binding(Int, s.intIDs[id], true)
    else if id in s.boolIDs then Binding(Bool, s.boolIDs[id], true)
    else Binding(Any, -1, false)
  }

  /** No name is bound in two maps. */
  predicate Disjoint(s: State) {
    && (forall id :: id in s.intIDs ==> id !in s.strIDs && id !in s.boolIDs)
    && (forall id :: id in s.strIDs ==> id !in s.boolIDs)
  }

  /** With disjoint maps the answer is the one map holding the name,
      whichever order the maps are searched in. */
  lemma LookupOrderFree(s: State, id: string, t: BaseType)
    requires Disjoint(s) && id in IDs(s, t)
    ensures TypeAndAddrOfID(s, id) == Binding(t, IDs(s, t)[id], true)
  {
  }

  // ---------------------------------------------------------------------------
  // Literals

  /** `rawToType`: the type a literal's text denotes (a panic on anything
      else, so only literals are accepted). */
  function RawToType(raw: string): (t: BaseType)
    requires IsLiteral(raw)
    ensures (t == Str <==> IsString(raw)) && (t == Int <==> IsInt(raw)) && (t == Bool <==> IsBool(raw))
  {
    LiteralKinds(raw);
    if IsString(raw) then Str else if IsInt(raw) then Int else Bool
  }

  /** The three literal kinds never overlap. */
  lemma LiteralKinds(raw: string)
    ensures IsString(raw) ==> !IsInt(raw) && !IsBool(raw)
    ensures IsBool(raw) ==> !IsInt(raw)
  {
    if IsString(raw) {
      StringIsNotNumberOrBool(raw);
    }
    if IsBool(raw) {
      assert Unsigned(raw) == raw && !IsDigit(raw[0]);
    }
  }

  /** What `newAllocInitialize` stores for a literal: a string without its
      two quotes and with no escape processing, an integer as `strconv.Atoi`
      reads it, `True` as true and `False` as false. */
  function LiteralValue(raw: string): (v: Value)
    requires IsLiteral(raw)
    ensures HasType(v, RawToType(raw))
  {
    match RawToType(raw)
    case Str => StrV(raw[1..|raw| - 1])
    case Int => IntV(Atoi(raw))
    case Bool => BoolV(raw == "True")
  }

  /** The integer slots: every bound slot lies inside the array, and an
      interned literal text is an integer literal whose slot holds its value. */
  predicate IntsOk(ints: seq<int>, ids: map<string, int>) {
    forall id :: id in ids ==>
      0 <= ids[id] < |ints| && (IsLiteral(id) ==> IsInt(id) && ints[ids[id]] == Atoi(id))
  }

  /** The same for strings: a literal's slot holds its text without the quotes. */
  predicate StrsOk(strs: seq<string>, ids: map<string, int>) {
    forall id :: id in ids ==>
      0 <= ids[id] < |strs| && (IsLiteral(id) ==> IsString(id) && strs[ids[id]] == id[1..|id| - 1])
  }

  /** The same for booleans: `True` holds true and `False` false. */
  predicate BoolsOk(bools: seq<bool>, ids: map<string, int>) {
    forall id :: id in ids ==>
      0 <= ids[id] < |bools| && (IsLiteral(id) ==> IsBool(id) && bools[ids[id]] == (id == "True"))
  }

  /** The invariant the compiler keeps from line to line, for the dispatch
      table `table` its windows are meant for. */
  ghost predicate Ok(table: seq<Handler>, s: State) {
    && Disjoint(s)
    && IntsOk(s.bc.ints, s.intIDs)
    && StrsOk(s.bc.strs, s.strIDs)
    && BoolsOk(s.bc.bools, s.boolIDs)
    && WellFormed(table, s.bc)
  }

  lemma StartOk(table: seq<Handler>)
    ensures Ok(table, State(Program([], [], [], []), map[], map[], map[]))
  {
  }

  /** A found name's slot is in range. */
  lemma BoundInRange(table: seq<Handler>, s: State, id: string)
    requires Ok(table, s) && Bound(s, id)
    ensures var b := TypeAndAddrOfID(s, id); InBounds(s.bc, b.t, b.addr) && b.addr < ArrLen(s.bc, b.t)
  {
  }

  /** A bound literal has the type of its text and holds its value. */
  lemma LiteralBinding(table: seq<Handler>, s: State, raw: string)
    requires Ok(table, s) && IsLiteral(raw) && Bound(s, raw)
    ensures var b := TypeAndAddrOfID(s, raw);
      b.t == RawToType(raw) && InBounds(s.bc, b.t, b.addr) && Read(s.bc, b.t, b.addr) == LiteralValue(raw)
  {
    LiteralKinds(raw);
  }

  // ---------------------------------------------------------------------------
  // Allocation

  function TypeOf(v: Value): BaseType {
    match v
    case IntV(_) => Int
    case StrV(_) => Str
    case BoolV(_) => Bool
  }

  /** The value `newAlloc` gives a fresh slot. */
  function Zero(t: BaseType): (v: Value)
    requires t != Any
    ensures TypeOf(v) == t
  {
    match t
    case Int => IntV(0)
    case Str => StrV("")
    case Bool => BoolV(false)
  }

  /** `bc` with `v` appended to the array of its type. */
  function Push(p: Program, v: Value): (q: Program)
    ensures q.opAddrs == p.opAddrs
    ensures ArrLen(q, TypeOf(v)) == ArrLen(p, TypeOf(v)) + 1
  {
    match v
    case IntV(i) => p.(ints := p.ints + [i])
    case StrV(x) => p.(strs := p.strs + [x])
    case BoolV(b) => p.(bools := p.bools + [b])
  }

  /** A fresh slot holding `v`, appended to the array of its type, with `id`
      bound to it. */
  function Allocated(s: State, id: string, v: Value): State {
    var a := ArrLen(s.bc, TypeOf(v));
    match v
    case IntV(_) => s.(bc := Push(s.bc, v), intIDs := s.intIDs[id := a])
    case StrV(_) => s.(bc := Push(s.bc, v), strIDs := s.strIDs[id := a])
    case BoolV(_) => s.(bc := Push(s.bc, v), boolIDs := s.boolIDs[id := a])
  }

  /** Allocation appends one slot, holding `v`, and binds `id` to it; every
      other slot and binding stays. */
  lemma AllocatedSlot(s: State, id: string, v: Value)
    requires Disjoint(s) && !Bound(s, id)
    ensures var s' := Allocated(s, id, v); var a := ArrLen(s.bc, TypeOf(v));
      && s'.bc.opAddrs == s.bc.opAddrs
      && Grown(s.bc, s'.bc)
      && TypeAndAddrOfID(s', id) == Binding(TypeOf(v), a, true)
      && InBounds(s'.bc, TypeOf(v), a) && Read(s'.bc, TypeOf(v), a) == v
      && Disjoint(s')
  {
  }

  lemma AllocatedKeeps(s: State, id: string, v: Value, other: string)
    requires other != id
    ensures TypeAndAddrOfID(Allocated(s, id, v), other) == TypeAndAddrOfID(s, other)
  {
  }

  lemma AllocatedKeepsSlot(s: State, id: string, v: Value, t: BaseType, a: int)
    requires InBounds(s.bc, t, a)
    ensures InBounds(Allocated(s, id, v).bc, t, a) && Read(Allocated(s, id, v).bc, t, a) == Read(s.bc, t, a)
  {
  }

  /** `q` extends `p` at the end only: the compiler appends windows and
      slots, so every window it has emitted and every slot it has filled
      keeps its value. */
  predicate Appended(p: Program, q: Program) {
    && p.opAddrs <= q.opAddrs
    && |p.ints| <= |q.ints| && q.ints[..|p.ints|] == p.ints
    && |p.strs| <= |q.strs| && q.strs[..|p.strs|] == p.strs
    && |p.bools| <= |q.bools| && q.bools[..|p.bools|] == p.bools
  }

  lemma AppendedTrans(p: Program, q: Program, r: Program)
    requires Appended(p, q) && Appended(q, r)
    ensures Appended(p, r)
  {
    assert r.ints[..|p.ints|] == r.ints[..|q.ints|][..|p.ints|];
    assert r.strs[..|p.strs|] == r.strs[..|q.strs|][..|p.strs|];
    assert r.bools[..|p.bools|] == r.bools[..|q.bools|][..|p.bools|];
  }

  /** Allocation appends one slot and emits nothing. */
  lemma AllocatedAppends(s: State, id: string, v: Value)
    ensures Appended(s.bc, Allocated(s, id, v).bc)
    ensures Allocated(s, id, v).bc.opAddrs == s.bc.opAddrs
  {
    var q := Allocated(s, id, v).bc;
    match v
    case IntV(i) => assert q.ints == s.bc.ints + [i];
    case StrV(x) => assert q.strs == s.bc.strs + [x];
    case BoolV(b) => assert q.bools == s.bc.bools + [b];
  }

  /** Emitting a window appends it to the stream and nothing else. */
  lemma EmittedAppends(s: State, w: seq<int>)
    ensures Appended(s.bc, Emitted(s, w).bc)
    ensures Emitted(s, w).bc.opAddrs[|s.bc.opAddrs|..] == w
  {
  }

  lemma IntsAllocated(ints: seq<int>, ids: map<string, int>, id: string, i: int)
    requires IntsOk(ints, ids) && id !in ids
    requires IsLiteral(id) ==> IsInt(id) && i == Atoi(id)
    ensures IntsOk(ints + [i], ids[id := |ints|])
  {
    var ints', ids' := ints + [i], ids[id := |ints|];
    forall k | k in ids'
      ensures 0 <= ids'[k] < |ints'| && (IsLiteral(k) ==> IsInt(k) && ints'[ids'[k]] == Atoi(k))
    {
      if k != id {
        assert ints'[ids[k]] == ints[ids[k]];
      }
    }
  }

  lemma StrsAllocated(strs: seq<string>, ids: map<string, int>, id: string, x: string)
    requires StrsOk(strs, ids) && id !in ids
    requires IsLiteral(id) ==> IsString(id) && x == id[1..|id| - 1]
    ensures StrsOk(strs + [x], ids[id := |strs|])
  {
    var strs', ids' := strs + [x], ids[id := |strs|];
    forall k | k in ids'
      ensures 0 <= ids'[k] < |strs'| && (IsLiteral(k) ==> IsString(k) && strs'[ids'[k]] == k[1..|k| - 1])
    {
      if k != id {
        assert strs'[ids[k]] == strs[ids[k]];
      }
    }
  }

  lemma BoolsAllocated(bools: seq<bool>, ids: map<string, int>, id: string, b: bool)
    requires BoolsOk(bools, ids) && id !in ids
    requires IsLiteral(id) ==> IsBool(id) && b == (id == "True")
    ensures BoolsOk(bools + [b], ids[id := |bools|])
  {
    var bools', ids' := bools + [b], ids[id := |bools|];
    forall k | k in ids'
      ensures 0 <= ids'[k] < |bools'| && (IsLiteral(k) ==> IsBool(k) && bools'[ids'[k]] == (k == "True"))
    {
      if k != id {
        assert bools'[ids[k]] == bools[ids[k]];
      }
    }
  }

  /** Allocating an unbound name keeps the invariant, provided a literal text
      is only ever bound to its own value. */
  lemma AllocatedOk(table: seq<Handler>, s: State, id: string, v: Value)
    requires Ok(table, s) && !Bound(s, id)
    requires IsLiteral(id) ==> v == LiteralValue(id)
    ensures Ok(table, Allocated(s, id, v))
  {
    var s' := Allocated(s, id, v);
    AllocatedSlot(s, id, v);
    WellFormedGrown(table, s.bc, s'.bc, 0);
    LiteralKinds(id);
    match v
    case IntV(i) => IntsAllocated(s.bc.ints, s.intIDs, id, i);
    case StrV(x) => StrsAllocated(s.bc.strs, s.strIDs, id, x);
    case BoolV(b) => BoolsAllocated(s.bc.bools, s.boolIDs, id, b);
  }

  // ---------------------------------------------------------------------------
  // Emission

  /** `copyFuncInstructionForType`: the opcode of the copy for a type (a
      panic for the wildcard). */
  function CopyFuncInstructionForType(t: BaseType): (op: int)
    requires t != Any
    ensures 0 <= op < |CopyHandlers| && CopyHandlers[op] == Copy(t)
  {
    match t
    case Int => IopIntCopy
    case Str => IopStrCopy
    case Bool => IopBoolCopy
  }

  /** `OpAddrs` with the window `w` appended. */
  function Emitted(s: State, w: seq<int>): State {
    s.(bc := s.bc.(opAddrs := s.bc.opAddrs + w))
  }

  /** Appending a window that fits the dispatch table keeps the invariant. */
  lemma EmittedOk(table: seq<Handler>, s: State, op: int, addrs: seq<int>)
    requires Ok(table, s) && FitsWindow(table, s.bc, op, addrs)
    ensures Ok(table, Emitted(s, [op] + addrs))
  {
    var s' := Emitted(s, [op] + addrs);
    WellFormedAppend(table, s.bc, op, addrs);
    assert s.bc.opAddrs + [op] + addrs == s'.bc.opAddrs;
    assert s'.bc.ints == s.bc.ints && s'.bc.strs == s.bc.strs && s'.bc.bools == s.bc.bools;
  }

  /** The table starts with the three copies, in the opcodes
      `copyFuncInstructionForType` hands out. */
  predicate CopiesAt(table: seq<Handler>) {
    && |table| > IopBoolCopy
    && table[IopIntCopy] == Copy(Int) && table[IopStrCopy] == Copy(Str) && table[IopBoolCopy] == Copy(Bool)
  }

  /** A copy from one slot to another of the same type fits the window of
      the copy opcode of that type. */
  lemma CopyFits(table: seq<Handler>, s: State, t: BaseType, src: int, dst: int)
    requires CopiesAt(table)
    requires t != Any && InBounds(s.bc, t, src) && InBounds(s.bc, t, dst)
    ensures FitsWindow(table, s.bc, CopyFuncInstructionForType(t), [src, dst])
  {
  }
}
