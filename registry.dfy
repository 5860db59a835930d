/** The operation registry of the current revision (baselib.go): the overload
    table `baselib`, the three internal copy operations at opcodes 0, 1 and 2,
    and `init`, which numbers every overload in byte-sorted name order and
    appends its handler to the dispatch table `funcAddrs`. */
module Registry {
  import opened Isa

  /** One overload of an operation (baselib.go's `Func`): input and output
      types, its handler, and the opcode `init` gives it (0 until then). */
  datatype Overload = Overload(inT: seq<BaseType>, outT: seq<BaseType>, f: Handler, addr: int)

  const IopIntCopy := 0
  const IopStrCopy := 1
  const IopBoolCopy := 2

  /** The initial contents of `funcAddrs`: the three copy handlers. */
  const CopyHandlers: seq<Handler> := [Copy(Int), Copy(Str), Copy(Bool)]

  /** The names of the overload table in Go's byte-wise string order. */
  const SortedNames: seq<string> :=
    ["!=", "%", "&&", "*", "+", "-", "/", "<", "<=", "==", ">", ">=", "Print", "||"]

  /** The overloads of `SortedNames[p]`, in the order the source lists them,
      before `init` numbers them. */
  const Overloads: seq<seq<Overload>> := [
    [Overload([Int, Int], [Bool], IntCmp(Ne), 0), Overload([Str, Str], [Bool], StrNe, 0)],
    [Overload([Int, Int], [Int], Arith(Rem), 0)],
    [Overload([Bool, Bool], [Bool], And, 0)],
    [Overload([Int, Int], [Int], Arith(Mul), 0)],
    [Overload([Int, Int], [Int], Arith(Add), 0), Overload([Str, Str], [Str], Concat, 0)],
    [Overload([Int, Int], [Int], Arith(Sub), 0)],
    [Overload([Int, Int], [Int], Arith(Quo), 0)],
    [Overload([Int, Int], [Bool], IntCmp(Lt), 0)],
    [Overload([Int, Int], [Bool], IntCmp(Le), 0)],
    [Overload([Int, Int], [Bool], IntCmp(Eq), 0), Overload([Str, Str], [Bool], StrEq, 0)],
    [Overload([Int, Int], [Bool], IntCmp(Gt), 0)],
    [Overload([Int, Int], [Bool], IntCmp(Ge), 0)],
    [Overload([Str], [], Print(Str), 0), Overload([Int], [], Print(Int), 0), Overload([Bool], [], Print(Bool), 0)],
    [Overload([Bool, Bool], [Bool], Or, 0)]
  ]

  // ---------------------------------------------------------------------------
  // Go's string order and sort.Strings

  /** `a <= b` for Go strings: byte-wise lexicographic order (for the ASCII
      names of the table, the order of the characters). */
  predicate StrLe(a: string, b: string) {
    if a == [] then true
    else if b == [] then false
    else if a[0] != b[0] then a[0] < b[0]
    else StrLe(a[1..], b[1..])
  }

  lemma LeReflexive(a: string)
    ensures StrLe(a, a)
  {
  }

  lemma LeTotal(a: string, b: string)
    ensures StrLe(a, b) || StrLe(b, a)
  {
  }

  lemma LeAntisymmetric(a: string, b: string)
    requires StrLe(a, b) && StrLe(b, a)
    ensures a == b
  {
    if a != [] && b != [] {
      LeAntisymmetric(a[1..], b[1..]);
      assert a == [a[0]] + a[1..] && b == [b[0]] + b[1..];
    }
  }

  lemma LeTransitive(a: string, b: string, c: string)
    requires StrLe(a, b) && StrLe(b, c)
    ensures StrLe(a, c)
  {
    if a != [] && b != [] && c != [] && a[0] == b[0] == c[0] {
      LeTransitive(a[1..], b[1..], c[1..]);
    }
  }

  predicate Sorted(s: seq<string>) {
    forall i :: 0 < i < |s| ==> StrLe(s[i - 1], s[i])
  }

  lemma {:induction false} SortedPairwise(s: seq<string>, i: int, j: int)
    requires Sorted(s) && 0 <= i <= j < |s|
    ensures StrLe(s[i], s[j])
  {
    if i == j {
      LeReflexive(s[i]);
    } else {
      SortedPairwise(s, i, j - 1);
      LeTransitive(s[i], s[j - 1], s[j]);
    }
  }

  /** Insert `x` into a sorted sequence before the first element it precedes. */
  function Insert(x: string, s: seq<string>): (r: seq<string>)
    requires Sorted(s)
    ensures Sorted(r) && multiset(r) == multiset(s) + multiset{x}
    ensures |r| > 0 && (r[0] == x || (s != [] && r[0] == s[0]))
  {
    if s == [] then [x]
    else if StrLe(x, s[0]) then [x] + s
    else
      var t := Insert(x, s[1..]);
      LeTotal(x, s[0]);
      assert s == [s[0]] + s[1..];
      [s[0]] + t
  }

  /** A model of `sort.Strings`: the ascending rearrangement of `s`. */
  function SortStrings(s: seq<string>): (r: seq<string>)
    ensures Sorted(r) && multiset(r) == multiset(s)
  {
    if s == [] then []
    else
      assert s == [s[0]] + s[1..];
      Insert(s[0], SortStrings(s[1..]))
  }

  lemma SortedSameHead(a: seq<string>, b: seq<string>)
    requires Sorted(a) && Sorted(b) && multiset(a) == multiset(b) && a != []
    ensures b != [] && a[0] == b[0]
  {
    assert a[0] in multiset(a);
    var j :| 0 <= j < |b| && b[j] == a[0];
    assert b[0] in multiset(b);
    var i :| 0 <= i < |a| && a[i] == b[0];
    SortedPairwise(a, 0, i);
    SortedPairwise(b, 0, j);
    LeAntisymmetric(a[0], b[0]);
  }

  lemma MultisetTail(a: seq<string>)
    requires a != []
    ensures multiset(a[1..]) == multiset(a) - multiset{a[0]}
  {
    assert a == [a[0]] + a[1..];
  }

  /** There is one ascending rearrangement of a multiset of strings, so the
      opcode numbering cannot depend on the order a map is iterated in. */
  lemma {:induction false} SortedIsUnique(a: seq<string>, b: seq<string>)
    requires Sorted(a) && Sorted(b) && multiset(a) == multiset(b)
    ensures a == b
  {
    if a == [] {
      assert |b| == |multiset(b)| == 0;
    } else {
      SortedSameHead(a, b);
      MultisetTail(a);
      MultisetTail(b);
      SortedIsUnique(a[1..], b[1..]);
      assert a == [a[0]] + a[1..] && b == [b[0]] + b[1..];
    }
  }

  predicate NoDup(s: seq<string>) {
    forall i, j :: 0 <= i < j < |s| ==> s[i] != s[j]
  }

  lemma {:induction false} NoDupCounts(s: seq<string>, x: string)
    requires NoDup(s)
    ensures multiset(s)[x] == if x in s then 1 else 0
  {
    if s != [] {
      assert s == [s[0]] + s[1..];
      NoDupCounts(s[1..], x);
    }
  }

  lemma {:induction false} NoDupCardinality(s: seq<string>)
    requires NoDup(s)
    ensures |set x | x in s| == |s|
  {
    if s != [] {
      NoDupCardinality(s[1..]);
      assert (set x | x in s) == {s[0]} + (set x | x in s[1..]);
    }
  }

  /** Two listings without repetition of the same names hold the same multiset. */
  lemma SameListing(a: seq<string>, b: seq<string>)
    requires NoDup(a) && NoDup(b) && forall x :: x in a <==> x in b
    ensures multiset(a) == multiset(b)
  {
    forall x ensures multiset(a)[x] == multiset(b)[x] {
      NoDupCounts(a, x);
      NoDupCounts(b, x);
    }
  }

  function Empties(n: nat): (r: seq<string>)
    ensures |r| == n && forall i :: 0 <= i < n ==> r[i] == ""
  {
    if n == 0 then [] else Empties(n - 1) + [""]
  }


  // ---------------------------------------------------------------------------
  // The table as a map

  /** The first position of `n` in `s`. */
  function IndexIn(s: seq<string>, n: string): (p: nat)
    requires n in s
    ensures p < |s| && s[p] == n
  {
    if s[0] == n then 0 else 1 + IndexIn(s[1..], n)
  }

  /** A table given as names and, position by position, their overloads. */
  predicate ValidTable(names: seq<string>, ovs: seq<seq<Overload>>) {
    |names| == |ovs| && NoDup(names) && "" !in names
  }

  /** The map binding every name to its overloads. */
  function LibOf(names: seq<string>, ovs: seq<seq<Overload>>): map<string, seq<Overload>>
    requires |names| == |ovs|
  {
    map n | n in names :: ovs[IndexIn(names, n)]
  }

  lemma LibOfAt(names: seq<string>, ovs: seq<seq<Overload>>)
    requires ValidTable(names, ovs)
    ensures forall x :: x in LibOf(names, ovs) <==> x in names
    ensures forall p :: 0 <= p < |names| ==> LibOf(names, ovs)[names[p]] == ovs[p]
    ensures |LibOf(names, ovs)| == |names|
  {
    forall p | 0 <= p < |names| ensures LibOf(names, ovs)[names[p]] == ovs[p] {
      assert IndexIn(names, names[p]) == p;
    }
    assert LibOf(names, ovs).Keys == set x | x in names;
    NoDupCardinality(names);
  }

  /** The overload table as written (`baselib`), before `init` numbers it. */
  function Baselib(): map<string, seq<Overload>> {
    LibOf(SortedNames, Overloads)
  }

  /** The names are listed strictly ascending, none of them empty. */
  lemma NamesSorted()
    ensures Sorted(SortedNames)
  {
  }

  lemma NamesDistinct()
    ensures ValidTable(SortedNames, Overloads)
  {
    NamesSorted();
    forall i, j | 0 <= i < j < |SortedNames| ensures SortedNames[i] != SortedNames[j] {
      SortedPairwise(SortedNames, i, j - 1);
      if SortedNames[i] == SortedNames[j] {
        assert SortedNames[j - 1] != SortedNames[j];
        LeAntisymmetric(SortedNames[j - 1], SortedNames[j]);
      }
    }
  }

  /** `baselib` holds exactly the listed names, each bound to its overloads. */
  lemma BaselibAt()
    ensures forall x :: x in Baselib() <==> x in SortedNames
    ensures forall p :: 0 <= p < |SortedNames| ==> Baselib()[SortedNames[p]] == Overloads[p]
    ensures |Baselib()| == |SortedNames| == 14
  {
    NamesDistinct();
    LibOfAt(SortedNames, Overloads);
  }

  lemma {:induction false} SortedAfterEmpties(k: nat, s: seq<string>)
    requires Sorted(s)
    ensures Sorted(Empties(k) + s)
  {
    forall i | 0 < i < k + |s| ensures StrLe((Empties(k) + s)[i - 1], (Empties(k) + s)[i]) {
      if i > k {
        assert (Empties(k) + s)[i - 1] == s[i - 1 - k] && (Empties(k) + s)[i] == s[i - k];
      }
    }
  }

  /** Sorting the keys of a map, behind `k` empty strings, gives the empty
      strings and then the keys in ascending order. */
  lemma SortedListing(k: nat, order: seq<string>, names: seq<string>)
    requires NoDup(order) && NoDup(names) && Sorted(names)
    requires forall x :: x in order <==> x in names
    ensures SortStrings(Empties(k) + order) == Empties(k) + names
  {
    SameListing(order, names);
    assert multiset(Empties(k) + order) == multiset(Empties(k)) + multiset(order);
    assert multiset(Empties(k) + names) == multiset(Empties(k)) + multiset(names);
    SortedAfterEmpties(k, names);
    SortedIsUnique(SortStrings(Empties(k) + order), Empties(k) + names);
  }

  /** Whatever order the map hands its keys out in, `sort.Strings` puts the
      empty strings `make` created first and then the names in byte order. */
  lemma SortedSymbols(order: seq<string>)
    requires NoDup(order) && forall x :: x in order <==> x in Baselib()
    ensures |Baselib()| == |SortedNames| == |Overloads|
    ensures SortStrings(Empties(|Baselib()|) + order) == Empties(|SortedNames|) + SortedNames
  {
    BaselibAt();
    NamesDistinct();
    NamesSorted();
    SortedListing(14, order, SortedNames);
  }

  // ---------------------------------------------------------------------------
  // Properties of the table

  /** An overload's declared types are its handler's window types and the
      handler is typed (no jump, no wildcard slot): it reads |In| inputs and
      writes |Out| outputs of the declared types and advances `pos` by
      exactly 1 + |In| + |Out|. */
  predicate OverloadOk(o: Overload) {
    o.inT == InTypes(o.f) && o.outT == OutTypes(o.f) && IsTyped(o.f)
  }

  ghost predicate LibOk(lib: map<string, seq<Overload>>) {
    forall n, i :: n in lib && 0 <= i < |lib[n]| ==> OverloadOk(lib[n][i])
  }

  /** All overloads of one name take as many inputs and give as many outputs
      as each other, and no two accept the same input types, so the first
      match in table order is the only match. */
  predicate OverloadsUnambiguous(fs: seq<Overload>) {
    forall i, j :: 0 <= i < |fs| && 0 <= j < |fs| ==>
      && |fs[i].inT| == |fs[j].inT|
      && |fs[i].outT| == |fs[j].outT|
      && (i != j ==> fs[i].inT != fs[j].inT)
  }

  ghost predicate Unambiguous(lib: map<string, seq<Overload>>) {
    forall n :: n in lib ==> OverloadsUnambiguous(lib[n])
  }

  ghost predicate AllOk(ovs: seq<seq<Overload>>) {
    && (forall p, i :: 0 <= p < |ovs| && 0 <= i < |ovs[p]| ==> OverloadOk(ovs[p][i]))
    && (forall p :: 0 <= p < |ovs| ==> OverloadsUnambiguous(ovs[p]))
  }

  lemma OverloadsOk()
    ensures forall p, i :: 0 <= p < |Overloads| && 0 <= i < |Overloads[p]| ==> OverloadOk(Overloads[p][i])
  {
  }

  lemma OverloadsDistinguishable()
    ensures forall p :: 0 <= p < |Overloads| ==> OverloadsUnambiguous(Overloads[p])
  {
  }

  lemma LibOfOk(names: seq<string>, ovs: seq<seq<Overload>>)
    requires ValidTable(names, ovs) && AllOk(ovs)
    ensures LibOk(LibOf(names, ovs)) && Unambiguous(LibOf(names, ovs))
  {
    LibOfAt(names, ovs);
    forall n | n in LibOf(names, ovs)
      ensures OverloadsUnambiguous(LibOf(names, ovs)[n])
      ensures forall i :: 0 <= i < |LibOf(names, ovs)[n]| ==> OverloadOk(LibOf(names, ovs)[n][i])
    {
      var p :| 0 <= p < |names| && names[p] == n;
    }
  }

  /** The table as written declares every overload with its handler's
      signature, and resolves every call to at most one overload. */
  lemma BaselibWellFormed()
    ensures LibOk(Baselib()) && Unambiguous(Baselib())
  {
    NamesDistinct();
    OverloadsOk();
    OverloadsDistinguishable();
    LibOfOk(SortedNames, Overloads);
  }

  // ---------------------------------------------------------------------------
  // init

  function HandlersOf(fs: seq<Overload>): (hs: seq<Handler>)
    ensures |hs| == |fs|
  {
    if fs == [] then [] else [fs[0].f] + HandlersOf(fs[1..])
  }

  lemma {:induction false} HandlersAt(fs: seq<Overload>, i: nat)
    requires i < |fs|
    ensures HandlersOf(fs)[i] == fs[i].f
  {
    if i > 0 {
      HandlersAt(fs[1..], i - 1);
    }
  }

  /** The dispatch table once `init` has handled the first `p` names: the
      copy handlers, then each name's handlers in slice order. */
  function Built(ovs: seq<seq<Overload>>, p: nat): seq<Handler>
    requires p <= |ovs|
  {
    if p == 0 then CopyHandlers else Built(ovs, p - 1) + HandlersOf(ovs[p - 1])
  }

  /** The overloads with their opcodes set to `start`, `start + 1`, ... */
  function Numbered(fs: seq<Overload>, start: int): (r: seq<Overload>)
    ensures |r| == |fs|
  {
    if fs == [] then [] else [fs[0].(addr := start)] + Numbered(fs[1..], start + 1)
  }

  lemma {:induction false} NumberedAt(fs: seq<Overload>, start: int, i: nat)
    requires i < |fs|
    ensures Numbered(fs, start)[i] == fs[i].(addr := start + i)
  {
    if i > 0 {
      NumberedAt(fs[1..], start + 1, i - 1);
    }
  }

  /** The opcode `init` gives the first overload of the `p`-th name. */
  function Base(ovs: seq<seq<Overload>>, p: nat): nat
    requires p <= |ovs|
  {
    |Built(ovs, p)|
  }

  /** The dispatch table `init` builds: the copies, then every name's
      handlers in sorted name order. */
  function RegistryTable(): seq<Handler> {
    Built(Overloads, |Overloads|)
  }

  /** The `k`-th key `init` visits: as many empty strings as there are
      names, then the names. */
  function Visit(names: seq<string>, k: nat): string
    requires k < 2 * |names|
  {
    if k < |names| then "" else names[k - |names|]
  }

  /** The overloads `init` stores under the `k`-th key it visits. */
  function Entry(ovs: seq<seq<Overload>>, k: nat): seq<Overload>
    requires k < 2 * |ovs|
  {
    if k < |ovs| then [] else Numbered(ovs[k - |ovs|], Base(ovs, k - |ovs|))
  }

  /** The table after `init` has visited `k` keys. */
  function Partial(names: seq<string>, ovs: seq<seq<Overload>>, k: nat): map<string, seq<Overload>>
    requires |names| == |ovs| && k <= 2 * |names|
  {
    if k == 0 then LibOf(names, ovs) else Partial(names, ovs, k - 1)[Visit(names, k - 1) := Entry(ovs, k - 1)]
  }

  lemma {:induction false} PartialKeys(names: seq<string>, ovs: seq<seq<Overload>>, k: nat)
    requires ValidTable(names, ovs) && k <= 2 * |names|
    ensures forall n :: n in Partial(names, ovs, k) <==> n in names || (k > 0 && n == "")
  {
    if k == 0 {
      LibOfAt(names, ovs);
    } else {
      PartialKeys(names, ovs, k - 1);
    }
  }

  lemma {:induction false} PartialEmptyName(names: seq<string>, ovs: seq<seq<Overload>>, k: nat)
    requires ValidTable(names, ovs) && 0 < k <= 2 * |names|
    ensures "" in Partial(names, ovs, k) && Partial(names, ovs, k)[""] == []
  {
    if k > 1 {
      PartialEmptyName(names, ovs, k - 1);
    }
  }

  /** Before `init` visits a name it holds the overloads as written; after,
      the overloads numbered from the name's base. */
  lemma {:induction false} PartialAt(names: seq<string>, ovs: seq<seq<Overload>>, k: nat, p: nat)
    requires ValidTable(names, ovs) && k <= 2 * |names| && p < |names|
    ensures names[p] in Partial(names, ovs, k)
    ensures Partial(names, ovs, k)[names[p]] == if p < k - |names| then Numbered(ovs[p], Base(ovs, p)) else ovs[p]
  {
    if k == 0 {
      LibOfAt(names, ovs);
    } else {
      PartialAt(names, ovs, k - 1, p);
      var v, e := Visit(names, k - 1), Entry(ovs, k - 1);
      assert Partial(names, ovs, k) == Partial(names, ovs, k - 1)[v := e];
      if k - 1 >= |names| && p == k - 1 - |names| {
        assert v == names[p] && e == Numbered(ovs[p], Base(ovs, p));
      } else {
        assert v != names[p] by {
          if k - 1 >= |names| {
            assert v == names[k - 1 - |names|];
          } else {
            assert v == "" && names[p] in names;
          }
        }
      }
    }
  }

  /** The table as `init` leaves it: every name numbered from its base, and
      the empty name, bound to no overloads. */
  ghost predicate NumberedTable(names: seq<string>, ovs: seq<seq<Overload>>, lib: map<string, seq<Overload>>)
    requires |names| == |ovs|
  {
    && (forall n :: n in lib <==> n in names || n == "")
    && "" in lib && lib[""] == []
    && forall p :: 0 <= p < |names| ==> names[p] in lib && lib[names[p]] == Numbered(ovs[p], Base(ovs, p))
  }

  lemma PartialNumbered(names: seq<string>, ovs: seq<seq<Overload>>)
    requires ValidTable(names, ovs) && |names| > 0
    ensures NumberedTable(names, ovs, Partial(names, ovs, 2 * |names|))
  {
    PartialKeys(names, ovs, 2 * |names|);
    PartialEmptyName(names, ovs, 2 * |names|);
    forall p | 0 <= p < |names|
      ensures Partial(names, ovs, 2 * |names|)[names[p]] == Numbered(ovs[p], Base(ovs, p))
    {
      PartialAt(names, ovs, 2 * |names|, p);
    }
  }

  /** How many names `init` has numbered after visiting `k` keys, of which
      the first `n` are the empty ones. */
  function Done(n: nat, k: nat): (d: nat)
    ensures k <= 2 * n ==> d <= n
    ensures k == 2 * n ==> d == n
  {
    if k < n then 0 else k - n
  }

  /** The overloads, as written, that `init` finds under its `k`-th key. */
  function Original(ovs: seq<seq<Overload>>, k: nat): seq<Overload>
    requires k < 2 * |ovs|
  {
    if k < |ovs| then [] else ovs[k - |ovs|]
  }

  /** The `k`-th key `init` visits, and what it finds there. */
  lemma VisitLookup(names: seq<string>, ovs: seq<seq<Overload>>, k: nat)
    requires ValidTable(names, ovs) && k < 2 * |names|
    ensures (Empties(|names|) + names)[k] == Visit(names, k)
    ensures var lib := Partial(names, ovs, k);
      (if Visit(names, k) in lib then lib[Visit(names, k)] else []) == Original(ovs, k)
  {
    var lib := Partial(names, ovs, k);
    if k >= |names| {
      var p := k - |names|;
      assert (Empties(|names|) + names)[k] == names[p];
      PartialAt(names, ovs, k, p);
      assert lib[names[p]] == ovs[p];
    } else {
      assert (Empties(|names|) + names)[k] == Empties(|names|)[k] == "";
      if k > 0 {
        PartialEmptyName(names, ovs, k);
      } else {
        LibOfAt(names, ovs);
        assert "" !in lib;
      }
    }
  }

  /** Visiting the `k`-th key appends its handlers to the dispatch table and
      numbers its overloads from where the table ended. */
  lemma VisitAdvance(ovs: seq<seq<Overload>>, k: nat)
    requires k < 2 * |ovs|
    ensures Built(ovs, Done(|ovs|, k)) + HandlersOf(Original(ovs, k)) == Built(ovs, Done(|ovs|, k + 1))
    ensures Numbered(Original(ovs, k), |Built(ovs, Done(|ovs|, k))|) == Entry(ovs, k)
  {
    if k < |ovs| {
      assert HandlersOf([]) == [];
    }
  }

  lemma {:induction false} HandlersOfAppend(a: seq<Overload>, b: seq<Overload>)
    ensures HandlersOf(a + b) == HandlersOf(a) + HandlersOf(b)
  {
    if a != [] {
      assert (a + b)[1..] == a[1..] + b;
      HandlersOfAppend(a[1..], b);
    } else {
      assert a + b == b;
    }
  }

  lemma {:induction false} NumberedAppend(a: seq<Overload>, b: seq<Overload>, start: int)
    ensures Numbered(a + b, start) == Numbered(a, start) + Numbered(b, start + |a|)
  {
    if a != [] {
      assert (a + b)[1..] == a[1..] + b;
      NumberedAppend(a[1..], b, start + 1);
    } else {
      assert a + b == b;
    }
  }

  /** One more overload handled: its handler appended, its opcode set. */
  lemma NumberedSnoc(fs: seq<Overload>, i: nat, start: int)
    requires i < |fs|
    ensures HandlersOf(fs[..i + 1]) == HandlersOf(fs[..i]) + [fs[i].f]
    ensures (Numbered(fs[..i], start) + fs[i..])[i := fs[i].(addr := start + i)]
            == Numbered(fs[..i + 1], start) + fs[i + 1..]
  {
    assert fs[..i + 1] == fs[..i] + [fs[i]];
    HandlersOfAppend(fs[..i], [fs[i]]);
    NumberedAppend(fs[..i], [fs[i]], start);
    assert fs[i..] == [fs[i]] + fs[i + 1..];
  }

  lemma BuiltStart(ovs: seq<seq<Overload>>)
    ensures Built(ovs, Done(|ovs|, 0)) == CopyHandlers
  {
  }

  /** The `k`-th key of the sorted listing is the `k`-th key `init` visits. */
  lemma VisitKey(names: seq<string>, k: nat)
    requires k < 2 * |names|
    ensures (Empties(|names|) + names)[k] == Visit(names, k)
  {
    if k < |names| {
      assert (Empties(|names|) + names)[k] == Empties(|names|)[k];
    }
  }

  /** `baselib` after `init`. */
  ghost predicate Initialized(lib: map<string, seq<Overload>>) {
    NumberedTable(SortedNames, Overloads, lib)
  }

  /** The package-level state of baselib.go: the overload table and the
      dispatch table. */
  class Registry {
    var baselib: map<string, seq<Overload>>
    var funcAddrs: seq<Handler>

    /** The state before `init` runs: the table as written, the copy handlers. */
    constructor ()
      ensures baselib == Baselib() && funcAddrs == CopyHandlers
    {
      baselib := Baselib();
      funcAddrs := CopyHandlers;
    }

    /** `init`.  `order` is the order in which the Go map hands out its keys,
        which the language leaves unspecified: every key once. */
    method Init(order: seq<string>)
      requires baselib == Baselib() && funcAddrs == CopyHandlers
      requires NoDup(order) && forall x :: x in order <==> x in Baselib()
      modifies this
      ensures funcAddrs == RegistryTable()
      ensures Initialized(baselib)
    {
      var syms := Empties(|baselib|) + order;
      syms := SortStrings(syms);
      SortedSymbols(order);
      NamesDistinct();
      forall k | 0 <= k < |syms|
        ensures syms[k] == Visit(SortedNames, k)
      {
        VisitKey(SortedNames, k);
      }
      NumberNames(syms, SortedNames, Overloads);
      PartialNumbered(SortedNames, Overloads);
    }

    /** The outer loop of `init`, over the sorted keys `syms`: `names` and
        `ovs` are the table as written, which `baselib` holds on entry. */
    method NumberNames(syms: seq<string>, ghost names: seq<string>, ghost ovs: seq<seq<Overload>>)
      requires ValidTable(names, ovs) && |syms| == 2 * |names|
      requires forall k :: 0 <= k < |syms| ==> syms[k] == Visit(names, k)
      requires baselib == LibOf(names, ovs) && funcAddrs == CopyHandlers
      modifies this
      ensures funcAddrs == Built(ovs, |ovs|)
      ensures baselib == Partial(names, ovs, 2 * |names|)
    {
      BuiltStart(ovs);
      var k := 0;
      while k < |syms|
        invariant 0 <= k <= |syms| == 2 * |names| == 2 * |ovs|
        invariant funcAddrs == Built(ovs, Done(|ovs|, k))
        invariant baselib == Partial(names, ovs, k)
      {
        VisitLookup(names, ovs, k);
        VisitAdvance(ovs, k);
        var sym := syms[k];
        var symFuncs := if sym in baselib then baselib[sym] else [];
        assert sym == Visit(names, k) && symFuncs == Original(ovs, k);
        symFuncs := NumberOverloads(symFuncs);
        assert symFuncs == Entry(ovs, k) && funcAddrs == Built(ovs, Done(|ovs|, k + 1));
        baselib := baselib[sym := symFuncs];
        assert baselib == Partial(names, ovs, k + 1);
        k := k + 1;
      }
    }

    /** The inner loop of `init`: give each overload of one name the next
        opcode and append its handler to the dispatch table. */
    method NumberOverloads(symFuncs: seq<Overload>) returns (numbered: seq<Overload>)
      modifies this
      ensures baselib == old(baselib)
      ensures funcAddrs == old(funcAddrs) + HandlersOf(symFuncs)
      ensures numbered == Numbered(symFuncs, |old(funcAddrs)|)
    {
      numbered := symFuncs;
      ghost var start := |funcAddrs|;
      var i := 0;
      while i < |numbered|
        invariant 0 <= i <= |numbered| == |symFuncs|
        invariant baselib == old(baselib)
        invariant funcAddrs == old(funcAddrs) + HandlersOf(symFuncs[..i])
        invariant numbered == Numbered(symFuncs[..i], start) + symFuncs[i..]
      {
        var fun := numbered[i];
        fun := fun.(addr := |funcAddrs|);
        funcAddrs := funcAddrs + [fun.f];
        numbered := numbered[i := fun];
        NumberedSnoc(symFuncs, i, start);
        i := i + 1;
      }
      assert symFuncs[..i] == symFuncs;
    }
  }

  // ---------------------------------------------------------------------------
  // The numbering

  /** The table grows by appending: the handlers of the first `p` names
      are a prefix of those of the first `q`. */
  lemma {:induction false} BuiltPrefix(ovs: seq<seq<Overload>>, p: nat, q: nat)
    requires p <= q <= |ovs|
    ensures |Built(ovs, p)| <= |Built(ovs, q)| && Built(ovs, q)[..|Built(ovs, p)|] == Built(ovs, p)
  {
    if p < q {
      BuiltPrefix(ovs, p, q - 1);
      assert Built(ovs, q)[..|Built(ovs, q - 1)|] == Built(ovs, q - 1);
    }
  }

  /** A name bound in a numbered table other than the empty one is a name
      of the table, bound to its overloads numbered from its base. */
  lemma NumberedIndex(names: seq<string>, ovs: seq<seq<Overload>>, lib: map<string, seq<Overload>>, n: string)
      returns (p: nat)
    requires |names| == |ovs| && NumberedTable(names, ovs, lib) && n in lib && n != ""
    ensures p < |names| && names[p] == n && lib[n] == Numbered(ovs[p], Base(ovs, p))
  {
    p :| 0 <= p < |names| && names[p] == n;
  }

  /** The `i`-th overload of a name in a numbered table: the `i`-th overload
      as written, with opcode `i` past the name's base. */
  lemma NumberedOverload(names: seq<string>, ovs: seq<seq<Overload>>, lib: map<string, seq<Overload>>, n: string, i: int)
      returns (p: nat)
    requires |names| == |ovs| && NumberedTable(names, ovs, lib) && n in lib && 0 <= i < |lib[n]|
    ensures p < |names| && names[p] == n && i < |ovs[p]|
    ensures lib[n][i] == ovs[p][i].(addr := Base(ovs, p) + i)
  {
    p := NumberedIndex(names, ovs, lib, n);
    NumberedAt(ovs[p], Base(ovs, p), i);
  }

  /** Opcode `Base(p) + i` of the table built from `ovs` holds the handler
      of the `i`-th overload of the `p`-th name. */
  lemma BuiltAt(ovs: seq<seq<Overload>>, p: nat, i: nat)
    requires p < |ovs| && i < |ovs[p]|
    ensures Base(ovs, p) + i < |Built(ovs, |ovs|)|
    ensures Built(ovs, |ovs|)[Base(ovs, p) + i] == ovs[p][i].f
  {
    BuiltPrefix(ovs, p + 1, |ovs|);
    HandlersAt(ovs[p], i);
    var k := Base(ovs, p) + i;
    assert Built(ovs, |ovs|)[k] == Built(ovs, |ovs|)[..|Built(ovs, p + 1)|][k] == Built(ovs, p + 1)[k];
  }

  /** The `i`-th overload of the `p`-th name, numbered: its handler sits at
      its opcode, past the copies. */
  lemma PlacedOverload(ovs: seq<seq<Overload>>, p: nat, i: nat, x: Overload)
    requires p < |ovs| && i < |ovs[p]| && x == ovs[p][i].(addr := Base(ovs, p) + i)
    requires OverloadOk(ovs[p][i])
    ensures OverloadOk(x)
    ensures |CopyHandlers| <= x.addr < |Built(ovs, |ovs|)|
    ensures Built(ovs, |ovs|)[x.addr] == x.f
  {
    BuiltAt(ovs, p, i);
    BuiltPrefix(ovs, 0, p);
  }

  lemma ConsistentAt(names: seq<string>, ovs: seq<seq<Overload>>, lib: map<string, seq<Overload>>,
                     n: string, i: int)
    requires ValidTable(names, ovs) && AllOk(ovs) && NumberedTable(names, ovs, lib)
    requires n in lib && 0 <= i < |lib[n]|
    ensures OverloadOk(lib[n][i])
    ensures |CopyHandlers| <= lib[n][i].addr < |Built(ovs, |ovs|)|
    ensures Built(ovs, |ovs|)[lib[n][i].addr] == lib[n][i].f
  {
    var p := NumberedOverload(names, ovs, lib, n, i);
    assert OverloadOk(ovs[p][i]);
    PlacedOverload(ovs, p, i, lib[n][i]);
  }

  /** After `init`, every overload's handler sits in the dispatch table at
      its opcode, every overload keeps its signature, and every opcode is
      past the three copies. */
  lemma NumberedConsistent(names: seq<string>, ovs: seq<seq<Overload>>, lib: map<string, seq<Overload>>)
    requires ValidTable(names, ovs) && AllOk(ovs) && NumberedTable(names, ovs, lib)
    ensures LibOk(lib) && Unambiguous(lib) && Consistent(lib, Built(ovs, |ovs|))
    ensures forall n, i :: n in lib && 0 <= i < |lib[n]| ==> |CopyHandlers| <= lib[n][i].addr
  {
    var table := Built(ovs, |ovs|);
    forall n, i | n in lib && 0 <= i < |lib[n]|
      ensures OverloadOk(lib[n][i])
      ensures |CopyHandlers| <= lib[n][i].addr < |table| && table[lib[n][i].addr] == lib[n][i].f
    {
      ConsistentAt(names, ovs, lib, n, i);
    }
    forall n | n in lib ensures OverloadsUnambiguous(lib[n]) {
      if n != "" {
        var p := NumberedIndex(names, ovs, lib, n);
        NumberedUnambiguous(ovs[p], Base(ovs, p));
      }
    }
  }

  /** Numbering keeps the signatures, so it keeps the overloads apart. */
  lemma NumberedUnambiguous(fs: seq<Overload>, start: int)
    requires OverloadsUnambiguous(fs)
    ensures OverloadsUnambiguous(Numbered(fs, start))
  {
    forall i | 0 <= i < |fs|
      ensures Numbered(fs, start)[i].inT == fs[i].inT && Numbered(fs, start)[i].outT == fs[i].outT
    {
      NumberedAt(fs, start, i);
    }
  }

  /** Every overload's handler sits in `table` at the overload's opcode. */
  ghost predicate Consistent(lib: map<string, seq<Overload>>, table: seq<Handler>) {
    forall n, i :: n in lib && 0 <= i < |lib[n]| ==>
      0 <= lib[n][i].addr < |table| && table[lib[n][i].addr] == lib[n][i].f
  }

  lemma {:induction false} BuiltLength(ovs: seq<seq<Overload>>, p: nat, q: nat)
    requires p < q <= |ovs|
    ensures Base(ovs, p) + |ovs[p]| <= Base(ovs, q)
  {
    if q > p + 1 {
      BuiltLength(ovs, p, q - 1);
    }
  }

  /** Opcodes of different overloads differ. */
  lemma BaseInjective(ovs: seq<seq<Overload>>, p: nat, i: nat, q: nat, j: nat)
    requires p < |ovs| && q < |ovs| && i < |ovs[p]| && j < |ovs[q]|
    requires Base(ovs, p) + i == Base(ovs, q) + j
    ensures p == q && i == j
  {
    if p < q {
      BuiltLength(ovs, p, q);
    } else if q < p {
      BuiltLength(ovs, q, p);
    }
  }

  lemma DistinctPair(names: seq<string>, ovs: seq<seq<Overload>>, lib: map<string, seq<Overload>>,
                     n: string, i: int, m: string, j: int)
    requires ValidTable(names, ovs) && NumberedTable(names, ovs, lib)
    requires n in lib && 0 <= i < |lib[n]| && m in lib && 0 <= j < |lib[m]|
    requires lib[n][i].addr == lib[m][j].addr
    ensures n == m && i == j
  {
    var p := NumberedOverload(names, ovs, lib, n, i);
    var q := NumberedOverload(names, ovs, lib, m, j);
    BaseInjective(ovs, p, i, q, j);
  }

  /** No two overloads share an opcode. */
  lemma NumberedDistinct(names: seq<string>, ovs: seq<seq<Overload>>, lib: map<string, seq<Overload>>)
    requires ValidTable(names, ovs) && NumberedTable(names, ovs, lib)
    ensures forall n, i, m, j ::
              (&& n in lib && 0 <= i < |lib[n]| && m in lib && 0 <= j < |lib[m]|
               && lib[n][i].addr == lib[m][j].addr)
              ==> n == m && i == j
  {
    forall n, i, m, j |
      && n in lib && 0 <= i < |lib[n]| && m in lib && 0 <= j < |lib[m]|
      && lib[n][i].addr == lib[m][j].addr
      ensures n == m && i == j
    {
      DistinctPair(names, ovs, lib, n, i, m, j);
    }
  }

  /** A later name's opcodes lie past all of an earlier name's. */
  lemma BaseOrder(ovs: seq<seq<Overload>>, p: nat, i: nat, q: nat, j: nat)
    requires p < |ovs| && q < |ovs| && i < |ovs[p]| && j < |ovs[q]|
    requires p < q || (p == q && i < j)
    ensures Base(ovs, p) + i < Base(ovs, q) + j
  {
    if p < q {
      BuiltLength(ovs, p, q);
    }
  }

  lemma OrderPair(names: seq<string>, ovs: seq<seq<Overload>>, lib: map<string, seq<Overload>>,
                  n: string, i: int, m: string, j: int)
    requires ValidTable(names, ovs) && Sorted(names) && NumberedTable(names, ovs, lib)
    requires n in lib && 0 <= i < |lib[n]| && m in lib && 0 <= j < |lib[m]|
    requires (StrLe(n, m) && n != m) || (n == m && i < j)
    ensures lib[n][i].addr < lib[m][j].addr
  {
    var p := NumberedOverload(names, ovs, lib, n, i);
    var q := NumberedOverload(names, ovs, lib, m, j);
    if q < p {
      SortedPairwise(names, q, p);
      LeAntisymmetric(n, m);
    }
    BaseOrder(ovs, p, i, q, j);
  }

  /** Names earlier in byte order get lower opcodes; within a name the
      opcodes follow the order the overloads are listed in. */
  lemma NumberedOrder(names: seq<string>, ovs: seq<seq<Overload>>, lib: map<string, seq<Overload>>)
    requires ValidTable(names, ovs) && Sorted(names) && NumberedTable(names, ovs, lib)
    ensures forall n, i, m, j ::
              (&& n in lib && 0 <= i < |lib[n]| && m in lib && 0 <= j < |lib[m]|
               && ((StrLe(n, m) && n != m) || (n == m && i < j)))
              ==> lib[n][i].addr < lib[m][j].addr
  {
    forall n, i, m, j |
      && n in lib && 0 <= i < |lib[n]| && m in lib && 0 <= j < |lib[m]|
      && ((StrLe(n, m) && n != m) || (n == m && i < j))
      ensures lib[n][i].addr < lib[m][j].addr
    {
      OrderPair(names, ovs, lib, n, i, m, j);
    }
  }

  /** The registry after `init`: signatures kept, handlers at their opcodes,
      opcodes distinct and in name order. */
  lemma InitializedWellFormed(lib: map<string, seq<Overload>>)
    requires Initialized(lib)
    ensures LibOk(lib) && Unambiguous(lib) && Consistent(lib, RegistryTable())
    ensures forall n, i :: n in lib && 0 <= i < |lib[n]| ==> IopBoolCopy < lib[n][i].addr
    ensures forall n, i, m, j ::
              (&& n in lib && 0 <= i < |lib[n]| && m in lib && 0 <= j < |lib[m]|
               && lib[n][i].addr == lib[m][j].addr)
              ==> n == m && i == j
    ensures forall n, i, m, j ::
              (&& n in lib && 0 <= i < |lib[n]| && m in lib && 0 <= j < |lib[m]|
               && ((StrLe(n, m) && n != m) || (n == m && i < j)))
              ==> lib[n][i].addr < lib[m][j].addr
  {
    NamesDistinct();
    NamesSorted();
    OverloadsOk();
    OverloadsDistinguishable();
    NumberedConsistent(SortedNames, Overloads, lib);
    NumberedDistinct(SortedNames, Overloads, lib);
    NumberedOrder(SortedNames, Overloads, lib);
  }

  lemma BaseStep(ovs: seq<seq<Overload>>, p: nat)
    requires p < |ovs|
    ensures Base(ovs, p + 1) == Base(ovs, p) + |ovs[p]|
  {
  }

  /** How many overloads each name has, in sorted name order. */
  lemma OverloadCounts()
    ensures |Overloads| == 14
    ensures |Overloads[0]| == 2 && |Overloads[1]| == 1 && |Overloads[2]| == 1 && |Overloads[3]| == 1
    ensures |Overloads[4]| == 2 && |Overloads[5]| == 1 && |Overloads[6]| == 1 && |Overloads[7]| == 1
    ensures |Overloads[8]| == 1 && |Overloads[9]| == 2 && |Overloads[10]| == 1 && |Overloads[11]| == 1
    ensures |Overloads[12]| == 3 && |Overloads[13]| == 1
  {
  }

  lemma BasesOf(ovs: seq<seq<Overload>>)
    requires |ovs| == 14
    requires |ovs[0]| == 2 && |ovs[1]| == 1 && |ovs[2]| == 1 && |ovs[3]| == 1
    requires |ovs[4]| == 2 && |ovs[5]| == 1 && |ovs[6]| == 1 && |ovs[7]| == 1
    requires |ovs[8]| == 1 && |ovs[9]| == 2 && |ovs[10]| == 1 && |ovs[11]| == 1
    requires |ovs[12]| == 3 && |ovs[13]| == 1
    ensures Base(ovs, 0) == 3 && Base(ovs, 1) == 5 && Base(ovs, 2) == 6
    ensures Base(ovs, 3) == 7 && Base(ovs, 4) == 8 && Base(ovs, 5) == 10
    ensures Base(ovs, 6) == 11 && Base(ovs, 7) == 12 && Base(ovs, 8) == 13
    ensures Base(ovs, 9) == 14 && Base(ovs, 10) == 16 && Base(ovs, 11) == 17
    ensures Base(ovs, 12) == 18 && Base(ovs, 13) == 21 && Base(ovs, 14) == 22
  {
    BaseStep(ovs, 0); BaseStep(ovs, 1); BaseStep(ovs, 2); BaseStep(ovs, 3);
    BaseStep(ovs, 4); BaseStep(ovs, 5); BaseStep(ovs, 6); BaseStep(ovs, 7);
    BaseStep(ovs, 8); BaseStep(ovs, 9); BaseStep(ovs, 10); BaseStep(ovs, 11);
    BaseStep(ovs, 12); BaseStep(ovs, 13);
  }

  /** The first opcode of every name, in sorted order, and the table size. */
  lemma Bases()
    ensures Base(Overloads, 0) == 3 && Base(Overloads, 1) == 5 && Base(Overloads, 2) == 6
    ensures Base(Overloads, 3) == 7 && Base(Overloads, 4) == 8 && Base(Overloads, 5) == 10
    ensures Base(Overloads, 6) == 11 && Base(Overloads, 7) == 12 && Base(Overloads, 8) == 13
    ensures Base(Overloads, 9) == 14 && Base(Overloads, 10) == 16 && Base(Overloads, 11) == 17
    ensures Base(Overloads, 12) == 18 && Base(Overloads, 13) == 21 && |RegistryTable()| == 22
  {
    OverloadCounts();
    BasesOf(Overloads);
  }

  /** Opcode `Base(p) + i` runs the `i`-th overload of the `p`-th name. */
  lemma RegistryAt(p: nat, i: nat)
    requires p < |Overloads| && i < |Overloads[p]|
    ensures Base(Overloads, p) + i < |RegistryTable()|
    ensures RegistryTable()[Base(Overloads, p) + i] == Overloads[p][i].f
  {
    BuiltAt(Overloads, p, i);
  }

  lemma NumberedAtPosition(names: seq<string>, ovs: seq<seq<Overload>>, lib: map<string, seq<Overload>>,
                           p: nat, i: nat)
    requires |names| == |ovs| && NumberedTable(names, ovs, lib) && p < |names| && i < |ovs[p]|
    ensures names[p] in lib && i < |lib[names[p]]|
    ensures lib[names[p]][i] == ovs[p][i].(addr := Base(ovs, p) + i)
  {
    NumberedAt(ovs[p], Base(ovs, p), i);
  }

  /** The last two names of the table and the overloads of `Print`. */
  lemma LastEntries()
    ensures SortedNames[12] == "Print" && SortedNames[13] == "||"
    ensures |Overloads| == 14 && |Overloads[12]| == 3 && |Overloads[13]| == 1
    ensures Overloads[12][0] == Overload([Str], [], Print(Str), 0)
    ensures Overloads[12][1] == Overload([Int], [], Print(Int), 0)
    ensures Overloads[12][2] == Overload([Bool], [], Print(Bool), 0)
  {
  }

  /** The copy operations are opcodes 0, 1 and 2 of the 22, and opcode 18
      runs `Print` of a string. */
  lemma CopyOpcodes()
    ensures |RegistryTable()| == 22
    ensures RegistryTable()[IopIntCopy] == Copy(Int) && RegistryTable()[IopStrCopy] == Copy(Str)
    ensures RegistryTable()[IopBoolCopy] == Copy(Bool) && RegistryTable()[18] == Print(Str)
  {
    OverloadCounts();
    LastEntries();
    TableOf(Overloads);
  }

  lemma TableOf(ovs: seq<seq<Overload>>)
    requires |ovs| == 14
    requires |ovs[0]| == 2 && |ovs[1]| == 1 && |ovs[2]| == 1 && |ovs[3]| == 1
    requires |ovs[4]| == 2 && |ovs[5]| == 1 && |ovs[6]| == 1 && |ovs[7]| == 1
    requires |ovs[8]| == 1 && |ovs[9]| == 2 && |ovs[10]| == 1 && |ovs[11]| == 1
    requires |ovs[12]| == 3 && |ovs[13]| == 1
    ensures |Built(ovs, |ovs|)| == 22
    ensures Built(ovs, |ovs|)[IopIntCopy] == Copy(Int)
    ensures Built(ovs, |ovs|)[IopStrCopy] == Copy(Str)
    ensures Built(ovs, |ovs|)[IopBoolCopy] == Copy(Bool)
    ensures Built(ovs, |ovs|)[18] == ovs[12][0].f
  {
    BasesOf(ovs);
    BuiltAt(ovs, 12, 0);
    BuiltPrefix(ovs, 0, |ovs|);
    CopiesFirst(Built(ovs, |ovs|));
  }

  lemma CopiesFirst(t: seq<Handler>)
    requires |t| >= 3 && t[..3] == CopyHandlers
    ensures t[IopIntCopy] == Copy(Int) && t[IopStrCopy] == Copy(Str) && t[IopBoolCopy] == Copy(Bool)
  {
    assert t[..3][0] == Copy(Int) && t[..3][1] == Copy(Str) && t[..3][2] == Copy(Bool);
  }

  /** `Print` of a string, an integer and a boolean gets opcodes 18, 19 and
      20, and `||` gets 21, the last. */
  lemma InitializedOpcodes(lib: map<string, seq<Overload>>)
    requires Initialized(lib)
    ensures "Print" in lib && |lib["Print"]| == 3 && "||" in lib && |lib["||"]| == 1
    ensures lib["Print"][0] == Overload([Str], [], Print(Str), 18)
    ensures lib["Print"][1] == Overload([Int], [], Print(Int), 19)
    ensures lib["Print"][2] == Overload([Bool], [], Print(Bool), 20)
    ensures lib["||"][0].addr == 21
  {
    Bases();
    LastEntries();
    NumberedAtPosition(SortedNames, Overloads, lib, 12, 0);
    NumberedAtPosition(SortedNames, Overloads, lib, 12, 1);
    NumberedAtPosition(SortedNames, Overloads, lib, 12, 2);
    NumberedAtPosition(SortedNames, Overloads, lib, 13, 0);
  }

  lemma HandlersOne(fs: seq<Overload>)
    requires |fs| == 1
    ensures HandlersOf(fs) == [fs[0].f]
  {
  }

  lemma HandlersTwo(fs: seq<Overload>)
    requires |fs| == 2
    ensures HandlersOf(fs) == [fs[0].f, fs[1].f]
  {
    HandlersOne(fs[1..]);
  }

  lemma HandlersThree(fs: seq<Overload>)
    requires |fs| == 3
    ensures HandlersOf(fs) == [fs[0].f, fs[1].f, fs[2].f]
  {
    HandlersTwo(fs[1..]);
  }

  /** The table `init` builds from overload lists of the registry's counts,
      written out entry by entry. */
  lemma BuiltContents(ovs: seq<seq<Overload>>)
    requires |ovs| == 14
    requires |ovs[0]| == 2 && |ovs[1]| == 1 && |ovs[2]| == 1 && |ovs[3]| == 1
    requires |ovs[4]| == 2 && |ovs[5]| == 1 && |ovs[6]| == 1 && |ovs[7]| == 1
    requires |ovs[8]| == 1 && |ovs[9]| == 2 && |ovs[10]| == 1 && |ovs[11]| == 1
    requires |ovs[12]| == 3 && |ovs[13]| == 1
    ensures Built(ovs, |ovs|) == CopyHandlers + [
      ovs[0][0].f, ovs[0][1].f, ovs[1][0].f, ovs[2][0].f, ovs[3][0].f, ovs[4][0].f, ovs[4][1].f,
      ovs[5][0].f, ovs[6][0].f, ovs[7][0].f, ovs[8][0].f, ovs[9][0].f, ovs[9][1].f, ovs[10][0].f,
      ovs[11][0].f, ovs[12][0].f, ovs[12][1].f, ovs[12][2].f, ovs[13][0].f]
  {
    HandlersTwo(ovs[0]);
    assert Built(ovs, 1) == CopyHandlers + [ovs[0][0].f, ovs[0][1].f];
    HandlersOne(ovs[1]);
    assert Built(ovs, 2) == CopyHandlers + [ovs[0][0].f, ovs[0][1].f] + [ovs[1][0].f];
    HandlersOne(ovs[2]);
    assert Built(ovs, 3) == CopyHandlers + [ovs[0][0].f, ovs[0][1].f, ovs[1][0].f] + [ovs[2][0].f];
    HandlersOne(ovs[3]);
    assert Built(ovs, 4) == CopyHandlers + [ovs[0][0].f, ovs[0][1].f, ovs[1][0].f, ovs[2][0].f] + [ovs[3][0].f];
    HandlersTwo(ovs[4]);
    assert Built(ovs, 5) == CopyHandlers + [ovs[0][0].f, ovs[0][1].f, ovs[1][0].f, ovs[2][0].f, ovs[3][0].f] + [ovs[4][0].f, ovs[4][1].f];
    HandlersOne(ovs[5]);
    assert Built(ovs, 6) == CopyHandlers + [ovs[0][0].f, ovs[0][1].f, ovs[1][0].f, ovs[2][0].f, ovs[3][0].f, ovs[4][0].f, ovs[4][1].f] + [ovs[5][0].f];
    HandlersOne(ovs[6]);
    assert Built(ovs, 7) == CopyHandlers + [ovs[0][0].f, ovs[0][1].f, ovs[1][0].f, ovs[2][0].f, ovs[3][0].f, ovs[4][0].f, ovs[4][1].f, ovs[5][0].f] + [ovs[6][0].f];
    HandlersOne(ovs[7]);
    assert Built(ovs, 8) == CopyHandlers + [ovs[0][0].f, ovs[0][1].f, ovs[1][0].f, ovs[2][0].f, ovs[3][0].f, ovs[4][0].f, ovs[4][1].f, ovs[5][0].f, ovs[6][0].f] + [ovs[7][0].f];
    HandlersOne(ovs[8]);
    assert Built(ovs, 9) == CopyHandlers + [ovs[0][0].f, ovs[0][1].f, ovs[1][0].f, ovs[2][0].f, ovs[3][0].f, ovs[4][0].f, ovs[4][1].f, ovs[5][0].f, ovs[6][0].f, ovs[7][0].f] + [ovs[8][0].f];
    HandlersTwo(ovs[9]);
    assert Built(ovs, 10) == CopyHandlers + [ovs[0][0].f, ovs[0][1].f, ovs[1][0].f, ovs[2][0].f, ovs[3][0].f, ovs[4][0].f, ovs[4][1].f, ovs[5][0].f, ovs[6][0].f, ovs[7][0].f, ovs[8][0].f] + [ovs[9][0].f, ovs[9][1].f];
    HandlersOne(ovs[10]);
    assert Built(ovs, 11) == CopyHandlers + [ovs[0][0].f, ovs[0][1].f, ovs[1][0].f, ovs[2][0].f, ovs[3][0].f, ovs[4][0].f, ovs[4][1].f, ovs[5][0].f, ovs[6][0].f, ovs[7][0].f, ovs[8][0].f, ovs[9][0].f, ovs[9][1].f] + [ovs[10][0].f];
    HandlersOne(ovs[11]);
    assert Built(ovs, 12) == CopyHandlers + [ovs[0][0].f, ovs[0][1].f, ovs[1][0].f, ovs[2][0].f, ovs[3][0].f, ovs[4][0].f, ovs[4][1].f, ovs[5][0].f, ovs[6][0].f, ovs[7][0].f, ovs[8][0].f, ovs[9][0].f, ovs[9][1].f, ovs[10][0].f] + [ovs[11][0].f];
    HandlersThree(ovs[12]);
    assert Built(ovs, 13) == CopyHandlers + [ovs[0][0].f, ovs[0][1].f, ovs[1][0].f, ovs[2][0].f, ovs[3][0].f, ovs[4][0].f, ovs[4][1].f, ovs[5][0].f, ovs[6][0].f, ovs[7][0].f, ovs[8][0].f, ovs[9][0].f, ovs[9][1].f, ovs[10][0].f, ovs[11][0].f] + [ovs[12][0].f, ovs[12][1].f, ovs[12][2].f];
    HandlersOne(ovs[13]);
    assert Built(ovs, 14) == CopyHandlers + [ovs[0][0].f, ovs[0][1].f, ovs[1][0].f, ovs[2][0].f, ovs[3][0].f, ovs[4][0].f, ovs[4][1].f, ovs[5][0].f, ovs[6][0].f, ovs[7][0].f, ovs[8][0].f, ovs[9][0].f, ovs[9][1].f, ovs[10][0].f, ovs[11][0].f, ovs[12][0].f, ovs[12][1].f, ovs[12][2].f] + [ovs[13][0].f];
  }


  /** The dispatch table `init` builds, written out: the copies at 0 to 2,
      then the overloads in sorted name order, `Print` at 18 to 20 and `||`
      last, at 21. */
  lemma RegistryTableContents()
    ensures RegistryTable() == [
      Copy(Int), Copy(Str), Copy(Bool),
      IntCmp(Ne), StrNe, Arith(Rem), And, Arith(Mul), Arith(Add), Concat, Arith(Sub), Arith(Quo),
      IntCmp(Lt), IntCmp(Le), IntCmp(Eq), StrEq, IntCmp(Gt), IntCmp(Ge),
      Print(Str), Print(Int), Print(Bool), Or]
  {
    OverloadCounts();
    BuiltContents(Overloads);
  }
}
