/** The per-line token loop of both compilers (parser.go's `Parse` and
    main.go's `Prog.Parse`): the fields of one line are sorted into
    assignment targets, arguments and an operation name, with string
    literals rejoined across the fields they were split into.  The two loops
    differ in one token class only: `True` and `False` are literals in the
    current revision and unknown symbols in the older one. */
module Scanner {
  import opened Text
  import opened Isa

  /** The loop's local variables. */
  datatype ScanState = ScanState(
    assgns: seq<string>,
    buildingAssgns: bool,
    args: seq<string>,
    op: string,
    buildStr: string,
    buildingStr: bool)

  /** The variables as each line starts them. */
  function Start(): ScanState {
    ScanState([], false, [], "", "", false)
  }

  /** A field that ends the line: a comment. */
  predicate IsComment(field: string) {
    HasPrefix(field, "#")
  }

  /** One field that is not a comment; `first` says it is the line's first
      field, `ops` are the operation names of the overload table, and
      `bools` says whether `True` and `False` are literals (the current
      revision) or not (the older one). */
  function Step(ops: set<string>, bools: bool, first: bool, st: ScanState, field: string): Result<ScanState, string> {
    if st.buildingStr then
      var s := st.buildStr + " " + field;
      if IsStringEnd(field) then Success(st.(buildStr := s, buildingStr := false, args := st.args + [s]))
      else Success(st.(buildStr := s))
    else if first && IsIdentifier(field) then
      Success(st.(assgns := st.assgns + [field], buildingAssgns := true))
    else if field == "=" then
      if !st.buildingAssgns then Failure("expected one or more identifiers to left of assigment operator")
      else Success(st.(buildingAssgns := false))
    else if field in ops then
      Success(st.(op := field))
    else if IsStringStart(field) then
      if |field| >= 2 && IsStringEnd(field) then Success(st.(args := st.args + [field]))
      else Success(st.(buildStr := field, buildingStr := true))
    else if IsIdentifier(field) || (bools && IsBool(field)) || IsInt(field) then
      if st.buildingAssgns then
        if !IsIdentifier(field) then
          Failure("expected another identifier or an assignment symbol '=', got '" + field + "'")
        else Success(st.(assgns := st.assgns + [field]))
      else Success(st.(args := st.args + [field]))
    else Failure("unknown symbol: " + field)
  }

  /** The loop from field `i` on: stop at the end or at a comment, stop with
      the message of the first field that is an error. */
  function Scan(ops: set<string>, bools: bool, fields: seq<string>, i: nat, st: ScanState): Result<ScanState, string>
    requires i <= |fields|
    decreases |fields| - i
  {
    if i == |fields| || IsComment(fields[i]) then Success(st)
    else
      match Step(ops, bools, i == 0, st, fields[i])
      case Failure(e) => Failure(e)
      case Success(st') => Scan(ops, bools, fields, i + 1, st')
  }

  /** The loop itself, over the fields of one line; its local variables are
      the fields of `st`. */
  method ScanLine(ops: set<string>, bools: bool, fields: seq<string>) returns (r: Result<ScanState, string>)
    ensures r == Scan(ops, bools, fields, 0, Start())
  {
    var st := Start();
    var i: nat := 0;
    while i < |fields|
      invariant 0 <= i <= |fields|
      invariant Scan(ops, bools, fields, 0, Start()) == Scan(ops, bools, fields, i, st)
    {
      var field := fields[i];
      if HasPrefix(field, "#") {
        break;
      }
      ghost var before := st;
      if st.buildingStr {
        st := st.(buildStr := st.buildStr + " " + field);
        if IsStringEnd(field) {
          st := st.(buildingStr := false, args := st.args + [st.buildStr]);
        }
      } else if i == 0 && IsIdentifier(field) {
        st := st.(assgns := st.assgns + [field], buildingAssgns := true);
      } else if field == "=" {
        if !st.buildingAssgns {
          var msg := "expected one or more identifiers to left of assigment operator";
          ScanStops(ops, bools, fields, i, st, msg);
          return Failure(msg);
        }
        st := st.(buildingAssgns := false);
      } else if field in ops {
        st := st.(op := field);
      } else if IsStringStart(field) {
        if |field| >= 2 && IsStringEnd(field) {
          st := st.(args := st.args + [field]);
        } else {
          st := st.(buildStr := field, buildingStr := true);
        }
      } else if IsIdentifier(field) || (bools && IsBool(field)) || IsInt(field) {
        if st.buildingAssgns {
          if !IsIdentifier(field) {
            var msg := "expected another identifier or an assignment symbol '=', got '" + field + "'";
            ScanStops(ops, bools, fields, i, st, msg);
            return Failure(msg);
          }
          st := st.(assgns := st.assgns + [field]);
        } else {
          st := st.(args := st.args + [field]);
        }
      } else {
        var msg := "unknown symbol: " + field;
        ScanStops(ops, bools, fields, i, st, msg);
        return Failure(msg);
      }
      ScanAdvance(ops, bools, fields, i, before, st);
      i := i + 1;
    }
    r := Success(st);
  }

  lemma ScanAdvance(ops: set<string>, bools: bool, fields: seq<string>, i: nat, st: ScanState, st': ScanState)
    requires i < |fields| && !IsComment(fields[i])
    requires Step(ops, bools, i == 0, st, fields[i]) == Success(st')
    ensures Scan(ops, bools, fields, i, st) == Scan(ops, bools, fields, i + 1, st')
  {
  }

  lemma ScanStops(ops: set<string>, bools: bool, fields: seq<string>, i: nat, st: ScanState, msg: string)
    requires i < |fields| && !IsComment(fields[i])
    requires Step(ops, bools, i == 0, st, fields[i]) == Failure(msg)
    ensures Scan(ops, bools, fields, i, st) == Failure(msg)
  {
  }

  // ---------------------------------------------------------------------------
  // What a scanned line holds

  /** An argument is a complete literal or an identifier. */
  predicate IsArg(a: string) {
    IsString(a) || IsIdentifier(a) || IsInt(a) || IsBool(a)
  }

  /** The shape every state of the loop keeps: targets are identifiers,
      arguments are literals or identifiers, the operation is a table name,
      and a string under construction starts with a quote. */
  predicate Sound(ops: set<string>, st: ScanState) {
    && (forall k :: 0 <= k < |st.assgns| ==> IsIdentifier(st.assgns[k]))
    && (forall k :: 0 <= k < |st.args| ==> IsArg(st.args[k]))
    && (st.op == "" || st.op in ops)
    && (st.buildingStr ==> |st.buildStr| > 0 && st.buildStr[0] == '\'')
  }

  lemma StartSound(ops: set<string>)
    ensures Sound(ops, Start())
  {
  }

  lemma StepSound(ops: set<string>, bools: bool, first: bool, st: ScanState, field: string)
    requires Sound(ops, st) && Step(ops, bools, first, st, field).Success?
    ensures Sound(ops, Step(ops, bools, first, st, field).value)
  {
    var r := Step(ops, bools, first, st, field).value;
    if st.buildingStr {
      var s := st.buildStr + " " + field;
      if IsStringEnd(field) {
        assert s[0] == '\'' && s[|s| - 1] == field[|field| - 1];
        ArgAppended(st.args, s);
      }
    } else if first && IsIdentifier(field) {
      IdentifierAppended(st.assgns, field);
    } else if field == "=" || field in ops {
    } else if IsStringStart(field) {
      if |field| >= 2 && IsStringEnd(field) {
        ArgAppended(st.args, field);
      }
    } else if st.buildingAssgns {
      IdentifierAppended(st.assgns, field);
    } else {
      ArgAppended(st.args, field);
    }
  }

  lemma ArgAppended(args: seq<string>, a: string)
    requires forall k :: 0 <= k < |args| ==> IsArg(args[k])
    requires IsArg(a)
    ensures forall k :: 0 <= k < |args + [a]| ==> IsArg((args + [a])[k])
  {
  }

  lemma IdentifierAppended(ids: seq<string>, a: string)
    requires forall k :: 0 <= k < |ids| ==> IsIdentifier(ids[k])
    requires IsIdentifier(a)
    ensures forall k :: 0 <= k < |ids + [a]| ==> IsIdentifier((ids + [a])[k])
  {
  }

  /** Whatever the loop accepts is made of identifiers, complete literals
      and a table operation. */
  lemma {:induction false} ScanSound(ops: set<string>, bools: bool, fields: seq<string>, i: nat, st: ScanState)
    requires i <= |fields| && Sound(ops, st) && Scan(ops, bools, fields, i, st).Success?
    ensures Sound(ops, Scan(ops, bools, fields, i, st).value)
    decreases |fields| - i
  {
    if i < |fields| && !IsComment(fields[i]) {
      StepSound(ops, bools, i == 0, st, fields[i]);
      ScanSound(ops, bools, fields, i + 1, Step(ops, bools, i == 0, st, fields[i]).value);
    }
  }

  // ---------------------------------------------------------------------------
  // Comments

  /** A field starting with '#' ends the line: the line scans as if it
      stopped just before that field, whatever follows and even in the middle
      of an unfinished string. */
  lemma {:induction false} CommentEndsLine(ops: set<string>, bools: bool, fields: seq<string>, j: nat, i: nat, st: ScanState)
    requires i <= j < |fields| && IsComment(fields[j])
    ensures Scan(ops, bools, fields, i, st) == Scan(ops, bools, fields[..j], i, st)
    decreases j - i
  {
    if i < j {
      assert fields[..j][i] == fields[i];
      if !IsComment(fields[i]) {
        match Step(ops, bools, i == 0, st, fields[i])
        case Failure(_) =>
        case Success(st') => CommentEndsLine(ops, bools, fields, j, i + 1, st');
      }
    }
  }

  // ---------------------------------------------------------------------------
  // Strings across fields

  /** The fields joined back, each after a single space. */
  function SpaceJoined(fs: seq<string>): string {
    if fs == [] then "" else SpaceJoined(fs[..|fs| - 1]) + " " + fs[|fs| - 1]
  }

  /** A string literal that the line splitter cut into several fields is
      rebuilt from them with one space between pieces: from a state building a
      string, the fields up to the first one that ends a string (none of them
      a comment) are appended, and the whole is added to the arguments. */
  lemma {:induction false} StringSpansFields(ops: set<string>, bools: bool, fields: seq<string>, i: nat, k: nat, st: ScanState)
    requires st.buildingStr && i <= k < |fields|
    requires forall j :: i <= j <= k ==> !IsComment(fields[j])
    requires forall j :: i <= j < k ==> !IsStringEnd(fields[j])
    requires IsStringEnd(fields[k])
    ensures var s := st.buildStr + SpaceJoined(fields[i..k + 1]);
      Scan(ops, bools, fields, i, st)
      == Scan(ops, bools, fields, k + 1, st.(buildStr := s, buildingStr := false, args := st.args + [s]))
    decreases k - i
  {
    var st' := st.(buildStr := st.buildStr + " " + fields[i]);
    if i == k {
      SpaceJoinedOne(fields[i]);
      assert fields[i..i + 1] == [fields[i]];
      assert st.buildStr + " " + fields[i] == st.buildStr + SpaceJoined(fields[i..k + 1]);
    } else {
      assert Step(ops, bools, i == 0, st, fields[i]) == Success(st');
      StringSpansFields(ops, bools, fields, i + 1, k, st');
      JoinedSplit(fields, i, k);
      var rest := SpaceJoined(fields[i + 1..k + 1]);
      assert st'.buildStr + rest == st.buildStr + (" " + fields[i] + rest);
    }
  }

  lemma SpaceJoinedOne(f: string)
    ensures SpaceJoined([f]) == " " + f
  {
    assert [f][..0] == [];
  }

  lemma {:induction false} JoinedSplit(fields: seq<string>, i: nat, k: nat)
    requires i < k < |fields|
    ensures " " + fields[i] + SpaceJoined(fields[i + 1..k + 1]) == SpaceJoined(fields[i..k + 1])
    decreases k - i
  {
    assert fields[i..k + 1][..k - i] == fields[i..k];
    assert fields[i + 1..k + 1][..k - i - 1] == fields[i + 1..k];
    if i + 1 < k {
      JoinedSplit(fields, i, k - 1);
    } else {
      assert fields[i..k] == [fields[i]];
      SpaceJoinedOne(fields[i]);
      assert fields[i + 1..k] == [];
    }
  }

  /** A string still open when the line ends, or when a comment starts,
      is dropped: no field from the opening one on reaches the arguments, the
      targets or the operation. */
  lemma {:induction false} OpenStringDropped(ops: set<string>, bools: bool, fields: seq<string>, i: nat, st: ScanState)
    requires st.buildingStr && i <= |fields|
    requires forall j :: i <= j < |fields| ==> IsComment(fields[j]) || !IsStringEnd(fields[j])
    ensures Scan(ops, bools, fields, i, st).Success?
    ensures var r := Scan(ops, bools, fields, i, st).value;
      r.args == st.args && r.assgns == st.assgns && r.op == st.op && r.buildingStr
    decreases |fields| - i
  {
    if i < |fields| && !IsComment(fields[i]) {
      OpenStringDropped(ops, bools, fields, i + 1, st.(buildStr := st.buildStr + " " + fields[i]));
    }
  }

  // ---------------------------------------------------------------------------
  // Errors

  /** An '=' with no target to its left is an error, whatever else the line
      holds. */
  lemma AssignWithoutTarget(ops: set<string>, bools: bool, field: string)
    requires "=" !in ops
    ensures Scan(ops, bools, ["=", field], 0, Start())
            == Failure("expected one or more identifiers to left of assigment operator")
  {
    assert !IsIdentifier("=");
  }

  /** A target, an '=', an identifier, an operation and a string split
      across two fields: the line's parts in order, in either revision. */
  lemma ScanExample(bools: bool)
    ensures Scan({"+"}, bools, ["x", "=", "y", "+", "'a", "b'"], 0, Start())
            == Success(ScanState(["x"], false, ["y", "'a b'"], "+", "'a b'", false))
  {
    var ops: set<string> := {"+"};
    var fs := ["x", "=", "y", "+", "'a", "b'"];
    assert IsIdentifier("x") && IsIdentifier("y");
    assert !IsIdentifier("=") && !IsIdentifier("+") && !IsIdentifier("'a");
    assert !IsStringEnd("'a") && IsStringEnd("b'");
    var s1 := ScanState(["x"], true, [], "", "", false);
    var s2 := s1.(buildingAssgns := false);
    var s3 := s2.(args := ["y"]);
    var s4 := s3.(op := "+");
    var s5 := s4.(buildStr := "'a", buildingStr := true);
    assert Start().assgns + ["x"] == ["x"];
    assert Start().(assgns := ["x"], buildingAssgns := true) == s1;
    assert Step(ops, bools, true, Start(), "x") == Success(s1);
    assert Step(ops, bools, false, s1, "=") == Success(s2);
    assert "y" != "=" && "y" !in ops && s2.args + ["y"] == ["y"];
    assert Step(ops, bools, false, s2, "y") == Success(s3);
    assert Step(ops, bools, false, s3, "+") == Success(s4);
    assert Step(ops, bools, false, s4, "'a") == Success(s5);
    var s6 := s5.(buildStr := "'a b'", buildingStr := false, args := ["y", "'a b'"]);
    assert "'a" + " " + "b'" == "'a b'" && ["y"] + ["'a b'"] == ["y", "'a b'"];
    assert Step(ops, bools, false, s5, "b'") == Success(s6);
    assert Scan(ops, bools, fs, 6, s6) == Success(s6);
    assert Scan(ops, bools, fs, 5, s5) == Scan(ops, bools, fs, 6, s6);
    assert Scan(ops, bools, fs, 4, s4) == Scan(ops, bools, fs, 5, s5);
    assert Scan(ops, bools, fs, 3, s3) == Scan(ops, bools, fs, 4, s4);
    assert Scan(ops, bools, fs, 2, s2) == Scan(ops, bools, fs, 3, s3);
    assert Scan(ops, bools, fs, 1, s1) == Scan(ops, bools, fs, 2, s2);
  }

  /** `True` is a literal argument in the current revision and an unknown
      symbol in the older one. */
  lemma BoolLiteralByRevision()
    ensures Scan({}, true, ["x", "=", "True"], 0, Start())
            == Success(ScanState(["x"], false, ["True"], "", "", false))
    ensures Scan({}, false, ["x", "=", "True"], 0, Start()) == Failure("unknown symbol: True")
  {
    var fs := ["x", "=", "True"];
    assert IsIdentifier("x") && !IsIdentifier("=") && !IsIdentifier("True");
    assert !IsStringStart("True") && !IsInt("True") && !IsStringStart("=");
    var s1 := ScanState(["x"], true, [], "", "", false);
    var s2 := s1.(buildingAssgns := false);
    assert Start().(assgns := Start().assgns + ["x"], buildingAssgns := true) == s1;
    assert [] + ["True"] == ["True"];
    assert Scan({}, true, fs, 2, s2) == Success(s2.(args := ["True"]));
    assert !IsDigit("True"[0]) && Unsigned("True") == "True";
    assert "unknown symbol: " + "True" == "unknown symbol: True";
    assert Step({}, false, false, s2, "True") == Failure("unknown symbol: True");
    assert Scan({}, false, fs, 2, s2) == Failure("unknown symbol: True");
    assert Scan({}, true, fs, 1, s1) == Scan({}, true, fs, 2, s2);
    assert Scan({}, false, fs, 1, s1) == Scan({}, false, fs, 2, s2);
  }
}
