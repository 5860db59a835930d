/** Character classes, token predicates, field splitting, decimal integers and
    the line-numbered error text shared by both compilers (parser.go and the
    older main.go).  Characters are restricted to ASCII where the source asks
    the `unicode` package. */
module Text {

  predicate IsLower(c: char) { 'a' <= c <= 'z' }

  predicate IsLetter(c: char) { 'a' <= c <= 'z' || 'A' <= c <= 'Z' }

  predicate IsDigit(c: char) { '0' <= c <= '9' }

  /** The ASCII characters `unicode.IsSpace` accepts. */
  predicate IsSpace(c: char) {
    c == ' ' || c == '\t' || c == '\n' || c == '\r' || c == '\U{B}' || c == '\U{C}'
  }

  predicate HasPrefix(s: string, p: string) { |p| <= |s| && s[..|p|] == p }

  // ---------------------------------------------------------------------------
  // Token predicates

  /** A field opens a string literal when its first character is a quote. */
  predicate IsStringStart(s: string) {
    |s| > 0 && s[0] == '\''
  }

  /** A field closes a string literal when it ends in a quote that is not
      preceded by a backslash (a lone quote also closes). */
  predicate IsStringEnd(s: string) {
    |s| > 0 && s[|s| - 1] == '\'' && (|s| == 1 || s[|s| - 2] != '\\')
  }

  predicate AllDigits(s: string) {
    forall i :: 0 <= i < |s| ==> IsDigit(s[i])
  }

  /** The digits after an optional sign, as `strconv.Atoi` reads them. */
  function Unsigned(s: string): string {
    if |s| > 0 && (s[0] == '-' || s[0] == '+') then s[1..] else s
  }

  /** What `strconv.Atoi` accepts: an optional sign and at least one decimal digit. */
  predicate IsInt(s: string) {
    var d := Unsigned(s);
    |d| > 0 && AllDigits(d)
  }

  /** A lower-case letter followed by letters and digits.  The source's loop
      accepts the empty string too, which is kept. */
  predicate IsIdentifier(s: string) {
    (|s| > 0 ==> IsLetter(s[0]) && IsLower(s[0]))
    && forall i :: 1 <= i < |s| ==> IsLetter(s[i]) || IsDigit(s[i])
  }

  /** A complete string literal: at least two characters, quote at both ends. */
  predicate IsString(s: string) {
    |s| > 1 && s[0] == '\'' && s[|s| - 1] == '\''
  }

  predicate IsBool(s: string) {
    s == "True" || s == "False"
  }

  /** Literal text of the current revision: the three kinds `rawToType` types. */
  predicate IsLiteral(s: string) {
    IsString(s) || IsInt(s) || IsBool(s)
  }

  /** Identifiers and literals never overlap, so a name in a symbol table can
      tell whether it was an identifier or an interned literal. */
  lemma IdentifierIsNotLiteral(s: string)
    requires IsIdentifier(s)
    ensures !IsLiteral(s) && !IsStringStart(s)
  {
    if |s| > 0 {
      assert IsLower(s[0]);
      if |s| > 0 && (s[0] == '-' || s[0] == '+') {
      } else {
        assert Unsigned(s) == s;
        assert !IsDigit(s[0]);
      }
    }
  }

  /** A string literal never reads as a number or a boolean. */
  lemma StringIsNotNumberOrBool(s: string)
    requires IsString(s)
    ensures !IsInt(s) && !IsBool(s)
  {
    if s[0] == '-' || s[0] == '+' {
    } else {
      assert Unsigned(s) == s && !IsDigit(s[0]);
    }
  }

  // ---------------------------------------------------------------------------
  // strings.Fields

  /** Index of the first white-space character of `s`, or `|s|`. */
  function FirstSpace(s: string): (k: nat)
    ensures k <= |s|
    ensures forall i :: 0 <= i < k ==> !IsSpace(s[i])
    ensures k < |s| ==> IsSpace(s[k])
  {
    if s == [] || IsSpace(s[0]) then 0 else 1 + FirstSpace(s[1..])
  }

  predicate NoSpace(s: string) {
    forall i :: 0 <= i < |s| ==> !IsSpace(s[i])
  }

  /** The maximal runs of non-space characters of a line, in order. */
  function Fields(s: string): (r: seq<string>)
    ensures forall i :: 0 <= i < |r| ==> |r[i]| > 0 && NoSpace(r[i])
  {
    if s == [] then []
    else if IsSpace(s[0]) then Fields(s[1..])
    else
      var k := FirstSpace(s);
      [s[..k]] + Fields(s[k..])
  }

  function Concat(ss: seq<string>): string {
    if ss == [] then [] else ss[0] + Concat(ss[1..])
  }

  function RemoveSpaces(s: string): string {
    if s == [] then [] else (if IsSpace(s[0]) then [] else [s[0]]) + RemoveSpaces(s[1..])
  }

  lemma {:induction false} RemoveSpacesAppend(a: string, b: string)
    ensures RemoveSpaces(a + b) == RemoveSpaces(a) + RemoveSpaces(b)
  {
    if a != [] {
      assert (a + b)[0] == a[0] && (a + b)[1..] == a[1..] + b;
      RemoveSpacesAppend(a[1..], b);
    } else {
      assert a + b == b;
    }
  }

  lemma {:induction false} RemoveSpacesOfNoSpace(s: string)
    requires NoSpace(s)
    ensures RemoveSpaces(s) == s
  {
    if s != [] {
      RemoveSpacesOfNoSpace(s[1..]);
    }
  }

  /** Splitting into fields loses exactly the white space: the fields, glued
      back together, are the line with its white space removed. */
  lemma {:induction false} FieldsKeepEveryOtherCharacter(s: string)
    ensures Concat(Fields(s)) == RemoveSpaces(s)
  {
    if s == [] {
    } else if IsSpace(s[0]) {
      FieldsKeepEveryOtherCharacter(s[1..]);
    } else {
      var k := FirstSpace(s);
      assert s == s[..k] + s[k..];
      FieldsKeepEveryOtherCharacter(s[k..]);
      RemoveSpacesAppend(s[..k], s[k..]);
      RemoveSpacesOfNoSpace(s[..k]);
      assert Fields(s) == [s[..k]] + Fields(s[k..]);
      assert Concat(Fields(s)) == s[..k] + Concat(Fields(s[k..]));
    }
  }

  // ---------------------------------------------------------------------------
  // strconv.Atoi and strconv.Itoa (unbounded: the 64-bit range is not modelled)

  function DigitValue(c: char): nat
    requires IsDigit(c)
  {
    (c as int - '0' as int) as nat
  }

  function DigitsValue(d: string): nat
    requires AllDigits(d)
  {
    if d == [] then 0 else 10 * DigitsValue(d[..|d| - 1]) + DigitValue(d[|d| - 1])
  }

  /** The value `strconv.Atoi` gives a string it accepts. */
  function Atoi(s: string): int
    requires IsInt(s)
  {
    var v: int := DigitsValue(Unsigned(s));
    if s[0] == '-' then -v else v
  }

  function DigitChar(n: nat): (c: char)
    requires n < 10
    ensures IsDigit(c) && DigitValue(c) == n
  {
    ['0', '1', '2', '3', '4', '5', '6', '7', '8', '9'][n]
  }

  function NatDigits(n: nat): (d: string)
    ensures |d| > 0 && AllDigits(d)
  {
    if n < 10 then [DigitChar(n)] else NatDigits(n / 10) + [DigitChar(n % 10)]
  }

  /** Decimal rendering, with a leading '-' for negative numbers. */
  function Itoa(n: int): string {
    if n < 0 then "-" + NatDigits(-n) else NatDigits(n)
  }

  lemma {:induction false} NatDigitsValue(n: nat)
    ensures DigitsValue(NatDigits(n)) == n
  {
    if n >= 10 {
      var d := NatDigits(n);
      assert d[..|d| - 1] == NatDigits(n / 10);
      NatDigitsValue(n / 10);
    }
  }

  /** Reading back what Itoa writes gives the number again. */
  lemma ItoaAtoiRoundTrip(n: int)
    ensures IsInt(Itoa(n)) && Atoi(Itoa(n)) == n
  {
    var s := Itoa(n);
    var d := NatDigits(if n < 0 then -n else n);
    if n < 0 {
      assert s[0] == '-' && Unsigned(s) == d;
    } else {
      assert IsDigit(d[0]) && Unsigned(s) == d;
    }
    NatDigitsValue(if n < 0 then -n else n);
  }

  // ---------------------------------------------------------------------------
  // parsingErr

  /** The text of a compile error for 1-based source line `line`. */
  function ParsingErr(line: int, msg: string): string {
    "ERROR - Line " + Itoa(line) + ": " + msg
  }

  /** The line number written into an error text, read back: the digits
      between the fixed prefix and the first ':'. */
  function LineOfError(e: string): int
    requires |e| >= 13
    requires IsInt(e[13..13 + FirstColon(e[13..])])
  {
    Atoi(e[13..13 + FirstColon(e[13..])])
  }

  function FirstColon(s: string): (k: nat)
    ensures k <= |s|
  {
    if s == [] || s[0] == ':' then 0 else 1 + FirstColon(s[1..])
  }

  lemma {:induction false} FirstColonAfter(a: string, b: string)
    requires forall i :: 0 <= i < |a| ==> a[i] != ':'
    requires |b| > 0 && b[0] == ':'
    ensures FirstColon(a + b) == |a|
  {
    if a != [] {
      assert (a + b)[1..] == a[1..] + b;
      FirstColonAfter(a[1..], b);
    }
  }

  /** A rendered number holds no ':'. */
  lemma ItoaHasNoColon(n: int)
    ensures forall i :: 0 <= i < |Itoa(n)| ==> Itoa(n)[i] != ':'
  {
    var d := NatDigits(if n < 0 then -n else n);
    assert forall i :: 0 <= i < |d| ==> IsDigit(d[i]);
    if n < 0 {
      assert Itoa(n) == "-" + d;
    }
  }

  /** Every error names the line it was raised on, and the line can be read
      back from the text; the message follows after ": ". */
  lemma ParsingErrNamesLine(line: int, msg: string)
    ensures var e := ParsingErr(line, msg);
      && |e| >= 13 && e[..13] == "ERROR - Line "
      && IsInt(e[13..13 + FirstColon(e[13..])])
      && LineOfError(e) == line
      && e[|e| - |msg|..] == msg
  {
    var e := ParsingErr(line, msg);
    var num := Itoa(line);
    var rest := ": " + msg;
    ItoaAtoiRoundTrip(line);
    ItoaHasNoColon(line);
    assert e == "ERROR - Line " + (num + rest);
    assert e[13..] == num + rest;
    FirstColonAfter(num, rest);
    assert e[13..13 + |num|] == (num + rest)[..|num|] == num;
    assert e == ("ERROR - Line " + num + ": ") + msg;
  }

}
