/** The fixed-capacity collectors `getExponents`, `getCoefficients` and
    `getQuantumNumber`: each walks the lines, writes one value per line of its subshell
    into the next free slot of a zero-filled buffer, and returns the buffer with its
    leading and trailing zero rows trimmed (`np.trim_zeros`). */
module Buffers {
  import opened Wrappers
  import opened PyText
  import opened Shells

  /** `np.zeros((30, 1))` in getExponents. */
  const ExponentCapacity: nat := 30
  /** `np.zeros((20, 1))` in getCoefficients and getQuantumNumber. */
  const CoefficientCapacity: nat := 20
  const QuantumNumberCapacity: nat := 20

  function Zeros(n: nat): (z: seq<real>)
    ensures |z| == n && forall i :: 0 <= i < n ==> z[i] == 0.0
  {
    seq(n, _ => 0.0)
  }

  // ---------------------------------------------------------------------------
  // np.trim_zeros
  // ---------------------------------------------------------------------------

  /** The index of the first non-zero value at or after `i`, `|vs|` when there is
      none. */
  function FirstNonZero(vs: seq<real>, i: nat): (k: nat)
    requires i <= |vs|
    ensures i <= k <= |vs|
    ensures forall j :: i <= j < k ==> vs[j] == 0.0
    ensures k == |vs| || vs[k] != 0.0
    decreases |vs| - i
  {
    if i < |vs| && vs[i] == 0.0 then FirstNonZero(vs, i + 1) else i
  }

  /** The end of `vs[..j]` once its trailing zeros are dropped. */
  function EndOfNonZero(vs: seq<real>, j: nat): (k: nat)
    requires j <= |vs|
    ensures k <= j
    ensures forall i :: k <= i < j ==> vs[i] == 0.0
    ensures k == 0 || vs[k - 1] != 0.0
  {
    if j > 0 && vs[j - 1] == 0.0 then EndOfNonZero(vs, j - 1) else j
  }

  /** `r` is the stretch of `vs` that starts at `a`, and only zeros lie outside it. */
  ghost predicate TrimmedAt(vs: seq<real>, r: seq<real>, a: nat) {
    && a + |r| <= |vs| && r == vs[a..a + |r|]
    && (forall i :: 0 <= i < a ==> vs[i] == 0.0)
    && (forall i :: a + |r| <= i < |vs| ==> vs[i] == 0.0)
  }

  /** `np.trim_zeros(a)` on an (n, 1) array: the stretch of `vs` between its first and
      its last non-zero value, empty when every value is zero. */
  function TrimZeros(vs: seq<real>): (r: seq<real>)
    ensures exists a :: TrimmedAt(vs, r, a)
    ensures r != [] ==> r[0] != 0.0 && r[|r| - 1] != 0.0
    ensures r == [] <==> forall i :: 0 <= i < |vs| ==> vs[i] == 0.0
  {
    var a := FirstNonZero(vs, 0);
    if a == |vs| then
      assert TrimmedAt(vs, [], 0);
      []
    else
      var b := EndOfNonZero(vs, |vs|);
      assert TrimmedAt(vs, vs[a..b], a);
      vs[a..b]
  }

  /** Only one index fits what `FirstNonZero` promises. */
  lemma {:induction false} FirstNonZeroIs(vs: seq<real>, i: nat, k: nat)
    requires i <= k <= |vs|
    requires forall j :: i <= j < k ==> vs[j] == 0.0
    requires k == |vs| || vs[k] != 0.0
    ensures FirstNonZero(vs, i) == k
    decreases |vs| - i
  {
    if i < k {
      FirstNonZeroIs(vs, i + 1, k);
    }
  }

  /** Only one index fits what `EndOfNonZero` promises. */
  lemma {:induction false} EndOfNonZeroIs(vs: seq<real>, j: nat, k: nat)
    requires k <= j <= |vs|
    requires forall i :: k <= i < j ==> vs[i] == 0.0
    requires k == 0 || vs[k - 1] != 0.0
    ensures EndOfNonZero(vs, j) == k
  {
    if k < j {
      EndOfNonZeroIs(vs, j - 1, k);
    }
  }

  /** A buffer whose slots from `n` on are still zero trims like its first `n` values. */
  lemma {:induction false} TrimmedBuffer(buffer: seq<real>, n: nat)
    requires n <= |buffer|
    requires forall j :: n <= j < |buffer| ==> buffer[j] == 0.0
    ensures TrimZeros(buffer) == TrimZeros(buffer[..n])
  {
    var stored := buffer[..n];
    var a := FirstNonZero(stored, 0);
    if a == n {
      FirstNonZeroIs(buffer, 0, |buffer|);
    } else {
      FirstNonZeroIs(buffer, 0, a);
      var b := EndOfNonZero(stored, n);
      EndOfNonZeroIs(buffer, |buffer|, b);
      assert buffer[a..b] == stored[a..b] by {
        assert |buffer[a..b]| == |stored[a..b]|;
        forall i | 0 <= i < b - a
          ensures buffer[a..b][i] == stored[a..b][i]
        {
          assert stored[a + i] == buffer[a + i];
        }
      }
    }
  }

  /** Trimming a buffer gives the same rows whatever number of unused zero slots
      follows the stored values. */
  lemma {:induction false} TrimZerosOfPadded(vs: seq<real>, n: nat)
    ensures TrimZeros(vs + Zeros(n)) == TrimZeros(vs)
  {
    var buffer := vs + Zeros(n);
    assert buffer[..|vs|] == vs;
    TrimmedBuffer(buffer, |vs|);
  }

  // ---------------------------------------------------------------------------
  // What one matching line contributes
  // ---------------------------------------------------------------------------

  /** The value a collector reads from each line of its subshell. */
  datatype Field =
    | Exponent                              // float(line.split()[1])
    | Coefficient(column: Result<Option<int>>) // line.split()[getColumn(orbital)], converted by the float array
    | QuantumNumber                         // int(line.split()[0][0])

  /** `line.split()[getColumn(orbital)]`, given what `getColumn(orbital)` returns: its
      exception, a TypeError when it returns None, or the token in that column. */
  function Token(column: Result<Option<int>>, line: string): Result<string> {
    var c :- column;
    if c.None? then Raised(TypeError) else PyIndex(Words(line), c.value)
  }

  /** The value `field` reads from `line`, or what Python raises reading it. */
  function Extract(field: Field, line: string, toFloat: FloatParser): Result<real> {
    match field
    case Exponent =>
      var token :- PyIndex(Words(line), 1);
      Float(toFloat, token)
    case Coefficient(column) =>
      var token :- Token(column, line);
      Float(toFloat, token)
    case QuantumNumber =>
      var firstWord :- PyIndex(Words(line), 0);
      var first :- PyIndex(firstWord, 0);
      // int() of one character: see PyText.IntOfChar
      if IsDigit(first) then Ok(DigitValue(first) as real) else Raised(ValueError)
  }

  /** The lines of subshell `letter`, in file order. */
  function ShellLines(lines: seq<string>, letter: char): (r: seq<string>)
    ensures |r| <= |lines|
  {
    if lines == [] then []
    else
      var last := lines[|lines| - 1];
      ShellLines(lines[..|lines| - 1], letter) + if StartsWithShell(last, letter) then [last] else []
  }

  /** The values `field` reads from `ls`, in order, or the first exception. */
  function Values(ls: seq<string>, field: Field, toFloat: FloatParser): (r: Result<seq<real>>)
    ensures r.Ok? ==> |r.value| == |ls|
  {
    if ls == [] then Ok([])
    else
      var v :- Extract(field, ls[0], toFloat);
      var vs :- Values(ls[1..], field, toFloat);
      Ok([v] + vs)
  }

  /** One pass of a collector loop over `line`, given the values stored so far: a line
      of another subshell changes nothing; on a line of subshell `letter` Python first
      evaluates the right-hand side of the store, then the store checks the slot. For a
      coefficient the right-hand side is the token itself and the float array converts
      it as part of the store, after that check. */
  function Step(vs: seq<real>, line: string, letter: char, field: Field, toFloat: FloatParser,
                capacity: nat): (r: Result<seq<real>>)
    requires |vs| <= capacity
    ensures r.Ok? ==> |r.value| <= capacity
    ensures r.Ok? <==> !StartsWithShell(line, letter)
                       || (Extract(field, line, toFloat).Ok? && |vs| < capacity)
    ensures r.Ok? ==> r.value == if StartsWithShell(line, letter)
                                 then vs + [Extract(field, line, toFloat).value] else vs
    ensures StartsWithShell(line, letter) && Extract(field, line, toFloat).Raised?
            && (|vs| < capacity || !field.Coefficient?)
            ==> r == Raised(Extract(field, line, toFloat).error)
    ensures StartsWithShell(line, letter) && field.Coefficient? && Token(field.column, line).Raised?
            ==> r == Raised(Token(field.column, line).error)
    ensures StartsWithShell(line, letter) && |vs| == capacity
            && (Extract(field, line, toFloat).Ok? || (field.Coefficient? && Token(field.column, line).Ok?))
            ==> r == Raised(IndexError)
  {
    if !StartsWithShell(line, letter) then Ok(vs)
    else if field.Coefficient? then
      var token :- Token(field.column, line);
      if |vs| == capacity then Raised(IndexError)
      else
        var v :- Float(toFloat, token);
        Ok(vs + [v])
    else
      var v :- Extract(field, line, toFloat);
      if |vs| == capacity then Raised(IndexError) else Ok(vs + [v])
  }

  /** What a collector loop leaves after `lines`: the values stored into a buffer of
      `capacity` slots, or what the loop raises. */
  function Fill(lines: seq<string>, letter: char, field: Field, toFloat: FloatParser, capacity: nat)
    : (r: Result<seq<real>>)
    ensures r.Ok? ==> |r.value| <= capacity
    decreases |lines|
  {
    if lines == [] then Ok([])
    else
      var vs :- Fill(lines[..|lines| - 1], letter, field, toFloat, capacity);
      Step(vs, lines[|lines| - 1], letter, field, toFloat, capacity)
  }

  lemma {:induction false} FillSnoc(lines: seq<string>, line: string, letter: char, field: Field, toFloat: FloatParser,
                 capacity: nat)
    ensures var before := Fill(lines, letter, field, toFloat, capacity);
            Fill(lines + [line], letter, field, toFloat, capacity)
            == if before.Raised? then Raised(before.error)
               else Step(before.value, line, letter, field, toFloat, capacity)
  {
    assert (lines + [line])[..|lines|] == lines;
  }

  lemma {:induction false} ShellLinesAppend(lines: seq<string>, line: string, letter: char)
    ensures ShellLines(lines + [line], letter)
         == ShellLines(lines, letter) + (if StartsWithShell(line, letter) then [line] else [])
  {
    assert (lines + [line])[..|lines|] == lines;
  }

  /** Every line `ShellLines` keeps is a line of the subshell. */
  lemma {:induction false} ShellLinesMatch(lines: seq<string>, letter: char)
    ensures forall i :: 0 <= i < |ShellLines(lines, letter)| ==> StartsWithShell(ShellLines(lines, letter)[i], letter)
    decreases |lines|
  {
    if lines != [] {
      ShellLinesMatch(lines[..|lines| - 1], letter);
    }
  }

  /** Once the loop has raised, the lines after that one change nothing. */
  lemma {:induction false} FillRaisedPersists(lines: seq<string>, k: nat, letter: char, field: Field,
                                             toFloat: FloatParser, capacity: nat)
    requires k <= |lines| && Fill(lines[..k], letter, field, toFloat, capacity).Raised?
    ensures Fill(lines, letter, field, toFloat, capacity) == Fill(lines[..k], letter, field, toFloat, capacity)
    decreases |lines|
  {
    if k == |lines| {
      assert lines[..k] == lines;
    } else {
      var init := lines[..|lines| - 1];
      assert init[..k] == lines[..k];
      FillRaisedPersists(init, k, letter, field, toFloat, capacity);
      assert lines == init + [lines[|lines| - 1]];
      FillSnoc(init, lines[|lines| - 1], letter, field, toFloat, capacity);
    }
  }

  /** The loop state after line `k`, from the state before it. */
  lemma {:induction false} FillNext(lines: seq<string>, k: nat, letter: char, field: Field, toFloat: FloatParser, capacity: nat)
    requires k < |lines|
    ensures var before := Fill(lines[..k], letter, field, toFloat, capacity);
            Fill(lines[..k + 1], letter, field, toFloat, capacity)
            == if before.Raised? then Raised(before.error)
               else Step(before.value, lines[k], letter, field, toFloat, capacity)
  {
    assert lines[..k + 1][..k] == lines[..k];
  }

  /** When line `k` raises, so does the whole loop, with that exception. */
  lemma {:induction false} FillStop(lines: seq<string>, k: nat, letter: char, field: Field, toFloat: FloatParser, capacity: nat)
    requires k < |lines|
    requires Fill(lines[..k], letter, field, toFloat, capacity).Ok?
    requires Step(Fill(lines[..k], letter, field, toFloat, capacity).value, lines[k], letter, field,
                  toFloat, capacity).Raised?
    ensures Fill(lines, letter, field, toFloat, capacity)
         == Step(Fill(lines[..k], letter, field, toFloat, capacity).value, lines[k], letter, field,
                 toFloat, capacity)
  {
    FillNext(lines, k, letter, field, toFloat, capacity);
    FillRaisedPersists(lines, k + 1, letter, field, toFloat, capacity);
  }

  lemma {:induction false} ValuesSnoc(ls: seq<string>, line: string, field: Field, toFloat: FloatParser)
    ensures var before := Values(ls, field, toFloat);
            var v := Extract(field, line, toFloat);
            Values(ls + [line], field, toFloat)
            == if before.Raised? then before
               else if v.Raised? then Raised(v.error)
               else Ok(before.value + [v.value])
  {
    var v := Extract(field, line, toFloat);
    if ls == [] {
      assert ls + [line] == [line] && [line][1..] == [];
      if v.Ok? {
        assert [v.value] + [] == [] + [v.value];
      }
    } else {
      var head := Extract(field, ls[0], toFloat);
      assert (ls + [line])[0] == ls[0];
      assert (ls + [line])[1..] == ls[1..] + [line];
      ValuesSnoc(ls[1..], line, field, toFloat);
      var tail := Values(ls[1..], field, toFloat);
      if head.Ok? && tail.Ok? && v.Ok? {
        assert [head.value] + (tail.value + [v.value]) == ([head.value] + tail.value) + [v.value];
      }
    }
  }

  /** A collector succeeds exactly when every line of its subshell yields a value and
      there are no more such lines than buffer slots; it then holds those values in
      file order, one slot per line. */
  lemma {:induction false} FillIsBoundedValues(lines: seq<string>, letter: char, field: Field,
                                              toFloat: FloatParser, capacity: nat)
    ensures var ls := ShellLines(lines, letter);
            Fill(lines, letter, field, toFloat, capacity).Ok?
            <==> Values(ls, field, toFloat).Ok? && |ls| <= capacity
    ensures Fill(lines, letter, field, toFloat, capacity).Ok?
            ==> Fill(lines, letter, field, toFloat, capacity).value
                == Values(ShellLines(lines, letter), field, toFloat).value
    decreases |lines|
  {
    if lines == [] {
      assert ShellLines(lines, letter) == [];
    } else {
      var init := lines[..|lines| - 1];
      var line := lines[|lines| - 1];
      assert lines == init + [line];
      FillSnoc(init, line, letter, field, toFloat, capacity);
      ShellLinesAppend(init, line, letter);
      FillIsBoundedValues(init, letter, field, toFloat, capacity);
      var ls0 := ShellLines(init, letter);
      var before := Fill(init, letter, field, toFloat, capacity);
      if StartsWithShell(line, letter) {
        assert ShellLines(lines, letter) == ls0 + [line];
        ValuesSnoc(ls0, line, field, toFloat);
        if before.Ok? {
          assert |before.value| == |ls0|;
        }
      } else {
        assert ShellLines(lines, letter) == ls0;
      }
    }
  }

  // ---------------------------------------------------------------------------
  // The three collectors
  // ---------------------------------------------------------------------------

  /** `getExponents(input, subshell)`. */
  function Exponents(text: string, subshell: string, toFloat: FloatParser): Result<seq<real>> {
    match SubshellNamed(subshell)
    case None => Raised(AssertionError)
    case Some(sh) =>
      var vs :- Fill(Lines(text), Letter(sh), Exponent, toFloat, ExponentCapacity);
      Ok(TrimZeros(vs))
  }

  /** `getCoefficients(input, orbital)`: `orbital[1]` is read before any line, and
      `getColumn(orbital)` on each line of the subshell. */
  function Coefficients(text: string, orbital: string, toFloat: FloatParser): Result<seq<real>> {
    if |orbital| < 2 then Raised(IndexError)
    else
      var vs :- Fill(Lines(text), orbital[1], Coefficient(Column(orbital)), toFloat, CoefficientCapacity);
      Ok(TrimZeros(vs))
  }

  /** `getQuantumNumber(input, subshell)`. */
  function QuantumNumbers(text: string, subshell: string): Result<seq<real>> {
    match SubshellNamed(subshell)
    case None => Raised(AssertionError)
    case Some(sh) =>
      var vs :- Fill(Lines(text), Letter(sh), QuantumNumber, _ => None, QuantumNumberCapacity);
      Ok(TrimZeros(vs))
  }

  /** The digit a line of a subshell starts with (0 for any other line). */
  function LeadingDigit(line: string): real {
    var t := LStrip(line);
    if t != [] && IsDigit(t[0]) then DigitValue(t[0]) as real else 0.0
  }

  /** The leading digit of each line. */
  function LeadingDigits(ls: seq<string>): (ds: seq<real>)
    ensures |ds| == |ls| && forall i :: 0 <= i < |ls| ==> ds[i] == LeadingDigit(ls[i])
  {
    if ls == [] then [] else [LeadingDigit(ls[0])] + LeadingDigits(ls[1..])
  }

  /** `getExponents` reads the second token of every line of its subshell, in file
      order, and fails when one of them is not a float or there are more than 30. */
  lemma {:induction false} ExponentsAreShellValues(text: string, subshell: string, toFloat: FloatParser)
    requires SubshellNamed(subshell).Some?
    ensures var ls := ShellLines(Lines(text), subshell[0]);
            Exponents(text, subshell, toFloat).Ok?
            <==> Values(ls, Exponent, toFloat).Ok? && |ls| <= ExponentCapacity
    ensures Exponents(text, subshell, toFloat).Ok?
            ==> Exponents(text, subshell, toFloat).value
                == TrimZeros(Values(ShellLines(Lines(text), subshell[0]), Exponent, toFloat).value)
  {
    FillIsBoundedValues(Lines(text), subshell[0], Exponent, toFloat, ExponentCapacity);
  }

  /** `getCoefficients` reads the orbital's column on every line of its subshell. */
  lemma {:induction false} CoefficientsAreShellValues(text: string, orbital: string, toFloat: FloatParser)
    requires |orbital| >= 2
    ensures var ls := ShellLines(Lines(text), orbital[1]);
            Coefficients(text, orbital, toFloat).Ok?
            <==> Values(ls, Coefficient(Column(orbital)), toFloat).Ok? && |ls| <= CoefficientCapacity
    ensures Coefficients(text, orbital, toFloat).Ok?
            ==> Coefficients(text, orbital, toFloat).value
                == TrimZeros(Values(ShellLines(Lines(text), orbital[1]), Coefficient(Column(orbital)), toFloat).value)
  {
    FillIsBoundedValues(Lines(text), orbital[1], Coefficient(Column(orbital)), toFloat, CoefficientCapacity);
  }

  /** An orbital with no column of its own (an F orbital, say) still succeeds, with no
      coefficients, when the file has no line of its subshell, and fails otherwise. */
  lemma {:induction false} CoefficientsWithoutColumn(text: string, orbital: string, toFloat: FloatParser)
    requires |orbital| >= 2 && orbital[1] !in "SPD"
    ensures Coefficients(text, orbital, toFloat).Ok?
            <==> ShellLines(Lines(text), orbital[1]) == []
    ensures Coefficients(text, orbital, toFloat).Ok? ==> Coefficients(text, orbital, toFloat).value == []
  {
    var ls := ShellLines(Lines(text), orbital[1]);
    CoefficientsAreShellValues(text, orbital, toFloat);
    if ls != [] {
      assert Extract(Coefficient(Column(orbital)), ls[0], toFloat).Raised?;
    }
  }

  /** The values the quantum-number field reads from lines of a subshell: the leading
      digit of each, which never fails. */
  lemma {:induction false} QuantumValues(ls: seq<string>, letter: char, toFloat: FloatParser)
    requires forall i :: 0 <= i < |ls| ==> StartsWithShell(ls[i], letter)
    ensures Values(ls, QuantumNumber, toFloat) == Ok(LeadingDigits(ls))
  {
    if ls != [] {
      ShellLineFirstWord(ls[0], letter);
      FirstWord(ls[0]);
      QuantumValues(ls[1..], letter, toFloat);
    }
  }

  /** `getQuantumNumber` holds the leading digit of every line of its subshell, in file
      order, and fails only when there are more than 20 such lines. */
  lemma {:induction false} QuantumNumbersAreLeadingDigits(text: string, subshell: string)
    requires SubshellNamed(subshell).Some?
    ensures QuantumNumbers(text, subshell).Ok?
            <==> |ShellLines(Lines(text), subshell[0])| <= QuantumNumberCapacity
    ensures QuantumNumbers(text, subshell).Ok?
            ==> QuantumNumbers(text, subshell).value == TrimZeros(LeadingDigits(ShellLines(Lines(text), subshell[0])))
  {
    var ls := ShellLines(Lines(text), subshell[0]);
    ShellLinesMatch(Lines(text), subshell[0]);
    QuantumValues(ls, subshell[0], _ => None);
    FillIsBoundedValues(Lines(text), subshell[0], QuantumNumber, _ => None, QuantumNumberCapacity);
  }

  /** One pass of a collector loop over `line`, with `i` values stored so far in
      `buffer`: the new number of values, or the exception raised, as `Step` says. */
  method CollectLine(buffer: array<real>, i: nat, line: string, letter: char, field: Field,
                     toFloat: FloatParser) returns (r: Result<nat>)
    requires i <= buffer.Length
    requires forall j :: i <= j < buffer.Length ==> buffer[j] == 0.0
    modifies buffer
    ensures var step := Step(old(buffer[..i]), line, letter, field, toFloat, buffer.Length);
            && (r.Ok? <==> step.Ok?)
            && (r.Ok? ==> && r.value <= buffer.Length && buffer[..r.value] == step.value
                          && forall j :: r.value <= j < buffer.Length ==> buffer[j] == 0.0)
            && (r.Raised? ==> step == Raised(r.error) && buffer[..] == old(buffer[..]))
  {
    if !StartsWithShell(line, letter) {
      return Ok(i);
    }
    var value: Result<real>;
    if field.Coefficient? {
      // line.split()[getColumn(orbital)], converted by the float array once the slot
      // is known to exist
      var token := Token(field.column, line);
      if token.Raised? {
        return Raised(token.error);
      }
      if i == buffer.Length {
        return Raised(IndexError);
      }
      value := Float(toFloat, token.value);
      if value.Raised? {
        return Raised(value.error);
      }
    } else {
      // float(line.split()[1]) or int(line.split()[0][0])
      value := Extract(field, line, toFloat);
      if value.Raised? {
        return Raised(value.error);
      }
      if i == buffer.Length {
        return Raised(IndexError);
      }
    }
    buffer[i] := value.value;
    assert buffer[..i + 1] == old(buffer[..i]) + [value.value];
    return Ok(i + 1);
  }

  /** The loop the three collectors share: a buffer of `capacity` zeros, filled from
      the lines of subshell `letter` in file order, then zero-trimmed. */
  method Collect(lines: seq<string>, letter: char, field: Field, toFloat: FloatParser, capacity: nat)
    returns (r: Result<seq<real>>)
    ensures r == (var vs :- Fill(lines, letter, field, toFloat, capacity); Ok(TrimZeros(vs)))
  {
    var buffer := new real[capacity](_ => 0.0);
    var i: nat := 0;
    for k := 0 to |lines|
      invariant i <= buffer.Length
      invariant Fill(lines[..k], letter, field, toFloat, capacity) == Ok(buffer[..i])
      invariant forall j :: i <= j < buffer.Length ==> buffer[j] == 0.0
    {
      FillNext(lines, k, letter, field, toFloat, capacity);
      var next := CollectLine(buffer, i, lines[k], letter, field, toFloat);
      if next.Raised? {
        FillStop(lines, k, letter, field, toFloat, capacity);
        return Raised(next.error);
      }
      i := next.value;
    }
    assert lines[..|lines|] == lines;
    TrimmedBuffer(buffer[..], i);
    return Ok(TrimZeros(buffer[..]));
  }

  /** `getExponents(input, subshell)`: the loop over the lines, after the assertion on
      the subshell. */
  method GetExponents(text: string, subshell: string, toFloat: FloatParser) returns (r: Result<seq<real>>)
    ensures r == Exponents(text, subshell, toFloat)
  {
    var sh := SubshellNamed(subshell);
    if sh.None? {
      return Raised(AssertionError);
    }
    r := Collect(Lines(text), Letter(sh.value), Exponent, toFloat, ExponentCapacity);
  }

  /** `getCoefficients(input, orbital)`: `orbital[1]` is read before the loop. */
  method GetCoefficients(text: string, orbital: string, toFloat: FloatParser) returns (r: Result<seq<real>>)
    ensures r == Coefficients(text, orbital, toFloat)
  {
    if |orbital| < 2 {
      return Raised(IndexError);
    }
    r := Collect(Lines(text), orbital[1], Coefficient(Column(orbital)), toFloat, CoefficientCapacity);
  }

  /** `getQuantumNumber(input, subshell)`. */
  method GetQuantumNumber(text: string, subshell: string) returns (r: Result<seq<real>>)
    ensures r == QuantumNumbers(text, subshell)
  {
    var sh := SubshellNamed(subshell);
    if sh.None? {
      return Raised(AssertionError);
    }
    r := Collect(Lines(text), Letter(sh.value), QuantumNumber, _ => None, QuantumNumberCapacity);
  }
}
