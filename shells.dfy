/** Subshell letters, the "digit followed by subshell letter" line test, and the
    coefficient column of an orbital (`getColumn`). */
module Shells {
  import opened Wrappers
  import opened PyText

  /** The four angular-momentum channels of the file, in the order it lists them. */
  datatype Subshell = S | P | D | F

  const Subshells: seq<Subshell> := [S, P, D, F]

  function Letter(sh: Subshell): char {
    match sh
    case S => 'S'
    case P => 'P'
    case D => 'D'
    case F => 'F'
  }

  /** The position of a subshell in `S, P, D, F`. */
  function Rank(sh: Subshell): (k: nat)
    ensures k < |Subshells| && Subshells[k] == sh
  {
    match sh
    case S => 0
    case P => 1
    case D => 2
    case F => 3
  }

  /** `assert subshell == "S" or subshell == "P" or subshell == "D" or subshell == "F"`:
      the subshell a one-letter argument names, if it names one. */
  function SubshellNamed(name: string): (r: Option<Subshell>)
    ensures r.Some? <==> (name == "S" || name == "P" || name == "D" || name == "F")
    ensures r.Some? ==> name == [Letter(r.value)]
  {
    if name == "S" then Some(S)
    else if name == "P" then Some(P)
    else if name == "D" then Some(D)
    else if name == "F" then Some(F)
    else None
  }

  /** `re.match(r'^\d' + letter, line.lstrip())`: after its indentation the line starts
      with a digit followed by `letter` (the letter is taken literally). */
  predicate StartsWithShell(line: string, letter: char) {
    var t := LStrip(line);
    |t| >= 2 && IsDigit(t[0]) && t[1] == letter
  }

  /** On a line of subshell `letter`, the first word starts with the digit, followed by
      the letter unless the letter is whitespace. */
  lemma {:induction false} ShellLineFirstWord(line: string, letter: char)
    requires StartsWithShell(line, letter)
    ensures Words(line) != [] && IsDigit(Words(line)[0][0])
    ensures !IsSpace(letter) ==> |Words(line)[0]| >= 2 && Words(line)[0][1] == letter
  {
    var t := LStrip(line);
    FirstWord(line);
    if !IsSpace(letter) {
      assert TokenLength(t) >= 2 by {
        assert !IsSpace(t[0]) && !IsSpace(t[1]);
      }
    }
  }

  /** `getColumn(orbital)`: the index of the whitespace token that holds the coefficient
      of `orbital` on a basis line. A basis line is the label, the exponent, then one
      column per orbital of that subshell, so the S columns start at 1S, the P columns
      at 2P and the D columns at 3D: nS is token n+1, nP token n and nD token n-1. Any
      other letter has no column (Python returns None). `int()` of a non-digit
      raises ValueError, and an orbital shorter than two characters IndexError. */
  function Column(orbital: string): (r: Result<Option<int>>)
    ensures |orbital| < 2 ==> r == Raised(IndexError)
    ensures |orbital| >= 2 && orbital[1] == 'S' && IsDigit(orbital[0])
            ==> r == Ok(Some(DigitValue(orbital[0]) + 1))
    ensures |orbital| >= 2 && orbital[1] == 'P' && IsDigit(orbital[0])
            ==> r == Ok(Some(DigitValue(orbital[0])))
    ensures |orbital| >= 2 && orbital[1] == 'D' && IsDigit(orbital[0])
            ==> r == Ok(Some(DigitValue(orbital[0]) - 1))
    ensures |orbital| >= 2 && orbital[1] in "SPD" && !IsDigit(orbital[0])
            ==> r == Raised(ValueError)
    ensures |orbital| >= 2 && orbital[1] !in "SPD" ==> r == Ok(None)
  {
    if |orbital| < 2 then Raised(IndexError)
    else
      IntOfChar(orbital[0]);
      var n := PyInt([orbital[0]]);
      if orbital[1] == 'S' then
        (if n.None? then Raised(ValueError) else Ok(Some(n.value + 1)))
      else if orbital[1] == 'P' then
        (if n.None? then Raised(ValueError) else Ok(Some(n.value)))
      else if orbital[1] == 'D' then
        (if n.None? then Raised(ValueError) else Ok(Some(n.value - 1)))
      else Ok(None)
  }
}
