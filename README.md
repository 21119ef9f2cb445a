# A verified model of the `.slater` file reader

`io/slater_basic.py` reads a `.slater` atomic wave-function file and returns one dict
describing the atom. That dict holds:

- the electron configuration from the first line;
- the total energies from lines two and three;
- the orbital list;
- per subshell S, P, D, F: the basis-function labels, exponents, orbital energies and
  cusp values;
- per orbital: its coefficient column;
- the occupation number of each orbital;
- the principal quantum numbers of the S functions.

This project models that reader in Dafny, function by function, starting from the text
of the file. Each Python function becomes a Dafny `function` (the specification) and,
where the Python works by loops over lines, a `method` with the same loop, proved equal
to that function. Lemmas then state what each table holds in terms of the lines of the
file.

Modules, one per file:

- `Wrappers`: `Option`, and `Result` with the Python exceptions the reader can raise
  (AssertionError, IndexError, ValueError, TypeError).
- `PyText`: the string operations the reader uses. These are `split("\n")`, `split()`,
  `lstrip`, `in`, `find`/`index`, `split(sep)[1]`, slicing, `re.sub` over a character
  class, list indexing and `int()`.
- `PyDict`: an insertion-ordered dict (key order plus a map), item assignment, and the
  filtering comprehension.
- `Shells`: the subshell letters, the `^\d<letter>` line test and `getColumn`.
- `Buffers`: `getExponents`, `getCoefficients` and `getQuantumNumber`. These are loops
  writing into a zero-filled buffer of fixed capacity (an `array<real>` in the methods),
  followed by `np.trim_zeros`.
- `Orbitals`: `getOrbitals` and `getOrbitalCoefficient`.
- `SubshellTables`: `getOrbitalBasis`, `getOrbitalExponents`, `getCusp` and
  `getOrbitalEnergy`.
- `Occupation`: `getNumberOfElectronsPerOrbital`.
- `Energy`: `getEnergy`, with `re.findall("[= -]\d+.\d+", ...)` modelled exactly. That
  covers the backtracking of the first `\d+` and the unescaped `.` matching any
  character.
- `SlaterBasis`: the dict literal of `load_slater_basis`.

## Model

| member | source | states |
|---|---|---|
| Shells.Column | io/slater_basic.py:28-40 | nS gives token n+1, nP token n, nD token n-1; any other letter gives no column (None); a non-digit first character raises ValueError and a label shorter than two characters IndexError |
| Shells.SubshellNamed | io/slater_basic.py:13 | a subshell argument is accepted exactly when it is one of "S", "P", "D", "F", and then names that letter |
| Shells.ShellLineFirstWord | io/slater_basic.py:21-23 | a line whose left-stripped text starts with a digit and the subshell letter has a first word starting with that digit and letter |
| Buffers.TrimZerosOfPadded | io/slater_basic.py:17-26 | trimming a buffer gives the same rows whatever number of unused zero slots follows the stored values |
| Buffers.TrimmedBuffer | io/slater_basic.py:17-26 | a buffer whose slots from `n` on are still zero trims like its first `n` values |
| Buffers.FillIsBoundedValues | io/slater_basic.py:19-24 | the collecting loop completes exactly when every line of the subshell can be read and there are no more of them than the buffer holds; the buffer then holds their values in file order |
| Buffers.ExponentsAreShellValues | io/slater_basic.py:5-26 | `getExponents` succeeds exactly when the second token of every line of the subshell is a float and there are at most 30 such lines; it returns those floats, in file order, zero-trimmed |
| Buffers.CoefficientsAreShellValues | io/slater_basic.py:42-59 | `getCoefficients` reads the orbital's `getColumn` token on every line of its subshell, at most 20 lines, in file order, zero-trimmed |
| Buffers.CoefficientsWithoutColumn | io/slater_basic.py:54-57 | an orbital whose letter is not S, P or D has no column, and gives an empty result when the file has no line of its subshell and fails otherwise |
| Buffers.QuantumNumbersAreLeadingDigits | io/slater_basic.py:61-78 | `getQuantumNumber` holds the leading digit of every line of the subshell, in file order, zero-trimmed, and fails only beyond 20 lines |
| Buffers.CollectLine | io/slater_basic.py:21-24 | one pass of the collecting loop over a line, in place on the buffer: a line of another subshell leaves it alone; otherwise the value goes into the next free slot, and the pass raises exactly as the source would (IndexError once the buffer is full, ValueError on a field that is not a float), leaving the buffer untouched; the buffer then holds the values read so far and zeros after them |
| Buffers.Collect | io/slater_basic.py:17-26 | the zero-filled buffer, the loop over the lines and `np.trim_zeros` together give exactly the trimmed values the lines of the subshell hold, or the first exception raised |
| Buffers.GetExponents | io/slater_basic.py:5-26 | the buffer loop of `getExponents` returns exactly `Exponents` (AssertionError on a bad subshell, IndexError past 30 lines, ValueError on a bad float) |
| Buffers.GetCoefficients | io/slater_basic.py:42-59 | the buffer loop of `getCoefficients` returns exactly `Coefficients` |
| Buffers.GetQuantumNumber | io/slater_basic.py:61-78 | the buffer loop of `getQuantumNumber` returns exactly `QuantumNumbers` |
| Orbitals.ScanMarkers | io/slater_basic.py:102-105 | for one line, the marker loop appends the tokens after the first once per marker present, and the counter grows by the length of what it appended |
| Orbitals.GetOrbitals | io/slater_basic.py:90-106 | the returned list is the orbitals of all lines in line order, and the counter equals its length |
| Orbitals.InOrbitalsOf | io/slater_basic.py:101-104 | a name is in the list exactly when some line holds a subshell marker and has the name among its tokens after the first |
| Orbitals.FlatMapAppend | io/slater_basic.py:101-104 | the orbitals of consecutive stretches of lines follow each other, so the list keeps line order |
| Orbitals.GetOrbitalCoefficient | io/slater_basic.py:156-161 | the loop over the listed orbitals returns exactly `OrbitalCoefficients`, the first exception ending it |
| Orbitals.OrbitalCoefficientsKeys | io/slater_basic.py:156-161 | the table is built exactly when every listed orbital's coefficients can be read; its keys are the distinct listed orbitals in listing order, each holding `getCoefficients` of that orbital |
| SubshellTables.GetOrbitalBasis | io/slater_basic.py:140-148 | the loop over lines and subshells returns exactly `OrbitalBasis` |
| SubshellTables.OrbitalBasisKeys | io/slater_basic.py:140-148 | a subshell is a key exactly when the file has lines of it; keys come in the order S, P, D, F; each lists the first tokens of its lines in file order |
| SubshellTables.OrbitalBasisLabels | io/slater_basic.py:145-147 | every listed label starts with a digit followed by its subshell's letter |
| SubshellTables.GetOrbitalExponents | io/slater_basic.py:150-154 | the loop over S, P, D, F returns exactly `OrbitalExponents` |
| SubshellTables.OrbitalExponentsOk | io/slater_basic.py:150-154 | the table is built exactly when `getExponents` succeeds for all four subshells |
| SubshellTables.OrbitalExponentsKeys | io/slater_basic.py:150-154 | keys in the order S, P, D, F; a subshell is a key exactly when its exponents are non-empty, and holds them |
| SubshellTables.ExponentSubshellsHaveBasis | io/slater_basic.py:140-154 | every subshell with exponents is also a key of `getOrbitalBasis` |
| SubshellTables.CollectMarked | io/slater_basic.py:108-138 | the marker-line loop shared by `getCusp` and `getOrbitalEnergy` returns exactly `Marked` |
| SubshellTables.GetCusp | io/slater_basic.py:108-123 | returns exactly `Cusp` |
| SubshellTables.GetOrbitalEnergy | io/slater_basic.py:125-138 | returns exactly `OrbitalEnergy` |
| SubshellTables.SlotsOfMarkers | io/slater_basic.py:112-121 | the slot loop completes exactly when the first four marker lines can be read; the first k slots of S, P, D, F are then set, the i-th to the i-th marker line's values, and the rest are unset |
| SubshellTables.MarkedKeys | io/slater_basic.py:108-138 | the resulting dict's keys are the first k of S, P, D, F (k = number of marker lines, at most 4), the i-th holding the values of the i-th marker line |
| SubshellTables.CuspKeys | io/slater_basic.py:108-123 | the i-th line containing CUSP, among the first four, gives the floats after its first token as the cusp values of the i-th subshell |
| SubshellTables.OrbitalEnergyKeys | io/slater_basic.py:125-138 | the i-th line starting BASIS/ORB.ENERGY, among the first four, gives the orbital energies of the i-th subshell |
| Occupation.OrbitalNamesRanked | io/slater_basic.py:175 | the 22 orbital names 1S..7S, 2P..7P, 3D..7D, 4F..7F are distinct, and each is a digit and a letter whose rank is its place in the list |
| Occupation.ZeroOrbitals | io/slater_basic.py:176-177 | the first loop leaves every orbital set to zero, keys in the listed order |
| Occupation.FillShellOf | io/slater_basic.py:181-188 | the branch for a shell letter sets that shell's subshells to their capacities (K: 1S; L: 2S, 2P; M: 3S, 3P, 3D; N: 4S, 4P, 4D, 4F) and keeps the key order |
| Occupation.FillClosedShells | io/slater_basic.py:179-188 | the loop over K, L, M, N gives the closed-shell table of the configuration |
| Occupation.PrefillValue | io/slater_basic.py:179-188 | after the shell loop an orbital of level k ≤ 4 holds its capacity exactly when the k-th shell letter occurs in the configuration, and keeps its old value otherwise |
| Occupation.Prefilled | io/slater_basic.py:176-188 | after the first two loops every orbital holds what its closed shell gives it, and zero if none |
| Occupation.ReadCount | io/slater_basic.py:191-199 | the orbital text taken at the first occurrence is the orbital itself, and the count is read as `ReadCorrected` (see Findings) |
| Occupation.FillExplicit | io/slater_basic.py:190-199 | the third loop returns exactly the `Explicit` fold on the closed-shell table, or the first exception |
| Occupation.ExplicitOk | io/slater_basic.py:190-199 | the third loop completes exactly when every orbital written in the configuration can be read |
| Occupation.ExplicitValue | io/slater_basic.py:190-199 | each orbital written in the configuration holds its count, and every other entry keeps its value |
| Occupation.OccupationsOk | io/slater_basic.py:163-201 | the dict is built exactly when every orbital written in the configuration can be read |
| Occupation.OccupationsKeys | io/slater_basic.py:163-201 | the keys are exactly the orbitals whose occupation is not zero; the occupation is the written count when the orbital is written, and otherwise the closed-shell value |
| Occupation.OccupationsOrdered | io/slater_basic.py:175-201 | the keys come in the order 1S..7S, 2P..7P, 3D..7D, 4F..7F |
| Occupation.GetNumberOfElectronsPerOrbital | io/slater_basic.py:163-201 | returns exactly `Occupations` of the file: IndexError without a configuration word, else the three loops and the non-zero filter |
| Occupation.ReadDigitOfCount | io/slater_basic.py:192-199 | an S or P count is the digit written in brackets right after the orbital's first occurrence, with either reading; orbitals of the same letter may come before it (5S after 4S) |
| Occupation.ReadRemainderRunsOn | io/slater_basic.py:192-197 | a D or F count, as written, is `int()` of everything after the orbital's first occurrence with brackets and commas removed, when the orbital does not occur again (other orbitals of its letter may come before or after) |
| Occupation.ReadRemainderFails | io/slater_basic.py:192-197 | as written, a D or F count followed by more text than digits and brackets (such as the next orbital) raises ValueError, also for a D or F orbital written after another of its letter |
| Occupation.XenonAsWritten | io/slater_basic.py:196-197 | as written, the 4D count of `K(2)L(8)M(18)4S(2)4P(6)5S(2)4D(10)5P(6)` raises ValueError |
| Occupation.XenonOccupationsAsWritten | io/slater_basic.py:163-201 | as written, the whole occupation dict of that configuration raises |
| Occupation.ReadBracketedDigits | io/slater_basic.py:192-197 | corrected: the D or F count is the digits in brackets right after the orbital's first occurrence, whatever comes before or after |
| Occupation.ReadBracketedCount | io/slater_basic.py:192-197 | corrected: the count `str(n)` written in brackets after the first occurrence of a D or F orbital reads back as n |
| Occupation.XenonCorrected | io/slater_basic.py:196-197 | corrected: the 4D count of the xenon configuration is 10 |
| Occupation.XenonFiveS | io/slater_basic.py:192-199 | the 5S count of the xenon configuration, written after 4S, is 2 with either reading |
| Occupation.FourDAfterThreeDCorrected | io/slater_basic.py:192-197 | corrected: in `3D(10)4D(10)5P(6)` the 4D count is 10 |
| Occupation.FourDAfterThreeDAsWritten | io/slater_basic.py:192-197 | as written, the 4D count of `3D(10)4D(10)5P(6)` raises ValueError |
| Energy.TryFirstShape | io/slater_basic.py:87 | a match found at a position is a lead character, digits, one character, digits |
| Energy.FindAllShape | io/slater_basic.py:87 | every match of `findall` has that shape |
| Energy.MatchOfNumber | io/slater_basic.py:87 | a number `digits.digits` after `=`, a space or a minus, not followed by a digit, is matched whole |
| Energy.FindAllSkips | io/slater_basic.py:87 | the search passes over positions where no match starts |
| Energy.FindAllFindsNumber | io/slater_basic.py:87 | such a number, with no match starting before it, is the next match `findall` returns, and the search resumes right after it |
| Energy.EnergyShape | io/slater_basic.py:80-88 | IndexError exactly when the file has fewer than three lines; otherwise one float per match but the last, each the float of that match |
| SlaterBasis.Configuration | io/slater_basic.py:208 | the configuration field has no commas |
| SlaterBasis.LoadOk | io/slater_basic.py:204-217 | with either reading of the occupation counts, the load succeeds exactly when the configuration word exists and every table can be built |
| SlaterBasis.LoadAsWrittenXenon | io/slater_basic.py:204-217 | as written, the load of any file whose configuration is that of xenon raises |
| SlaterBasis.LoadNeedsConfiguration | io/slater_basic.py:208 | a first line with fewer than two words makes the load raise IndexError, with either reading |
| SlaterBasis.LoadedConfiguration | io/slater_basic.py:208 | a loaded configuration has no commas |
| SlaterBasis.LoadedTablesAgree | io/slater_basic.py:210-215 | the coefficient keys are the distinct orbitals of the orbital list, in its order, and every subshell with exponents has basis labels |
| SlaterBasis.LoadedOccupations | io/slater_basic.py:216 | the occupations are non-zero orbital entries in the order 1S..7S, 2P..7P, 3D..7D, 4F..7F |

## Left out

- File I/O: the hard-coded path and the `open`/`read` of `load_slater_basis` are left out; every function takes the text of the file.
- `float()` is not defined: it is a parameter `toFloat`, with `None` standing for ValueError. The strings numpy converts when storing a coefficient go through the same parameter.
- `int()` is modelled for surrounding whitespace, an optional sign and ASCII digits. Underscores between digits and non-ASCII digits, which Python also accepts, are left out. `\d` in the patterns is likewise ASCII digits only.
- numpy arrays of shape (n, 1) are sequences of reals; only the rows matter to the reader.
- The placeholder `0` of the cusp and orbital-energy dicts is `None`.
- Exceptions are values (`Result`), not control flow; the first exception raised is the one returned.
- Occupation.GetNumberOfElectronsPerOrbital: its three loops are the helper methods ZeroOrbitals, FillClosedShells (with FillShellOf) and FillExplicit. The dict's values are also tracked by a ghost map.
- Occupation.GetNumberOfElectronsPerOrbital: D and F counts use the corrected bracket reading (see Findings). The code as written is `OccupationsAsWritten` and `ReadAsWritten`.
- Occupation.ReadDigitOfCount: an S or P count is a single character; counts of two digits are not read correctly by the source either, and the model keeps that.
- Energy.EnergyShape: says nothing about the values of the floats, since `float()` is not defined.
- SlaterBasis.LoadOk: its body is empty; the statement follows from unfolding the definition.
- SlaterBasis.LoadSlaterBasis: reads D and F counts the corrected way, so it succeeds on the xenon configuration where the source's load raises ValueError. The load as written is `LoadAsWritten`; both are `LoadWith` with one reading or the other.
- Shells.StartsWithShell: the letter is compared literally. In `getCoefficients` the letter is `orbital[1]` from the file's orbital list, spliced into a regular expression: a `.` there would match any character, and a `(`, `[` or `\` would make `re` raise `re.error`, an exception `PyError` has no case for. For orbital names of a digit and a letter the two agree.

## Findings

| source | as written | input that shows it | evidently intended | confidence | as-written member | corrected member |
|---|---|---|---|---|---|---|
| io/slater_basic.py:196 | a D or F count is read from everything after the orbital, up to its next occurrence, with `(){}<>,` removed | the xenon configuration `K(2)L(8)M(18)4S(2)4P(6)5S(2)4D(10)5P(6)`: the 4D text `(10)5P(6)` becomes `105P6`, `int()` raises ValueError, and so does the whole occupation dict | the count in the brackets right after the orbital, 10 for 4D | not executed | Occupation.XenonAsWritten | Occupation.ReadBracketedCount |
