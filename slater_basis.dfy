/** `load_slater_basis`: every table the reader builds from one `.slater` file, in one
    record. */
module SlaterBasis {
  import opened Wrappers
  import opened PyText
  import opened PyDict
  import opened Shells
  import opened Buffers
  import opened Orbitals
  import opened SubshellTables
  import opened Occupation
  import opened Energy

  /** The dict `load_slater_basis` returns, one field per key. */
  datatype Basis = Basis(
    configuration: string,
    energy: seq<real>,
    orbitals: seq<string>,
    orbitalsEnergy: Dict<Subshell, seq<real>>,
    orbitalsCusp: Dict<Subshell, seq<real>>,
    orbitalsBasis: Dict<Subshell, seq<string>>,
    orbitalsExp: Dict<Subshell, seq<real>>,
    orbitalsCoeff: Dict<string, seq<real>>,
    orbitalsElectronNumber: Dict<string, int>,
    quantumNumbers: seq<real>)

  /** `input.split("\n")[0].split()[1].replace(",", "")`. */
  function Configuration(text: string): (r: Result<string>)
    ensures r.Ok? ==> ',' !in r.value
  {
    var config :- Config(text);
    RemoveCharsIn(config, {','});
    Ok(RemoveChars(config, {','}))
  }

  /** `load_slater_basis` on the contents `text` of the file, with `read` reading the
      explicit occupation counts: the entries computed in the order the dict literal
      lists them, the first exception ending the load. */
  function LoadWith(text: string, toFloat: FloatParser, read: (string, string) -> Result<int>): Result<Basis> {
    var configuration :- Configuration(text);
    var energy :- EnergyOf(text, toFloat);
    var orbitals := OrbitalsOf(Lines(text));
    var orbitalsEnergy :- OrbitalEnergy(text, toFloat);
    var orbitalsCusp :- Cusp(text, toFloat);
    var orbitalsBasis := OrbitalBasis(text);
    var orbitalsExp :- OrbitalExponents(text, toFloat);
    var orbitalsCoeff :- OrbitalCoefficients(text, toFloat);
    var config :- Config(text);
    var electrons :- OccupationsWith(config, read);
    var quantumNumbers :- QuantumNumbers(text, "S");
    Ok(Basis(configuration, energy, orbitals, orbitalsEnergy, orbitalsCusp, orbitalsBasis,
             orbitalsExp, orbitalsCoeff, electrons, quantumNumbers))
  }

  /** `load_slater_basis` with D and F counts read from their brackets (see
      `ReadBracketed`). */
  function LoadSlaterBasis(text: string, toFloat: FloatParser): Result<Basis> {
    LoadWith(text, toFloat, ReadCorrected)
  }

  /** `load_slater_basis` as the code reads D and F counts. */
  function LoadAsWritten(text: string, toFloat: FloatParser): Result<Basis> {
    LoadWith(text, toFloat, ReadAsWritten)
  }

  /** The load succeeds exactly when every table it builds can be built, whichever way
      the occupation counts are read. */
  lemma {:induction false} LoadOk(text: string, toFloat: FloatParser, read: (string, string) -> Result<int>)
    ensures LoadWith(text, toFloat, read).Ok?
            <==> && Config(text).Ok?
                 && EnergyOf(text, toFloat).Ok?
                 && OrbitalEnergy(text, toFloat).Ok?
                 && Cusp(text, toFloat).Ok?
                 && OrbitalExponents(text, toFloat).Ok?
                 && OrbitalCoefficients(text, toFloat).Ok?
                 && OccupationsWith(Config(text).value, read).Ok?
                 && QuantumNumbers(text, "S").Ok?
  {
  }

  /** As written, loading a file whose configuration is that of xenon raises, whatever
      the rest of the file holds: the 4D count cannot be read. */
  lemma {:induction false} LoadAsWrittenXenon(text: string, toFloat: FloatParser)
    requires Config(text) == Ok(XenonConfig)
    ensures LoadAsWritten(text, toFloat).Raised?
  {
    XenonOccupationsAsWritten();
    LoadOk(text, toFloat, ReadAsWritten);
  }

  /** The load fails when the first line has no second word, whatever else the file
      holds. */
  lemma {:induction false} LoadNeedsConfiguration(text: string, toFloat: FloatParser, read: (string, string) -> Result<int>)
    requires |Words(Lines(text)[0])| < 2
    ensures LoadWith(text, toFloat, read) == Raised(IndexError)
  {
  }

  /** Where each field of a loaded basis comes from. */
  lemma {:induction false} LoadedFields(text: string, toFloat: FloatParser)
    requires LoadSlaterBasis(text, toFloat).Ok?
    ensures var b := LoadSlaterBasis(text, toFloat).value;
            && Config(text).Ok? && b.configuration == Configuration(text).value
            && b.orbitals == OrbitalsOf(Lines(text))
            && b.orbitalsBasis == OrbitalBasis(text)
            && OrbitalExponents(text, toFloat).Ok? && b.orbitalsExp == OrbitalExponents(text, toFloat).value
            && OrbitalCoefficients(text, toFloat).Ok? && b.orbitalsCoeff == OrbitalCoefficients(text, toFloat).value
            && OccupationsWith(Config(text).value, ReadCorrected).Ok?
            && b.orbitalsElectronNumber == OccupationsWith(Config(text).value, ReadCorrected).value
  {
    LoadOk(text, toFloat, ReadCorrected);
    var b := Basis(Configuration(text).value, EnergyOf(text, toFloat).value, OrbitalsOf(Lines(text)),
                   OrbitalEnergy(text, toFloat).value, Cusp(text, toFloat).value, OrbitalBasis(text),
                   OrbitalExponents(text, toFloat).value, OrbitalCoefficients(text, toFloat).value,
                   Occupations(text).value, QuantumNumbers(text, "S").value);
    assert LoadSlaterBasis(text, toFloat) == Ok(b);
  }

  /** The configuration of a loaded basis has no commas. */
  lemma {:induction false} LoadedConfiguration(text: string, toFloat: FloatParser)
    requires LoadSlaterBasis(text, toFloat).Ok?
    ensures ',' !in LoadSlaterBasis(text, toFloat).value.configuration
  {
    LoadedFields(text, toFloat);
  }

  /** The coefficient table has one entry per distinct listed orbital, in listing
      order, and every subshell with exponents has basis labels. */
  lemma {:induction false} LoadedTablesAgree(text: string, toFloat: FloatParser)
    requires LoadSlaterBasis(text, toFloat).Ok?
    ensures var b := LoadSlaterBasis(text, toFloat).value;
            && b.orbitalsCoeff.order == Distinct(b.orbitals)
            && forall sh :: sh in b.orbitalsExp.values ==> sh in b.orbitalsBasis.values
  {
    LoadedFields(text, toFloat);
    OrbitalCoefficientsKeys(text, toFloat);
    ExponentSubshellsHaveBasis(text, toFloat);
  }

  /** The occupations of a loaded basis are non-zero and in the order 1S..7S, 2P..7P,
      3D..7D, 4F..7F. */
  lemma {:induction false} LoadedOccupations(text: string, toFloat: FloatParser)
    requires LoadSlaterBasis(text, toFloat).Ok?
    ensures var d := LoadSlaterBasis(text, toFloat).value.orbitalsElectronNumber;
            && (forall o :: o in d.values ==> o in OrbitalNames && d.values[o] != 0)
            && (forall i, j :: 0 <= i < j < |d.order| ==> OrbitalRank(d.order[i]) < OrbitalRank(d.order[j]))
  {
    LoadedFields(text, toFloat);
    var config := Config(text).value;
    OccupationsKeys(config, ReadCorrected);
    OccupationsOrdered(config, ReadCorrected);
  }
}
