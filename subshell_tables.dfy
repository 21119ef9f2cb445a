/** The per-subshell tables of the reader: basis labels (`getOrbitalBasis`), exponents
    (`getOrbitalExponents`), cusp values (`getCusp`) and orbital energies
    (`getOrbitalEnergy`). Each is a dict keyed by S, P, D, F. */
module SubshellTables {
  import opened Wrappers
  import opened PyText
  import opened PyDict
  import opened Shells
  import opened Buffers

  /** The subshells are listed once each, and every subshell is listed. */
  lemma {:induction false} SubshellsDistinct()
    ensures forall i, j :: 0 <= i < j < |Subshells| ==> Subshells[i] != Subshells[j]
    ensures forall sh: Subshell :: sh in Subshells
    ensures forall i :: 0 <= i < |Subshells| ==> Rank(Subshells[i]) == i
  {
    forall sh: Subshell
      ensures sh in Subshells
    {
      assert Subshells[Rank(sh)] == sh;
    }
  }

  /** A table with an entry for every subshell, as the dict literal
      `{'S': ..., 'P': ..., 'D': ..., 'F': ...}` starts out. */
  predicate Complete<V>(m: map<Subshell, V>) {
    forall sh: Subshell :: sh in m
  }

  /** The dict of a complete table: its keys stay in the order of the literal. */
  function AsDict<V>(m: map<Subshell, V>): (d: Dict<Subshell, V>)
    requires Complete(m)
    ensures d.Valid() && d.order == Subshells && d.values == m
  {
    SubshellsDistinct();
    Dict(Subshells, m)
  }

  /** `{k: v for k, v in d.items() if len(v) != 0}`. */
  function IfNonEmpty<T>(v: seq<T>): Option<seq<T>> {
    if |v| != 0 then Some(v) else None
  }

  /** The keys of a table come in the order S, P, D, F. */
  predicate InSubshellOrder(ks: seq<Subshell>) {
    forall i, j :: 0 <= i < j < |ks| ==> Rank(ks[i]) < Rank(ks[j])
  }

  lemma {:induction false} KeysInSubshellOrder<V, W>(m: map<Subshell, V>, f: V -> Option<W>)
    requires Complete(m)
    ensures InSubshellOrder(KeysWhere(Subshells, m, f))
  {
    SubshellsDistinct();
    KeysWhereOrdered(Subshells, m, f, sh => Rank(sh));
  }

  // ---------------------------------------------------------------------------
  // getOrbitalBasis
  // ---------------------------------------------------------------------------

  /** The first whitespace token of a line (empty for a blank line). */
  function FirstToken(line: string): string {
    if Words(line) == [] then [] else Words(line)[0]
  }

  /** The first token of each of `ls`, in order. */
  function FirstTokens(ls: seq<string>): (r: seq<string>)
    ensures |r| == |ls|
  {
    if ls == [] then [] else FirstTokens(ls[..|ls| - 1]) + [FirstToken(ls[|ls| - 1])]
  }

  /** `{'S': [], 'P': [], 'D': [], 'F': []}`. */
  const EmptyLists: map<Subshell, seq<string>> := map[S := [], P := [], D := [], F := []]

  lemma {:induction false} EmptyListsComplete()
    ensures Complete(EmptyLists)
  {
    forall sh: Subshell
      ensures sh in EmptyLists
    {
      assert sh.S? || sh.P? || sh.D? || sh.F?;
    }
  }

  /** The inner loop of `getOrbitalBasis` over the subshells `shs`: the line's first
      token appended to the list of each subshell it is a basis line of. */
  function AddLabels(m: map<Subshell, seq<string>>, line: string, shs: seq<Subshell>): (m': map<Subshell, seq<string>>)
    requires Complete(m)
    ensures Complete(m')
  {
    if shs == [] then m
    else
      var m1 := AddLabels(m, line, shs[..|shs| - 1]);
      var sh := shs[|shs| - 1];
      if StartsWithShell(line, Letter(sh)) then m1[sh := m1[sh] + [FirstToken(line)]] else m1
  }

  /** The lists of `getOrbitalBasis` after `lines`, before dropping empty ones. */
  function BasisLists(lines: seq<string>): (m: map<Subshell, seq<string>>)
    ensures Complete(m)
  {
    if lines == [] then EmptyListsComplete(); EmptyLists
    else AddLabels(BasisLists(lines[..|lines| - 1]), lines[|lines| - 1], Subshells)
  }

  /** `getOrbitalBasis(input)`. */
  function OrbitalBasis(text: string): Dict<Subshell, seq<string>> {
    AsDict(BasisLists(Lines(text))).FilterMap(IfNonEmpty)
  }

  lemma {:induction false} AddLabelsNext(m: map<Subshell, seq<string>>, line: string, j: nat)
    requires Complete(m) && j < |Subshells|
    ensures var m1 := AddLabels(m, line, Subshells[..j]);
            var sh := Subshells[j];
            AddLabels(m, line, Subshells[..j + 1])
            == if StartsWithShell(line, Letter(sh)) then m1[sh := m1[sh] + [FirstToken(line)]] else m1
  {
    assert Subshells[..j + 1][..j] == Subshells[..j];
  }

  /** One pass of the inner loop of `getOrbitalBasis`, on the dict's lists. */
  method AppendLabels(lists: map<Subshell, seq<string>>, line: string) returns (m: map<Subshell, seq<string>>)
    requires Complete(lists)
    ensures m == AddLabels(lists, line, Subshells)
  {
    m := lists;
    for j := 0 to |Subshells|
      invariant m == AddLabels(lists, line, Subshells[..j])
    {
      AddLabelsNext(lists, line, j);
      var subshell := Subshells[j];
      if StartsWithShell(line, Letter(subshell)) {
        ShellLineFirstWord(line, Letter(subshell));
        m := m[subshell := m[subshell] + [Words(line)[0]]];
      }
    }
    assert Subshells[..|Subshells|] == Subshells;
  }

  lemma {:induction false} BasisNext(lines: seq<string>, k: nat)
    requires k < |lines|
    ensures BasisLists(lines[..k + 1]) == AddLabels(BasisLists(lines[..k]), lines[k], Subshells)
  {
    assert lines[..k + 1][..k] == lines[..k];
  }

  /** `getOrbitalBasis(input)`. */
  method GetOrbitalBasis(text: string) returns (r: Dict<Subshell, seq<string>>)
    ensures r == OrbitalBasis(text)
  {
    var lists := EmptyLists;
    var lines := Lines(text);
    for k := 0 to |lines|
      invariant lists == BasisLists(lines[..k])
    {
      BasisNext(lines, k);
      lists := AppendLabels(lists, lines[k]);
    }
    assert lines[..|lines|] == lines;
    r := AsDict(lists).FilterMap(IfNonEmpty);
  }

  /** The inner loop appends the line's first token to the subshell it is a basis line
      of, and leaves every other list alone. */
  lemma {:induction false} AddLabelsValue(m: map<Subshell, seq<string>>, line: string, shs: seq<Subshell>, sh: Subshell)
    requires Complete(m)
    requires forall i, j :: 0 <= i < j < |shs| ==> shs[i] != shs[j]
    ensures AddLabels(m, line, shs)[sh]
            == m[sh] + if sh in shs && StartsWithShell(line, Letter(sh)) then [FirstToken(line)] else []
  {
    if shs != [] {
      var init := shs[..|shs| - 1];
      AddLabelsValue(m, line, init, sh);
      assert sh in shs <==> sh in init || sh == shs[|shs| - 1];
      if sh == shs[|shs| - 1] {
        assert sh !in init;
      }
    }
  }

  /** The basis labels of a subshell are the first tokens of its lines, in file order. */
  lemma {:induction false} BasisLabels(lines: seq<string>, sh: Subshell)
    ensures BasisLists(lines)[sh] == FirstTokens(ShellLines(lines, Letter(sh)))
  {
    if lines != [] {
      var init := lines[..|lines| - 1];
      var last := lines[|lines| - 1];
      BasisLabels(init, sh);
      SubshellsDistinct();
      AddLabelsValue(BasisLists(init), last, Subshells, sh);
      var ls := ShellLines(init, Letter(sh));
      assert ShellLines(lines, Letter(sh)) == ls + if StartsWithShell(last, Letter(sh)) then [last] else [];
      if StartsWithShell(last, Letter(sh)) {
        FirstTokensSnoc(ls, last);
      } else {
        assert ls + [] == ls;
      }
      assert BasisLists(lines) == AddLabels(BasisLists(init), last, Subshells);
    }
  }

  lemma {:induction false} FirstTokensSnoc(ls: seq<string>, line: string)
    ensures FirstTokens(ls + [line]) == FirstTokens(ls) + [FirstToken(line)]
  {
    assert (ls + [line])[..|ls|] == ls;
  }

  /** A basis label of subshell `sh`: a digit followed by its letter, as in `2S`. */
  predicate IsLabel(name: string, sh: Subshell) {
    |name| >= 2 && IsDigit(name[0]) && name[1] == Letter(sh)
  }

  /** Every basis label of a subshell is a digit followed by the subshell's letter. */
  lemma {:induction false} LabelsShape(ls: seq<string>, sh: Subshell)
    requires forall i :: 0 <= i < |ls| ==> StartsWithShell(ls[i], Letter(sh))
    ensures forall i :: 0 <= i < |ls| ==> IsLabel(FirstTokens(ls)[i], sh)
  {
    if ls != [] {
      var init := ls[..|ls| - 1];
      LabelsShape(init, sh);
      ShellLineFirstWord(ls[|ls| - 1], Letter(sh));
      var r, ri := FirstTokens(ls), FirstTokens(init);
      assert r == ri + [FirstToken(ls[|ls| - 1])];
      forall i | 0 <= i < |ls|
        ensures IsLabel(r[i], sh)
      {
        if i < |init| {
          assert r[i] == ri[i];
        }
      }
    }
  }

  /** The entry of one subshell in `getOrbitalBasis`. */
  lemma {:induction false} BasisKey(text: string, sh: Subshell)
    ensures var d := OrbitalBasis(text);
            var ls := ShellLines(Lines(text), Letter(sh));
            && (sh in d.values <==> ls != [])
            && (sh in d.values ==> d.values[sh] == FirstTokens(ls))
  {
    var lines := Lines(text);
    var m := BasisLists(lines);
    assert OrbitalBasis(text) == AsDict(m).FilterMap(IfNonEmpty);
    BasisLabels(lines, sh);
  }

  /** `getOrbitalBasis` has a key for exactly the subshells the file has lines of, in
      the order S, P, D, F, each listing the first tokens of those lines in file order. */
  lemma {:induction false} OrbitalBasisKeys(text: string)
    ensures forall sh :: sh in OrbitalBasis(text).values <==> ShellLines(Lines(text), Letter(sh)) != []
    ensures forall sh :: sh in OrbitalBasis(text).values
                         ==> OrbitalBasis(text).values[sh] == FirstTokens(ShellLines(Lines(text), Letter(sh)))
    ensures InSubshellOrder(OrbitalBasis(text).order)
  {
    forall sh: Subshell
      ensures sh in OrbitalBasis(text).values <==> ShellLines(Lines(text), Letter(sh)) != []
      ensures sh in OrbitalBasis(text).values
              ==> OrbitalBasis(text).values[sh] == FirstTokens(ShellLines(Lines(text), Letter(sh)))
    {
      BasisKey(text, sh);
    }
    KeysInSubshellOrder(BasisLists(Lines(text)), IfNonEmpty);
  }

  /** The first tokens of a subshell's lines are labels of that subshell. */
  lemma {:induction false} OrbitalBasisLabels(text: string)
    ensures forall sh, i :: sh in OrbitalBasis(text).values && 0 <= i < |OrbitalBasis(text).values[sh]|
                            ==> IsLabel(OrbitalBasis(text).values[sh][i], sh)
  {
    OrbitalBasisKeys(text);
    forall sh: Subshell
      ensures forall i :: 0 <= i < |ShellLines(Lines(text), Letter(sh))|
                          ==> IsLabel(FirstTokens(ShellLines(Lines(text), Letter(sh)))[i], sh)
    {
      ShellLinesMatch(Lines(text), Letter(sh));
      LabelsShape(ShellLines(Lines(text), Letter(sh)), sh);
    }
  }

  // ---------------------------------------------------------------------------
  // getOrbitalExponents
  // ---------------------------------------------------------------------------

  /** `getExponents(input, key)` for the subshell `key`. */
  function ExponentsOf(text: string, toFloat: FloatParser): Subshell -> Result<seq<real>> {
    sh => Exponents(text, [Letter(sh)], toFloat)
  }

  /** `{k: read(k) for k in S, P, D, F}` without the empty values, or the first
      exception `read` raises. */
  function SubshellTable<V>(read: Subshell -> Result<seq<V>>): Result<Dict<Subshell, seq<V>>> {
    var table :- Table(Subshells, read);
    Ok(table.FilterMap(IfNonEmpty))
  }

  /** `getOrbitalExponents(input)`: the exponents of each subshell in turn, the first
      exception raised, and the subshells without exponents dropped. */
  function OrbitalExponents(text: string, toFloat: FloatParser): Result<Dict<Subshell, seq<real>>> {
    SubshellTable(ExponentsOf(text, toFloat))
  }

  method GetOrbitalExponents(text: string, toFloat: FloatParser) returns (r: Result<Dict<Subshell, seq<real>>>)
    ensures r == OrbitalExponents(text, toFloat)
  {
    var dict: Dict<Subshell, seq<real>> := Dict([], map[]);
    for j := 0 to |Subshells|
      invariant Table(Subshells[..j], ExponentsOf(text, toFloat)) == Ok(dict)
    {
      TableNext(Subshells, ExponentsOf(text, toFloat), j);
      var exponents := GetExponents(text, [Letter(Subshells[j])], toFloat);
      if exponents.Raised? {
        TableRaised(Subshells, ExponentsOf(text, toFloat), j + 1);
        return Raised(exponents.error);
      }
      dict := dict.Set(Subshells[j], exponents.value);
    }
    assert Subshells[..|Subshells|] == Subshells;
    r := Ok(dict.FilterMap(IfNonEmpty));
  }

  /** A subshell with exponents has basis lines. */
  lemma {:induction false} ExponentsNeedLines(text: string, sh: Subshell, toFloat: FloatParser)
    requires Exponents(text, [Letter(sh)], toFloat).Ok? && Exponents(text, [Letter(sh)], toFloat).value != []
    ensures ShellLines(Lines(text), Letter(sh)) != []
  {
    ExponentsAreShellValues(text, [Letter(sh)], toFloat);
  }

  /** The table is built exactly when every subshell can be read. */
  lemma {:induction false} SubshellTableOk<V>(read: Subshell -> Result<seq<V>>)
    ensures SubshellTable(read).Ok? <==> forall sh: Subshell :: read(sh).Ok?
  {
    TableOk(Subshells, read);
    if Table(Subshells, read).Ok? {
      forall sh: Subshell
        ensures read(sh).Ok?
      {
        var i := Rank(sh);
        assert read(Subshells[i]).Ok?;
      }
    }
  }

  /** Reading every subshell gives an entry for each, in the order S, P, D, F. */
  lemma {:induction false} TableOfSubshells<V>(read: Subshell -> Result<V>)
    requires Table(Subshells, read).Ok?
    ensures Table(Subshells, read).value.order == Subshells
    ensures Complete(Table(Subshells, read).value.values)
    ensures forall sh :: read(sh) == Ok(Table(Subshells, read).value.values[sh])
  {
    TableKeys(Subshells, read);
    SubshellsDistinct();
    DistinctOfDistinct(Subshells);
  }

  /** A built table holds, in the order S, P, D, F, the subshells whose values are not
      empty, each with its values. */
  lemma {:induction false} SubshellTableKeys<V>(read: Subshell -> Result<seq<V>>)
    requires SubshellTable(read).Ok?
    ensures InSubshellOrder(SubshellTable(read).value.order)
    ensures forall sh :: sh in SubshellTable(read).value.values <==> read(sh).Ok? && read(sh).value != []
    ensures forall sh :: sh in SubshellTable(read).value.values ==> read(sh) == Ok(SubshellTable(read).value.values[sh])
  {
    var t := Table(Subshells, read).value;
    TableOfSubshells(read);
    KeysInSubshellOrder(t.values, IfNonEmpty);
    forall sh | read(sh).Ok? && read(sh).value != []
      ensures sh in SubshellTable(read).value.values
    {
      assert IfNonEmpty(t.values[sh]).Some?;
    }
  }

  /** `getOrbitalExponents` succeeds exactly when the exponents of every subshell can be
      read. */
  lemma {:induction false} OrbitalExponentsOk(text: string, toFloat: FloatParser)
    ensures OrbitalExponents(text, toFloat).Ok?
            <==> forall sh: Subshell :: Exponents(text, [Letter(sh)], toFloat).Ok?
  {
    var read := ExponentsOf(text, toFloat);
    SubshellTableOk(read);
    if forall sh: Subshell :: Exponents(text, [Letter(sh)], toFloat).Ok? {
      forall sh: Subshell
        ensures read(sh).Ok?
      {
        assert Exponents(text, [Letter(sh)], toFloat).Ok?;
      }
    }
    if OrbitalExponents(text, toFloat).Ok? {
      forall sh: Subshell
        ensures Exponents(text, [Letter(sh)], toFloat).Ok?
      {
        assert read(sh).Ok?;
      }
    }
  }

  /** A built `getOrbitalExponents` holds, in the order S, P, D, F, the subshells with
      exponents, each with `getExponents` of it. */
  lemma {:induction false} OrbitalExponentsKeys(text: string, toFloat: FloatParser)
    requires OrbitalExponents(text, toFloat).Ok?
    ensures InSubshellOrder(OrbitalExponents(text, toFloat).value.order)
    ensures forall sh :: sh in OrbitalExponents(text, toFloat).value.values
                         <==> Exponents(text, [Letter(sh)], toFloat).Ok? && Exponents(text, [Letter(sh)], toFloat).value != []
    ensures forall sh :: sh in OrbitalExponents(text, toFloat).value.values
                         ==> Exponents(text, [Letter(sh)], toFloat) == Ok(OrbitalExponents(text, toFloat).value.values[sh])
  {
    SubshellTableKeys(ExponentsOf(text, toFloat));
  }

  /** Every subshell with exponents is also a key of `getOrbitalBasis`. */
  lemma {:induction false} ExponentSubshellsHaveBasis(text: string, toFloat: FloatParser)
    requires OrbitalExponents(text, toFloat).Ok?
    ensures forall sh :: sh in OrbitalExponents(text, toFloat).value.values ==> sh in OrbitalBasis(text).values
  {
    OrbitalExponentsKeys(text, toFloat);
    OrbitalBasisKeys(text);
    forall sh | sh in OrbitalExponents(text, toFloat).value.values
      ensures ShellLines(Lines(text), Letter(sh)) != []
    {
      ExponentsNeedLines(text, sh, toFloat);
    }
  }

  // ---------------------------------------------------------------------------
  // getCusp and getOrbitalEnergy
  // ---------------------------------------------------------------------------

  /** A line `getCusp` reads: one that contains `CUSP`. */
  predicate IsCuspLine(line: string) {
    Contains(line, "CUSP")
  }

  /** A line `getOrbitalEnergy` reads: after its indentation it starts with `BASIS/ORB`,
      any character but a newline, then `ENERGY`. */
  predicate IsOrbitalEnergyLine(line: string) {
    var t := LStrip(line);
    |t| >= 16 && t[..9] == "BASIS/ORB" && t[9] != '\n' && t[10..16] == "ENERGY"
  }

  /** `[float(x) for x in line.split()[1:]]`. */
  function LineValues(toFloat: FloatParser): string -> Result<seq<real>> {
    line => Floats(toFloat, Tail(Words(line)))
  }

  /** `{'S': 0, 'P': 0, 'D': 0, 'F': 0}`, with `None` for the placeholder 0. */
  const Unset: map<Subshell, Option<seq<real>>> := map[S := None, P := None, D := None, F := None]

  lemma {:induction false} UnsetComplete()
    ensures Complete(Unset)
  {
    forall sh: Subshell
      ensures sh in Unset
    {
      assert sh.S? || sh.P? || sh.D? || sh.F?;
    }
  }

  /** One line of the loop of `getCusp` and `getOrbitalEnergy`: a marker line sets the
      first of S, P, D, F still unset to what `read` gives for it; once all four are
      set, a marker line is skipped without being read. */
  function Mark(slots: map<Subshell, Option<seq<real>>>, line: string, isMarker: string -> bool,
                read: string -> Result<seq<real>>): (r: Result<map<Subshell, Option<seq<real>>>>)
    requires Complete(slots)
    ensures r.Ok? ==> Complete(r.value)
  {
    if !isMarker(line) then Ok(slots)
    else if slots[S].None? then var vs :- read(line); Ok(slots[S := Some(vs)])
    else if slots[P].None? then var vs :- read(line); Ok(slots[P := Some(vs)])
    else if slots[D].None? then var vs :- read(line); Ok(slots[D := Some(vs)])
    else if slots[F].None? then var vs :- read(line); Ok(slots[F := Some(vs)])
    else Ok(slots)
  }

  /** The slots after `lines`, or the first exception raised. */
  function Slots(lines: seq<string>, isMarker: string -> bool, read: string -> Result<seq<real>>)
    : (r: Result<map<Subshell, Option<seq<real>>>>)
    ensures r.Ok? ==> Complete(r.value)
  {
    if lines == [] then UnsetComplete(); Ok(Unset)
    else
      var slots :- Slots(lines[..|lines| - 1], isMarker, read);
      Mark(slots, lines[|lines| - 1], isMarker, read)
  }

  /** `{key: value for key, value in dict.items() if value != 0}`. */
  function IfSet(slot: Option<seq<real>>): Option<seq<real>> {
    slot
  }

  /** The dict `getCusp` or `getOrbitalEnergy` returns for the marker `isMarker`. */
  function Marked(text: string, isMarker: string -> bool, read: string -> Result<seq<real>>)
    : Result<Dict<Subshell, seq<real>>>
  {
    var slots :- Slots(Lines(text), isMarker, read);
    Ok(AsDict(slots).FilterMap(IfSet))
  }

  /** `getCusp(input)`. */
  function Cusp(text: string, toFloat: FloatParser): Result<Dict<Subshell, seq<real>>> {
    Marked(text, IsCuspLine, LineValues(toFloat))
  }

  /** `getOrbitalEnergy(input)`. */
  function OrbitalEnergy(text: string, toFloat: FloatParser): Result<Dict<Subshell, seq<real>>> {
    Marked(text, IsOrbitalEnergyLine, LineValues(toFloat))
  }

  lemma {:induction false} SlotsNext(lines: seq<string>, k: nat, isMarker: string -> bool, read: string -> Result<seq<real>>)
    requires k < |lines|
    ensures Slots(lines[..k + 1], isMarker, read)
         == (var slots :- Slots(lines[..k], isMarker, read); Mark(slots, lines[k], isMarker, read))
  {
    assert lines[..k + 1][..k] == lines[..k];
  }

  /** Once the loop has raised, the remaining lines change nothing. */
  lemma {:induction false} SlotsRaised(lines: seq<string>, k: nat, isMarker: string -> bool,
                                       read: string -> Result<seq<real>>)
    requires k <= |lines| && Slots(lines[..k], isMarker, read).Raised?
    ensures Slots(lines, isMarker, read) == Slots(lines[..k], isMarker, read)
    decreases |lines|
  {
    if k == |lines| {
      assert lines[..k] == lines;
    } else {
      var init := lines[..|lines| - 1];
      assert init[..k] == lines[..k];
      SlotsRaised(init, k, isMarker, read);
    }
  }

  /** The loop of `getCusp` and `getOrbitalEnergy` for a given marker. */
  method CollectMarked(text: string, isMarker: string -> bool, read: string -> Result<seq<real>>)
    returns (r: Result<Dict<Subshell, seq<real>>>)
    ensures r == Marked(text, isMarker, read)
  {
    var slots := Unset;
    var lines := Lines(text);
    for k := 0 to |lines|
      invariant Slots(lines[..k], isMarker, read) == Ok(slots)
    {
      SlotsNext(lines, k, isMarker, read);
      var line := lines[k];
      if isMarker(line) {
        var subshell: Option<Subshell> := None;
        if slots[S].None? {
          subshell := Some(S);
        } else if slots[P].None? {
          subshell := Some(P);
        } else if slots[D].None? {
          subshell := Some(D);
        } else if slots[F].None? {
          subshell := Some(F);
        }
        if subshell.Some? {
          var values := read(line);
          if values.Raised? {
            SlotsRaised(lines, k + 1, isMarker, read);
            return Raised(values.error);
          }
          slots := slots[subshell.value := Some(values.value)];
        }
      }
    }
    assert lines[..|lines|] == lines;
    r := Ok(AsDict(slots).FilterMap(IfSet));
  }

  /** `getCusp(input)`. */
  method GetCusp(text: string, toFloat: FloatParser) returns (r: Result<Dict<Subshell, seq<real>>>)
    ensures r == Cusp(text, toFloat)
  {
    r := CollectMarked(text, IsCuspLine, LineValues(toFloat));
  }

  /** `getOrbitalEnergy(input)`. */
  method GetOrbitalEnergy(text: string, toFloat: FloatParser) returns (r: Result<Dict<Subshell, seq<real>>>)
    ensures r == OrbitalEnergy(text, toFloat)
  {
    r := CollectMarked(text, IsOrbitalEnergyLine, LineValues(toFloat));
  }

  /** The marker lines among `lines`, in file order. */
  function MarkerLines(lines: seq<string>, isMarker: string -> bool): (ms: seq<string>)
    ensures |ms| <= |lines|
  {
    if lines == [] then []
    else MarkerLines(lines[..|lines| - 1], isMarker) + if isMarker(lines[|lines| - 1]) then [lines[|lines| - 1]] else []
  }

  /** How many of the four slots the marker lines `ms` fill. */
  function Filled(ms: seq<string>): (n: nat)
    ensures n <= 4 && n <= |ms|
    ensures n == |ms| || n == 4
  {
    if |ms| < 4 then |ms| else 4
  }

  /** The slots hold values for exactly the first `c` subshells. */
  predicate FilledUpTo<T>(slots: map<Subshell, Option<T>>, c: nat) {
    Complete(slots) && forall i :: 0 <= i < |Subshells| ==> (slots[Subshells[i]].Some? <==> i < c)
  }

  /** Reading each of the marker lines that fill a slot succeeds. */
  predicate ReadsFilled(ms: seq<string>, read: string -> Result<seq<real>>) {
    forall i :: 0 <= i < Filled(ms) ==> read(ms[i]).Ok?
  }

  lemma {:induction false} ReadsFilledSnoc(ms: seq<string>, line: string, read: string -> Result<seq<real>>)
    ensures ReadsFilled(ms + [line], read)
            <==> ReadsFilled(ms, read) && (|ms| < |Subshells| ==> read(line).Ok?)
  {
    var ms' := ms + [line];
    assert forall i :: 0 <= i < |ms| ==> ms'[i] == ms[i];
    assert ms'[|ms|] == line;
  }

  /** A marker line fills the first free slot, the one after the `c` filled ones. */
  lemma {:induction false} MarkFree(slots: map<Subshell, Option<seq<real>>>, line: string, isMarker: string -> bool,
                 read: string -> Result<seq<real>>, c: nat)
    requires FilledUpTo(slots, c) && c < |Subshells| && isMarker(line)
    ensures Mark(slots, line, isMarker, read)
         == (var vs :- read(line); Ok(slots[Subshells[c] := Some(vs)]))
  {
    assert slots[Subshells[0]].Some? <==> 0 < c;
    assert slots[Subshells[1]].Some? <==> 1 < c;
    assert slots[Subshells[2]].Some? <==> 2 < c;
    assert slots[Subshells[3]].Some? <==> 3 < c;
  }

  /** Once all four slots are filled, a marker line is skipped. */
  lemma {:induction false} MarkFull(slots: map<Subshell, Option<seq<real>>>, line: string, isMarker: string -> bool,
                 read: string -> Result<seq<real>>)
    requires FilledUpTo(slots, |Subshells|)
    ensures Mark(slots, line, isMarker, read) == Ok(slots)
  {
    assert slots[Subshells[3]].Some?;
    assert slots[Subshells[2]].Some?;
    assert slots[Subshells[1]].Some?;
    assert slots[Subshells[0]].Some?;
  }

  /** The `i`-th marker line, for `i` below four, fills the `i`-th subshell of S, P, D, F
      with what reading it gives; the loop raises exactly when reading one of those
      lines raises. Later marker lines are never read. */
  lemma {:induction false} SlotsOfMarkers(lines: seq<string>, isMarker: string -> bool,
                                          read: string -> Result<seq<real>>)
    ensures Slots(lines, isMarker, read).Ok? <==> ReadsFilled(MarkerLines(lines, isMarker), read)
    ensures Slots(lines, isMarker, read).Ok? ==>
              && FilledUpTo(Slots(lines, isMarker, read).value, Filled(MarkerLines(lines, isMarker)))
              && forall i :: 0 <= i < Filled(MarkerLines(lines, isMarker))
                             ==> Slots(lines, isMarker, read).value[Subshells[i]]
                                 == Some(read(MarkerLines(lines, isMarker)[i]).value)
  {
    if lines == [] {
      UnsetComplete();
      forall i | 0 <= i < |Subshells|
        ensures Unset[Subshells[i]].None?
      {
        assert Subshells[i] == S || Subshells[i] == P || Subshells[i] == D || Subshells[i] == F;
      }
    } else {
      var init := lines[..|lines| - 1];
      var last := lines[|lines| - 1];
      SlotsOfMarkers(init, isMarker, read);
      var ms0 := MarkerLines(init, isMarker);
      var ms := MarkerLines(lines, isMarker);
      assert Slots(lines, isMarker, read)
          == (var slots :- Slots(init, isMarker, read); Mark(slots, last, isMarker, read));
      if Slots(init, isMarker, read).Raised? {
        var i :| 0 <= i < Filled(ms0) && !read(ms0[i]).Ok?;
        assert ms[i] == ms0[i];
      }
      if !isMarker(last) {
        assert ms == ms0 + [] == ms0;
        assert Slots(lines, isMarker, read) == Slots(init, isMarker, read);
      } else {
        assert ms == ms0 + [last];
        assert forall i :: 0 <= i < |ms0| ==> ms[i] == ms0[i];
        ReadsFilledSnoc(ms0, last, read);
        if Slots(init, isMarker, read).Ok? {
          var slots := Slots(init, isMarker, read).value;
          if |ms0| < |Subshells| {
            MarkFree(slots, last, isMarker, read, |ms0|);
            if read(last).Ok? {
              var slots' := slots[Subshells[|ms0|] := Some(read(last).value)];
              assert Slots(lines, isMarker, read) == Ok(slots');
              assert Complete(slots');
              forall i | 0 <= i < |Subshells|
                ensures slots'[Subshells[i]].Some? <==> i < |ms0| + 1
              {
                if i != |ms0| {
                  assert Subshells[i] != Subshells[|ms0|];
                }
              }
            }
          } else {
            MarkFull(slots, last, isMarker, read);
          }
        }
      }
    }
  }

  /** The dict of `getCusp` or `getOrbitalEnergy` is built exactly when the values of
      the first four marker lines can be read. It then holds the first subshells of S,
      P, D, F, one per marker line, in that order: the `i`-th marker line gives the
      values of the `i`-th subshell. */
  lemma {:induction false} MarkedKeys(text: string, isMarker: string -> bool, read: string -> Result<seq<real>>)
    ensures Marked(text, isMarker, read).Ok? <==> ReadsFilled(MarkerLines(Lines(text), isMarker), read)
    ensures Marked(text, isMarker, read).Ok? ==>
              && Marked(text, isMarker, read).value.order == Subshells[..Filled(MarkerLines(Lines(text), isMarker))]
              && forall i :: 0 <= i < Filled(MarkerLines(Lines(text), isMarker))
                             ==> Marked(text, isMarker, read).value.values[Subshells[i]]
                                 == read(MarkerLines(Lines(text), isMarker)[i]).value
  {
    var lines := Lines(text);
    var ms := MarkerLines(lines, isMarker);
    SlotsOfMarkers(lines, isMarker, read);
    if Slots(lines, isMarker, read).Ok? {
      var slots := Slots(lines, isMarker, read).value;
      KeysWherePrefix(Subshells, slots, IfSet, Filled(ms));
    }
  }

  /** `getCusp`: the `i`-th line containing `CUSP`, for the first four such lines, gives
      the cusp values of the `i`-th subshell of S, P, D, F. */
  lemma {:induction false} CuspKeys(text: string, toFloat: FloatParser)
    ensures Cusp(text, toFloat).Ok?
            <==> forall i :: 0 <= i < Filled(MarkerLines(Lines(text), IsCuspLine))
                             ==> Floats(toFloat, Tail(Words(MarkerLines(Lines(text), IsCuspLine)[i]))).Ok?
    ensures Cusp(text, toFloat).Ok? ==>
              && Cusp(text, toFloat).value.order == Subshells[..Filled(MarkerLines(Lines(text), IsCuspLine))]
              && forall i :: 0 <= i < Filled(MarkerLines(Lines(text), IsCuspLine))
                             ==> Floats(toFloat, Tail(Words(MarkerLines(Lines(text), IsCuspLine)[i])))
                                 == Ok(Cusp(text, toFloat).value.values[Subshells[i]])
  {
    MarkedKeys(text, IsCuspLine, LineValues(toFloat));
  }

  /** `getOrbitalEnergy`: the `i`-th line starting `BASIS/ORB.ENERGY`, for the first
      four such lines, gives the orbital energies of the `i`-th subshell of S, P, D, F. */
  lemma {:induction false} OrbitalEnergyKeys(text: string, toFloat: FloatParser)
    ensures OrbitalEnergy(text, toFloat).Ok?
            <==> forall i :: 0 <= i < Filled(MarkerLines(Lines(text), IsOrbitalEnergyLine))
                             ==> Floats(toFloat, Tail(Words(MarkerLines(Lines(text), IsOrbitalEnergyLine)[i]))).Ok?
    ensures OrbitalEnergy(text, toFloat).Ok? ==>
              && OrbitalEnergy(text, toFloat).value.order == Subshells[..Filled(MarkerLines(Lines(text), IsOrbitalEnergyLine))]
              && forall i :: 0 <= i < Filled(MarkerLines(Lines(text), IsOrbitalEnergyLine))
                             ==> Floats(toFloat, Tail(Words(MarkerLines(Lines(text), IsOrbitalEnergyLine)[i])))
                                 == Ok(OrbitalEnergy(text, toFloat).value.values[Subshells[i]])
  {
    MarkedKeys(text, IsOrbitalEnergyLine, LineValues(toFloat));
  }
}
