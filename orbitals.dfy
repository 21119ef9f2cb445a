/** The orbital list (`getOrbitals`) and the per-orbital coefficient table
    (`getOrbitalCoefficient`). */
module Orbitals {
  import opened Wrappers
  import opened PyText
  import opened PyDict
  import opened Buffers

  /** The subshell headings of the orbital list: the letter padded by two spaces. */
  const Markers: seq<string> := ["  S  ", "  P  ", "  D  ", "  F  "]

  /** What the marker loop adds for one line: `tokens` once for each of `markers`, in
      order, that `present` accepts. */
  function Added(tokens: seq<string>, present: string -> bool, markers: seq<string>): seq<string> {
    if markers == [] then []
    else
      Added(tokens, present, markers[..|markers| - 1])
      + if present(markers[|markers| - 1]) then tokens else []
  }

  /** What the marker loop adds for `line`: its tokens after the first, once for each
      marker the line holds. */
  function LineOrbitals(line: string): seq<string> {
    Added(Tail(Words(line)), m => Contains(line, m), Markers)
  }

  /** What `f` gives for each of `lines`, concatenated in line order. */
  function FlatMap(lines: seq<string>, f: string -> seq<string>): seq<string> {
    if lines == [] then []
    else FlatMap(lines[..|lines| - 1], f) + f(lines[|lines| - 1])
  }

  /** The orbitals listed by `lines`, in line order and then token order. */
  function OrbitalsOf(lines: seq<string>): seq<string> {
    FlatMap(lines, LineOrbitals)
  }

  /** A line holding a marker holds a word, so `len(line.split()) - 1` is the number of
      tokens after the first. */
  lemma {:induction false} MarkerLineHasWords(line: string, m: nat)
    requires m < |Markers| && Contains(line, Markers[m])
    ensures Words(line) != []
    ensures |Tail(Words(line))| == |Words(line)| - 1
  {
    ContainsFind(line, Markers[m]);
    var j := Find(line, Markers[m]).value;
    assert line[j..j + 5] == Markers[m];
    assert line[j + 2] == Markers[m][2];
    WordsOfNonBlank(line, j + 2);
  }

  lemma {:induction false} AddedNext(tokens: seq<string>, present: string -> bool, markers: seq<string>, m: nat)
    requires m < |markers|
    ensures Added(tokens, present, markers[..m + 1])
         == Added(tokens, present, markers[..m]) + if present(markers[m]) then tokens else []
  {
    assert markers[..m + 1][..m] == markers[..m];
  }

  lemma {:induction false} FlatMapNext(lines: seq<string>, f: string -> seq<string>, k: nat)
    requires k < |lines|
    ensures FlatMap(lines[..k + 1], f) == FlatMap(lines[..k], f) + f(lines[k])
  {
    assert lines[..k + 1][..k] == lines[..k];
  }

  /** The marker loop of `getOrbitals` for one line: what it appends to the list and
      how much it adds to the counter. */
  method ScanMarkers(line: string) returns (added: seq<string>, count: int)
    ensures added == LineOrbitals(line)
    ensures count == |added|
  {
    added := [];
    count := 0;
    ghost var tokens := Tail(Words(line));
    for m := 0 to |Markers|
      invariant added == Added(tokens, m => Contains(line, m), Markers[..m])
      invariant count == |added|
    {
      AddedNext(tokens, m => Contains(line, m), Markers, m);
      if Contains(line, Markers[m]) {
        MarkerLineHasWords(line, m);
        added := added + Tail(Words(line));
        count := count + |Words(line)| - 1;
      }
    }
    assert Markers[..|Markers|] == Markers;
  }

  /** `getOrbitals(input)`: the number of orbitals and the orbitals. */
  method GetOrbitals(text: string) returns (counter: int, listOfOrbitals: seq<string>)
    ensures listOfOrbitals == OrbitalsOf(Lines(text))
    ensures counter == |listOfOrbitals|
  {
    counter := 0;
    listOfOrbitals := [];
    var lines := Lines(text);
    for k := 0 to |lines|
      invariant listOfOrbitals == OrbitalsOf(lines[..k])
      invariant counter == |listOfOrbitals|
    {
      FlatMapNext(lines, LineOrbitals, k);
      var added, count := ScanMarkers(lines[k]);
      listOfOrbitals := listOfOrbitals + added;
      counter := counter + count;
    }
    assert lines[..|lines|] == lines;
  }

  /** The orbitals of consecutive stretches of lines follow each other. */
  lemma {:induction false} FlatMapAppend(a: seq<string>, b: seq<string>, f: string -> seq<string>)
    ensures FlatMap(a + b, f) == FlatMap(a, f) + FlatMap(b, f)
    decreases |b|
  {
    if b == [] {
      assert a + b == a;
    } else {
      var init := b[..|b| - 1];
      assert (a + b)[..|a + b| - 1] == a + init;
      FlatMapAppend(a, init, f);
    }
  }

  /** Some line of `lines` gives `o`. */
  ghost predicate SomeLineGives(lines: seq<string>, f: string -> seq<string>, o: string) {
    exists k :: 0 <= k < |lines| && o in f(lines[k])
  }

  lemma {:induction false} SomeLineGivesSnoc(lines: seq<string>, f: string -> seq<string>, o: string)
    requires lines != []
    ensures SomeLineGives(lines, f, o)
            <==> SomeLineGives(lines[..|lines| - 1], f, o) || o in f(lines[|lines| - 1])
  {
    var init := lines[..|lines| - 1];
    if SomeLineGives(lines, f, o) {
      var k :| 0 <= k < |lines| && o in f(lines[k]);
      if k < |init| {
        assert init[k] == lines[k];
      }
    }
    if SomeLineGives(init, f, o) {
      var k :| 0 <= k < |init| && o in f(init[k]);
      assert lines[k] == init[k];
    }
  }

  /** An entry comes from some line, and every entry of every line is kept. */
  lemma {:induction false} InFlatMap(lines: seq<string>, f: string -> seq<string>, o: string)
    ensures o in FlatMap(lines, f) <==> SomeLineGives(lines, f, o)
    decreases |lines|
  {
    if lines != [] {
      InFlatMap(lines[..|lines| - 1], f, o);
      SomeLineGivesSnoc(lines, f, o);
    }
  }

  /** The loop adds a token exactly when it is among `tokens` and some marker is
      present. */
  lemma {:induction false} InAdded(tokens: seq<string>, present: string -> bool, markers: seq<string>, o: string)
    ensures o in Added(tokens, present, markers)
            <==> o in tokens && exists m :: 0 <= m < |markers| && present(markers[m])
  {
    if markers != [] {
      var init := markers[..|markers| - 1];
      InAdded(tokens, present, init, o);
      if o in tokens && exists m :: 0 <= m < |markers| && present(markers[m]) {
        var m :| 0 <= m < |markers| && present(markers[m]);
        if m < |init| {
          assert init[m] == markers[m];
        }
      }
      if exists m :: 0 <= m < |init| && present(init[m]) {
        var m :| 0 <= m < |init| && present(init[m]);
        assert markers[m] == init[m];
      }
    }
  }

  /** One of the subshell headings occurs in `line`. */
  predicate HasMarker(line: string) {
    exists m :: 0 <= m < |Markers| && Contains(line, Markers[m])
  }

  /** A line contributes exactly its tokens after the first, and only if it holds a
      marker. */
  lemma {:induction false} InLineOrbitals(line: string, o: string)
    ensures o in LineOrbitals(line) <==> HasMarker(line) && o in Tail(Words(line))
  {
    InAdded(Tail(Words(line)), m => Contains(line, m), Markers, o);
  }

  /** Every orbital comes from a line holding a marker, and every token after the first
      on such a line is an orbital. */
  lemma {:induction false} InOrbitalsOf(lines: seq<string>, o: string)
    ensures o in OrbitalsOf(lines)
            <==> exists k :: 0 <= k < |lines| && HasMarker(lines[k]) && o in Tail(Words(lines[k]))
  {
    InFlatMap(lines, LineOrbitals, o);
    forall k | 0 <= k < |lines|
      ensures o in LineOrbitals(lines[k]) <==> HasMarker(lines[k]) && o in Tail(Words(lines[k]))
    {
      InLineOrbitals(lines[k], o);
    }
  }

  // ---------------------------------------------------------------------------
  // getOrbitalCoefficient
  // ---------------------------------------------------------------------------

  /** `getCoefficients(input, orbital)` as a function of the orbital. */
  function CoefficientReader(text: string, toFloat: FloatParser): string -> Result<seq<real>> {
    o => Coefficients(text, o, toFloat)
  }

  /** `getOrbitalCoefficient(input)`. */
  function OrbitalCoefficients(text: string, toFloat: FloatParser): Result<Dict<string, seq<real>>> {
    Table(OrbitalsOf(Lines(text)), CoefficientReader(text, toFloat))
  }

  method GetOrbitalCoefficient(text: string, toFloat: FloatParser) returns (r: Result<Dict<string, seq<real>>>)
    ensures r == OrbitalCoefficients(text, toFloat)
  {
    var dict: Dict<string, seq<real>> := Dict([], map[]);
    var _, orbitals := GetOrbitals(text);
    ghost var read := CoefficientReader(text, toFloat);
    for k := 0 to |orbitals|
      invariant Table(orbitals[..k], read) == Ok(dict)
    {
      TableNext(orbitals, read, k);
      var coefficients := GetCoefficients(text, orbitals[k], toFloat);
      assert read(orbitals[k]) == coefficients;
      if coefficients.Raised? {
        TableRaised(orbitals, read, k + 1);
        return Raised(coefficients.error);
      }
      dict := dict.Set(orbitals[k], coefficients.value);
    }
    assert orbitals[..|orbitals|] == orbitals;
    return Ok(dict);
  }

  /** `getOrbitalCoefficient(input)` succeeds exactly when the coefficients of every
      listed orbital can be read; its keys are the distinct orbitals in listing order,
      each holding `getCoefficients(input, orbital)`. */
  lemma {:induction false} OrbitalCoefficientsKeys(text: string, toFloat: FloatParser)
    ensures var os := OrbitalsOf(Lines(text));
            OrbitalCoefficients(text, toFloat).Ok? <==> forall o :: o in os ==> Coefficients(text, o, toFloat).Ok?
    ensures var os := OrbitalsOf(Lines(text));
            OrbitalCoefficients(text, toFloat).Ok? ==>
              var table := OrbitalCoefficients(text, toFloat).value;
              && table.order == Distinct(os)
              && forall o :: o in table.values ==> (Coefficients(text, o, toFloat).Ok?
                                                    && table.values[o] == Coefficients(text, o, toFloat).value)
  {
    var os := OrbitalsOf(Lines(text));
    var read := CoefficientReader(text, toFloat);
    TableOk(os, read);
    if OrbitalCoefficients(text, toFloat).Ok? {
      TableKeys(os, read);
    }
  }
}
