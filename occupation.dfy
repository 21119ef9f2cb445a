/** The occupation numbers of the orbitals (`getNumberOfElectronsPerOrbital`), read
    from the electron configuration on the first line, e.g. `K(2)L(8)3S(2)3P(6)4S(1)`. */
module Occupation {
  import opened Wrappers
  import opened PyText
  import opened PyDict

  /** `[str(x) + "S" for x in range(1,8)] + [... "P" ... range(2,8)]
      + [... "D" ... range(3,8)] + [... "F" ... range(4,8)]`. */
  const OrbitalNames: seq<string> :=
    [ "1S", "2S", "3S", "4S", "5S", "6S", "7S",
      "2P", "3P", "4P", "5P", "6P", "7P",
      "3D", "4D", "5D", "6D", "7D",
      "4F", "5F", "6F", "7F" ]

  /** The first principal number of a subshell letter: 1S, 2P, 3D, 4F. */
  function LowestLevel(letter: char): nat {
    if letter == 'S' then 1 else if letter == 'P' then 2 else if letter == 'D' then 3 else 4
  }

  /** Where the orbitals of a subshell letter start in `OrbitalNames`. */
  function Offset(letter: char): nat {
    if letter == 'S' then 0 else if letter == 'P' then 7 else if letter == 'D' then 13 else 18
  }

  /** An orbital name: a digit, then a subshell letter. */
  predicate IsOrbitalName(o: string) {
    |o| == 2 && IsDigit(o[0]) && o[1] in "SPDF"
  }

  /** The principal number of an orbital name. */
  function Level(o: string): nat {
    if IsOrbitalName(o) then DigitValue(o[0]) else 0
  }

  /** The place of an orbital in the order 1S..7S, 2P..7P, 3D..7D, 4F..7F. */
  function OrbitalRank(o: string): int {
    if IsOrbitalName(o) then Offset(o[1]) + Level(o) - LowestLevel(o[1]) else -1
  }

  /** Each listed name is an orbital name whose rank is its place in the list; so the
      names are distinct. */
  lemma {:induction false} OrbitalNamesRanked()
    ensures |OrbitalNames| == 22
    ensures forall i :: 0 <= i < |OrbitalNames| ==>
              && IsOrbitalName(OrbitalNames[i])
              && LowestLevel(OrbitalNames[i][1]) <= Level(OrbitalNames[i]) <= 7
              && OrbitalRank(OrbitalNames[i]) == i
    ensures forall i, j :: 0 <= i < j < |OrbitalNames| ==> OrbitalNames[i] != OrbitalNames[j]
  {
    forall i | 0 <= i < |OrbitalNames|
      ensures && IsOrbitalName(OrbitalNames[i])
              && LowestLevel(OrbitalNames[i][1]) <= Level(OrbitalNames[i]) <= 7
              && OrbitalRank(OrbitalNames[i]) == i
    {
      var o := OrbitalNames[i];
      if i < 7 {
        assert o == [(('1' as int) + i) as char, 'S'];
      } else if i < 13 {
        assert o == [(('2' as int) + i - 7) as char, 'P'];
      } else if i < 18 {
        assert o == [(('3' as int) + i - 13) as char, 'D'];
      } else {
        assert o == [(('4' as int) + i - 18) as char, 'F'];
      }
    }
  }

  /** Every orbital is listed once. */
  lemma {:induction false} OrbitalNamesDistinct()
    ensures forall i, j :: 0 <= i < j < |OrbitalNames| ==> OrbitalNames[i] != OrbitalNames[j]
  {
    OrbitalNamesRanked();
  }

  // ---------------------------------------------------------------------------
  // Closed shells K, L, M, N
  // ---------------------------------------------------------------------------

  /** The shell letters, K for principal number 1 up to N for 4. */
  const ShellLetters: string := "KLMN"

  /** The electrons a full subshell holds: 2, 6, 10, 14 for S, P, D, F. */
  function Capacity(letter: char): int {
    if letter == 'S' then 2 else if letter == 'P' then 6 else if letter == 'D' then 10 else 14
  }

  /** The entries the branch for a shell letter sets when the letter occurs in the
      configuration. The dict already holds every orbital, so setting one keeps the
      order of the keys (see `SetKeepsOrder`) and only the values are tracked. */
  function FillShell(m: map<string, int>, shell: char): map<string, int> {
    if shell == 'K' then m["1S" := 2]
    else if shell == 'L' then m["2S" := 2]["2P" := 6]
    else if shell == 'M' then m["3S" := 2]["3P" := 6]["3D" := 10]
    else if shell == 'N' then m["4S" := 2]["4P" := 6]["4D" := 10]["4F" := 14]
    else m
  }

  /** The loop `for x in shells: if x in config: ...` over the shell letters `shells`. */
  function Prefill(config: string, m: map<string, int>, shells: string): (m': map<string, int>)
    ensures OnOrbitals(m) ==> OnOrbitals(m')
  {
    if shells == [] then m
    else
      var m1 := Prefill(config, m, shells[..|shells| - 1]);
      var x := shells[|shells| - 1];
      if Contains(config, [x]) then
        FillShellKeys(m1, x); FillShell(m1, x)
      else m1
  }

  /** What the closed shells give an orbital: a full subshell when the letter of its
      shell occurs in the configuration, else nothing. */
  function ShellValue(config: string, o: string): int {
    if 1 <= Level(o) <= 4 && Contains(config, [ShellLetters[Level(o) - 1]]) then Capacity(o[1]) else 0
  }

  lemma {:induction false} NameChars(o: string, d: char, letter: char)
    requires |o| == 2
    ensures o == [d, letter] <==> o[0] == d && o[1] == letter
  {
  }

  /** Every orbital has an entry. */
  ghost predicate OnOrbitals(m: map<string, int>) {
    forall o :: o in m <==> o in OrbitalNames
  }

  /** The dict `myDic` once every orbital has an entry: its keys in the order of
      `OrbitalNames`. */
  function OrbitalDict(m: map<string, int>): (d: Dict<string, int>)
    requires OnOrbitals(m)
    ensures d.Valid() && d.order == OrbitalNames && d.values == m
  {
    OrbitalNamesRanked();
    Dict(OrbitalNames, m)
  }

  /** Setting a key the dict already holds leaves the order of its keys alone. */
  lemma {:induction false} SetKeepsOrder(m: map<string, int>, o: string, v: int)
    requires OnOrbitals(m) && o in OrbitalNames
    ensures OnOrbitals(m[o := v]) && OrbitalDict(m).Set(o, v) == OrbitalDict(m[o := v])
  {
  }

  /** The principal number of an orbital name is its first digit. */
  lemma {:induction false} LevelChars(o: string, n: nat)
    requires IsOrbitalName(o) && n < 10
    ensures Level(o) == n <==> o[0] == ('0' as int + n) as char
  {
  }

  /** The branch for a shell letter only sets orbitals the dict already holds. */
  lemma {:induction false} FillShellKeys(m: map<string, int>, shell: char)
    ensures OnOrbitals(m) ==> OnOrbitals(FillShell(m, shell))
  {
    assert OrbitalNames[0] == "1S" && OrbitalNames[1] == "2S" && OrbitalNames[2] == "3S" && OrbitalNames[3] == "4S";
    assert OrbitalNames[7] == "2P" && OrbitalNames[8] == "3P" && OrbitalNames[9] == "4P";
    assert OrbitalNames[13] == "3D" && OrbitalNames[14] == "4D" && OrbitalNames[18] == "4F";
  }

  /** The branch for a shell letter sets exactly the subshells of that shell, each to
      its capacity. */
  lemma {:induction false} FillShellValue(m: map<string, int>, shell: char, o: string)
    requires IsOrbitalName(o) && LowestLevel(o[1]) <= Level(o) && o in m
    ensures var k := if shell == 'K' then 1 else if shell == 'L' then 2 else if shell == 'M' then 3
                     else if shell == 'N' then 4 else 0;
            && o in FillShell(m, shell)
            && FillShell(m, shell)[o] == if k != 0 && Level(o) == k then Capacity(o[1]) else m[o]
  {
    if shell == 'K' {
      LevelChars(o, 1);
      NameChars(o, '1', 'S');
    } else if shell == 'L' {
      LevelChars(o, 2);
      NameChars(o, '2', 'S');
      NameChars(o, '2', 'P');
    } else if shell == 'M' {
      LevelChars(o, 3);
      NameChars(o, '3', 'S');
      NameChars(o, '3', 'P');
      NameChars(o, '3', 'D');
    } else if shell == 'N' {
      LevelChars(o, 4);
      NameChars(o, '4', 'S');
      NameChars(o, '4', 'P');
      NameChars(o, '4', 'D');
      NameChars(o, '4', 'F');
    }
  }

  /** `{o: 0 for o in OrbitalNames}`: the values once the first loop has run. */
  const ZeroTable: map<string, int> := map o | o in OrbitalNames :: 0

  /** The closed shells of the configuration set each of their subshells to its
      capacity, and leave every other orbital as it was. */
  lemma {:induction false} PrefillValue(config: string, m: map<string, int>, n: nat, o: string)
    requires n <= |ShellLetters| && OnOrbitals(m)
    requires IsOrbitalName(o) && LowestLevel(o[1]) <= Level(o) && o in m
    ensures Prefill(config, m, ShellLetters[..n])[o]
            == if 1 <= Level(o) <= n && Contains(config, [ShellLetters[Level(o) - 1]]) then Capacity(o[1]) else m[o]
  {
    if n > 0 {
      PrefillValue(config, m, n - 1, o);
      PrefillNext(config, m, n - 1);
      var m1 := Prefill(config, m, ShellLetters[..n - 1]);
      var x := ShellLetters[n - 1];
      if Contains(config, [x]) {
        FillShellValue(m1, x, o);
        assert x == if n == 1 then 'K' else if n == 2 then 'L' else if n == 3 then 'M' else 'N';
      }
    }
  }

  /** After the loop over K, L, M, N every orbital holds what its closed shell gives it. */
  lemma {:induction false} Prefilled(config: string)
    ensures OnOrbitals(Prefill(config, ZeroTable, ShellLetters))
    ensures forall o :: o in OrbitalNames ==> Prefill(config, ZeroTable, ShellLetters)[o] == ShellValue(config, o)
  {
    OrbitalNamesRanked();
    assert ShellLetters[..|ShellLetters|] == ShellLetters;
    forall o | o in OrbitalNames
      ensures Prefill(config, ZeroTable, ShellLetters)[o] == ShellValue(config, o)
    {
      PrefillValue(config, ZeroTable, |ShellLetters|, o);
    }
  }

  // ---------------------------------------------------------------------------
  // Reading an explicit occupation
  // ---------------------------------------------------------------------------

  /** `int(s)`, raising ValueError on text that is not an integer. */
  function ToInt(s: string): (r: Result<int>)
    ensures r.Raised? ==> r.error == ValueError
  {
    match PyInt(s)
    case None => Raised(ValueError)
    case Some(v) => Ok(v)
  }

  /** The characters of the class `[(){}<>,]`. */
  const Brackets: set<char> := {'(', ')', '{', '}', '<', '>', ','}

  /** An S or P orbital: `int(config[index + 3:index + 4])`, the one character two
      places after the orbital's first occurrence, as in `4S(2)`. */
  function ReadDigit(config: string, orb: string): Result<int> {
    match Find(config, orb)
    case None => Raised(ValueError)
    case Some(i) => ToInt(Slice(config, i + 3, i + 4))
  }

  /** A D or F orbital as written: `int(re.sub('[(){}<>,]', "", config.split(orb)[1]))`,
      the whole text after the orbital's first occurrence, up to its next occurrence,
      without brackets and commas. */
  function ReadRemainder(config: string, orb: string): Result<int> {
    if orb == [] then Raised(ValueError)
    else
      match Find(config, orb)
      case None => Raised(ValueError)
      case Some(_) => ToInt(RemoveChars(SplitSecond(config, orb), Brackets))
  }

  /** The characters that end a bracketed count. */
  const Closers: set<char> := {')', '}', '>', ','}

  /** The text before the first closing bracket or comma. */
  function UpToClose(s: string): (r: string)
    ensures StartsWith(s, r)
    ensures forall i :: 0 <= i < |r| ==> r[i] !in Closers
  {
    if s == [] || s[0] in Closers then [] else [s[0]] + UpToClose(s[1..])
  }

  /** A D or F orbital, corrected: the count in the brackets right after the orbital's
      first occurrence, without brackets. */
  function ReadBracketed(config: string, orb: string): Result<int> {
    match Find(config, orb)
    case None => Raised(ValueError)
    case Some(i) => ToInt(RemoveChars(UpToClose(config[i + |orb|..]), Brackets))
  }

  /** Whether an orbital's count is read as a D or F count. */
  predicate IsDF(orb: string) {
    |orb| >= 2 && (orb[1] == 'D' || orb[1] == 'F')
  }

  /** The explicit occupation of an orbital as the code reads it. */
  function ReadAsWritten(config: string, orb: string): Result<int> {
    if IsDF(orb) then ReadRemainder(config, orb) else ReadDigit(config, orb)
  }

  /** The explicit occupation of an orbital with the corrected D/F reading. */
  function ReadCorrected(config: string, orb: string): Result<int> {
    if IsDF(orb) then ReadBracketed(config, orb) else ReadDigit(config, orb)
  }

  /** A text lacking one of the characters of `sub` does not contain `sub`. */
  lemma {:induction false} AbsentOfChar(s: string, sub: string, k: nat)
    requires k < |sub| && sub[k] !in s
    ensures Absent(s, sub)
  {
    forall j | 0 <= j <= |s|
      ensures !OccursAt(s, sub, j)
    {
      if j + |sub| <= |s| {
        assert s[j..j + |sub|][k] == s[j + k];
        assert s[j + k] in s;
      }
    }
  }

  /** `config` written as `prefix + orb + rest` where `prefix` does not contain the
      orbital: the orbital first occurs right after `prefix`. Earlier orbitals of the
      same letter (`4S` before `5S`) do not matter. */
  lemma {:induction false} FindAfter(prefix: string, orb: string, rest: string)
    requires IsOrbitalName(orb) && Absent(prefix, orb)
    ensures Find(prefix + orb + rest, orb) == Some(|prefix|)
  {
    var config := prefix + orb + rest;
    assert config[|prefix|..|prefix| + 2] == orb;
    assert OccursAt(config, orb, |prefix|);
    forall j | 0 <= j < |prefix|
      ensures !OccursAt(config, orb, j)
    {
      if j + 2 <= |prefix| {
        assert config[j..j + 2] == prefix[j..j + 2];
        assert !OccursAt(prefix, orb, j);
      } else {
        assert config[j + 1] == orb[0] != orb[1];
      }
    }
  }

  lemma {:induction false} NoBracketsKept(s: string)
    requires AllDigits(s)
    ensures RemoveChars(s, Brackets) == s
  {
    if s != [] {
      NoBracketsKept(s[1..]);
    }
  }

  /** The corrected reading gets back the digits written in brackets after a D or F
      orbital, whatever follows. */
  lemma {:induction false} ReadBracketedDigits(prefix: string, orb: string, ds: string, suffix: string)
    requires IsOrbitalName(orb) && Absent(prefix, orb)
    requires ds != [] && AllDigits(ds)
    ensures ReadBracketed(prefix + orb + "(" + ds + ")" + suffix, orb) == Ok(DigitsValue(ds))
  {
    var rest := "(" + ds + ")" + suffix;
    assert prefix + orb + "(" + ds + ")" + suffix == prefix + orb + rest;
    FindAfter(prefix, orb, rest);
    var config := prefix + orb + rest;
    assert config[|prefix| + |orb|..] == rest;
    UpToCloseOfCount(ds, suffix);
    assert RemoveChars("(" + ds, Brackets) == RemoveChars(ds, Brackets) by {
      assert ("(" + ds)[1..] == ds;
    }
    NoBracketsKept(ds);
    IntOfDigits(ds);
  }

  /** The corrected reading gets back every count `str(n)` written in brackets. */
  lemma {:induction false} ReadBracketedCount(prefix: string, orb: string, n: nat, suffix: string)
    requires IsOrbitalName(orb) && Absent(prefix, orb)
    ensures ReadBracketed(prefix + orb + "(" + NatStr(n) + ")" + suffix, orb) == Ok(n)
  {
    ReadBracketedDigits(prefix, orb, NatStr(n), suffix);
    DigitsValueOfNatStr(n);
  }

  lemma {:induction false} UpToCloseOfCount(ds: string, suffix: string)
    requires AllDigits(ds)
    ensures UpToClose("(" + ds + ")" + suffix) == "(" + ds
  {
    DigitsBeforeClose(ds, ")" + suffix);
    var s := "(" + ds + ")" + suffix;
    assert s[1..] == ds + (")" + suffix);
  }

  lemma {:induction false} DigitsBeforeClose(ds: string, t: string)
    requires AllDigits(ds) && t != [] && t[0] in Closers
    ensures UpToClose(ds + t) == ds
  {
    if ds == [] {
      assert ds + t == t;
    } else {
      assert (ds + t)[1..] == ds[1..] + t;
      DigitsBeforeClose(ds[1..], t);
    }
  }

  /** The code's reading of a D or F count runs on past the closing bracket: it takes
      everything after the orbital, so the counts and names of the orbitals that follow
      become part of the number. */
  lemma {:induction false} ReadRemainderRunsOn(prefix: string, orb: string, rest: string)
    requires IsOrbitalName(orb) && Absent(prefix, orb) && Absent(rest, orb)
    ensures ReadRemainder(prefix + orb + rest, orb) == ToInt(RemoveChars(rest, Brackets))
  {
    FindAfter(prefix, orb, rest);
    var config := prefix + orb + rest;
    assert config[|prefix| + |orb|..] == rest;
  }

  /** An orbital that is not in `suffix` is not in `(ds)suffix` either. */
  lemma {:induction false} OrbitalNotInCount(orb: string, ds: string, suffix: string)
    requires IsOrbitalName(orb) && AllDigits(ds) && Absent(suffix, orb)
    ensures Absent("(" + ds + ")" + suffix, orb)
  {
    var rest := "(" + ds + ")" + suffix;
    forall k | 0 <= k <= |rest|
      ensures !OccursAt(rest, orb, k)
    {
      if k + 2 <= |rest| {
        if k + 1 <= |ds| {
          assert rest[k..k + 2][1] == rest[k + 1] == ds[k];
        } else if k <= |ds| + 1 {
          assert rest[k..k + 2][1 - (k - |ds|)] == rest[|ds| + 1] == ')';
        } else {
          var i := k - |ds| - 2;
          assert rest[k..k + 2] == suffix[i..i + 2];
          assert !OccursAt(suffix, orb, i);
        }
      }
    }
  }

  /** Dropping the brackets from `(ds)suffix` leaves the digits followed by what is
      left of `suffix`. */
  lemma {:induction false} RemoveBracketsOfCount(ds: string, suffix: string)
    requires AllDigits(ds)
    ensures RemoveChars("(" + ds + ")" + suffix, Brackets) == ds + RemoveChars(suffix, Brackets)
  {
    RemoveBracketsOfDigits(ds);
    RemoveCharsAppend("(" + ds + ")", suffix, Brackets);
  }

  lemma {:induction false} RemoveBracketsOfDigits(ds: string)
    requires AllDigits(ds)
    ensures RemoveChars("(" + ds + ")", Brackets) == ds
  {
    var open := "(" + ds;
    assert RemoveChars(open, Brackets) == ds by {
      assert open[1..] == ds;
      NoBracketsKept(ds);
    }
    assert RemoveChars(")", Brackets) == [] by {
      assert ")"[1..] == [];
    }
    RemoveCharsAppend(open, ")", Brackets);
  }

  lemma {:induction false} NoSpaceAppend(a: string, b: string)
    requires NoSpace(a) && NoSpace(b)
    ensures NoSpace(a + b)
  {
    forall i | 0 <= i < |a + b|
      ensures !IsSpace((a + b)[i])
    {
      if i < |a| {
        assert (a + b)[i] == a[i];
      } else {
        assert (a + b)[i] == b[i - |a|];
      }
    }
  }

  /** What is left of a word without brackets is a word, and keeps the word's
      characters other than brackets. */
  lemma {:induction false} KeptNonDigit(suffix: string, k: nat) returns (j: nat)
    requires NoSpace(suffix) && k < |suffix| && suffix[k] !in Brackets && !IsDigit(suffix[k])
    ensures NoSpace(RemoveChars(suffix, Brackets))
    ensures j < |RemoveChars(suffix, Brackets)| && !IsDigit(RemoveChars(suffix, Brackets)[j])
  {
    var kept := RemoveChars(suffix, Brackets);
    RemoveCharsIn(suffix, Brackets);
    forall i | 0 <= i < |kept|
      ensures !IsSpace(kept[i])
    {
      assert kept[i] in suffix;
    }
    assert suffix[k] in kept;
    j :| 0 <= j < |kept| && kept[j] == suffix[k];
  }

  /** As written, a D or F count reads the digits of its brackets joined with what is
      left of the rest of the configuration once brackets are dropped. */
  lemma {:induction false} ReadRemainderOfCount(prefix: string, orb: string, ds: string, suffix: string)
    requires IsOrbitalName(orb) && IsDF(orb) && Absent(prefix, orb) && Absent(suffix, orb)
    requires AllDigits(ds)
    ensures ReadAsWritten(prefix + orb + "(" + ds + ")" + suffix, orb)
            == ToInt(ds + RemoveChars(suffix, Brackets))
  {
    var rest := "(" + ds + ")" + suffix;
    assert prefix + orb + "(" + ds + ")" + suffix == prefix + orb + rest;
    OrbitalNotInCount(orb, ds, suffix);
    ReadRemainderRunsOn(prefix, orb, rest);
    RemoveBracketsOfCount(ds, suffix);
  }

  /** Digits joined with a word that keeps a character other than a digit or a
      bracket are not a number. */
  lemma {:induction false} JoinedNotInt(ds: string, suffix: string, k: nat)
    requires ds != [] && AllDigits(ds) && NoSpace(suffix)
    requires k < |suffix| && suffix[k] !in Brackets && !IsDigit(suffix[k])
    ensures PyInt(ds + RemoveChars(suffix, Brackets)) == None
  {
    var kept := RemoveChars(suffix, Brackets);
    var j := KeptNonDigit(suffix, k);
    var w := ds + kept;
    assert w[|ds| + j] == kept[j];
    NoSpaceAppend(ds, kept);
    IntOfNonDigits(w, |ds| + j);
  }

  /** The code's reading of a D or F count fails whenever the orbital's bracketed
      count is followed by anything but digits and brackets, such as the next orbital:
      the joined text is not a number and int() raises ValueError. */
  lemma {:induction false} ReadRemainderFails(prefix: string, orb: string, ds: string, suffix: string, k: nat)
    requires IsOrbitalName(orb) && IsDF(orb) && Absent(prefix, orb) && Absent(suffix, orb)
    requires ds != [] && AllDigits(ds) && NoSpace(suffix)
    requires k < |suffix| && suffix[k] !in Brackets && !IsDigit(suffix[k])
    ensures ReadAsWritten(prefix + orb + "(" + ds + ")" + suffix, orb) == Raised(ValueError)
  {
    ReadRemainderOfCount(prefix, orb, ds, suffix);
    JoinedNotInt(ds, suffix, k);
  }

  /** The configuration of xenon, whose 4D count the code cannot read. */
  const XenonConfig: string := "K(2)L(8)M(18)4S(2)4P(6)5S(2)4D(10)5P(6)"

  /** What precedes the 4D orbital in the xenon configuration. */
  const XenonPrefix: string := "K(2)L(8)M(18)4S(2)4P(6)5S(2)"

  lemma {:induction false} XenonParts()
    ensures XenonConfig == XenonPrefix + "4D" + "(" + "10" + ")" + "5P(6)"
    ensures IsOrbitalName("4D") && IsDF("4D") && Absent(XenonPrefix, "4D") && Absent("5P(6)", "4D")
    ensures AllDigits("10") && DigitsValue("10") == 10
    ensures NoSpace("5P(6)") && "5P(6)"[1] == 'P'
  {
    assert "10"[..1] == "1";
    AbsentOfChar(XenonPrefix, "4D", 1);
    AbsentOfChar("5P(6)", "4D", 1);
  }

  /** On xenon the code's D/F reading takes `(10)5P(6)`, makes it `105P6` and int()
      raises ValueError. */
  lemma {:induction false} XenonAsWritten()
    ensures ReadAsWritten(XenonConfig, "4D") == Raised(ValueError)
  {
    XenonParts();
    ReadRemainderFails(XenonPrefix, "4D", "10", "5P(6)", 1);
  }

  /** On xenon the corrected reading gives the 10 electrons of the 4D subshell. */
  lemma {:induction false} XenonCorrected()
    ensures ReadCorrected(XenonConfig, "4D") == Ok(10)
  {
    XenonParts();
    ReadBracketedDigits(XenonPrefix, "4D", "10", "5P(6)");
  }

  /** In the xenon configuration 5S comes after 4S; its count is still the digit in
      its own brackets, with either reading. */
  lemma {:induction false} XenonFiveS()
    ensures ReadCorrected(XenonConfig, "5S") == Ok(2)
    ensures ReadAsWritten(XenonConfig, "5S") == Ok(2)
  {
    var prefix := "K(2)L(8)M(18)4S(2)4P(6)";
    assert XenonConfig == prefix + "5S" + "(" + ['2'] + ")" + "4D(10)5P(6)";
    AbsentOfChar(prefix, "5S", 0);
    ReadDigitOfCount(prefix, "5S", '2', "4D(10)5P(6)");
  }

  /** A configuration writing 4D after 3D. */
  const DAfterDConfig: string := "3D(10)4D(10)5P(6)"

  lemma {:induction false} DAfterDParts()
    ensures DAfterDConfig == "3D(10)" + "4D" + "(" + "10" + ")" + "5P(6)"
    ensures Absent("3D(10)", "4D") && Absent("5P(6)", "4D")
    ensures AllDigits("10") && DigitsValue("10") == 10
    ensures NoSpace("5P(6)") && "5P(6)"[1] == 'P'
  {
    assert "10"[..1] == "1";
    AbsentOfChar("3D(10)", "4D", 0);
    AbsentOfChar("5P(6)", "4D", 1);
  }

  /** A 4D written after 3D: the corrected reading gets its 10 electrons back. */
  lemma {:induction false} FourDAfterThreeDCorrected()
    ensures ReadCorrected(DAfterDConfig, "4D") == Ok(10)
  {
    DAfterDParts();
    ReadBracketedDigits("3D(10)", "4D", "10", "5P(6)");
  }

  /** A 4D written after 3D: the code as written raises ValueError on it, as on the
      first D orbital. */
  lemma {:induction false} FourDAfterThreeDAsWritten()
    ensures ReadAsWritten(DAfterDConfig, "4D") == Raised(ValueError)
  {
    DAfterDParts();
    ReadRemainderFails("3D(10)", "4D", "10", "5P(6)", 1);
  }

  /** The reading of an S or P count gets back the digit written in brackets after the
      orbital. */
  lemma {:induction false} ReadDigitOfCount(prefix: string, orb: string, d: char, suffix: string)
    requires IsOrbitalName(orb) && !IsDF(orb) && Absent(prefix, orb) && IsDigit(d)
    ensures ReadCorrected(prefix + orb + "(" + [d] + ")" + suffix, orb) == Ok(DigitValue(d))
    ensures ReadAsWritten(prefix + orb + "(" + [d] + ")" + suffix, orb) == Ok(DigitValue(d))
  {
    var rest := "(" + [d] + ")" + suffix;
    assert prefix + orb + "(" + [d] + ")" + suffix == prefix + orb + rest;
    FindAfter(prefix, orb, rest);
    var config := prefix + orb + rest;
    assert config[|prefix| + 3] == d;
    assert DigitsValue([d]) == DigitValue(d) by {
      assert [d][..0] == [];
    }
    IntOfDigits([d]);
  }

  // ---------------------------------------------------------------------------
  // The occupation dict
  // ---------------------------------------------------------------------------

  /** The loop `for x in names: if x in config: myDic[x] = read(config, x)` on the
      values of `myDic`, or the first exception a reading raises. */
  function Explicit(config: string, m: map<string, int>, names: seq<string>,
                    read: (string, string) -> Result<int>): (r: Result<map<string, int>>)
    ensures r.Ok? ==> r.value.Keys == m.Keys + set x | x in names && Contains(config, x)
  {
    if names == [] then Ok(m)
    else
      var m1 :- Explicit(config, m, names[..|names| - 1], read);
      var x := names[|names| - 1];
      assert forall y :: y in names <==> y in names[..|names| - 1] || y == x;
      if Contains(config, x) then
        var v :- read(config, x);
        Ok(m1[x := v])
      else Ok(m1)
  }

  lemma {:induction false} ExplicitNext(config: string, m: map<string, int>, names: seq<string>,
                     read: (string, string) -> Result<int>, n: nat)
    requires n < |names|
    ensures Explicit(config, m, names[..n + 1], read)
         == (var m1 :- Explicit(config, m, names[..n], read);
             if Contains(config, names[n]) then
               var v :- read(config, names[n]); Ok(m1[names[n] := v])
             else Ok(m1))
  {
    assert names[..n + 1][..n] == names[..n];
  }

  /** Once a reading has raised, the remaining orbitals change nothing. */
  lemma {:induction false} ExplicitRaised(config: string, m: map<string, int>, names: seq<string>,
                                          read: (string, string) -> Result<int>, n: nat)
    requires n <= |names| && Explicit(config, m, names[..n], read).Raised?
    ensures Explicit(config, m, names, read) == Explicit(config, m, names[..n], read)
    decreases |names|
  {
    if n == |names| {
      assert names[..n] == names;
    } else {
      var init := names[..|names| - 1];
      assert init[..n] == names[..n];
      ExplicitRaised(config, m, init, read, n);
    }
  }

  /** Every orbital of `names` that occurs in the configuration can be read. */
  predicate ReadsOk(config: string, names: seq<string>, read: (string, string) -> Result<int>) {
    forall i :: 0 <= i < |names| && Contains(config, names[i]) ==> read(config, names[i]).Ok?
  }

  /** The loop completes exactly when every orbital it finds can be read. */
  lemma {:induction false} ExplicitOk(config: string, m: map<string, int>, names: seq<string>,
                                      read: (string, string) -> Result<int>)
    ensures Explicit(config, m, names, read).Ok? <==> ReadsOk(config, names, read)
    decreases |names|
  {
    if names != [] {
      var init := names[..|names| - 1];
      ExplicitOk(config, m, init, read);
      assert forall i :: 0 <= i < |init| ==> init[i] == names[i];
      if ReadsOk(config, init, read) {
        var x := names[|names| - 1];
        if Contains(config, x) && read(config, x).Raised? {
          assert !ReadsOk(config, names, read);
        }
      }
    }
  }

  /** Each orbital of `names` found in the configuration holds what reading it gives;
      every other entry keeps its value. */
  lemma {:induction false} ExplicitValue(config: string, m: map<string, int>, names: seq<string>,
                                         read: (string, string) -> Result<int>, o: string)
    requires Explicit(config, m, names, read).Ok?
    requires o in Explicit(config, m, names, read).value
    ensures o in names && Contains(config, o) ==> read(config, o).Ok?
    ensures Explicit(config, m, names, read).value[o]
            == if o in names && Contains(config, o) then read(config, o).value else m[o]
    decreases |names|
  {
    if names != [] {
      var init := names[..|names| - 1];
      var x := names[|names| - 1];
      assert forall y :: y in names <==> y in init || y == x;
      var m1 := Explicit(config, m, init, read).value;
      if o != x || !Contains(config, x) {
        ExplicitValue(config, m, init, read, o);
      }
    }
  }

  /** The comprehension's filter `if value != 0`. */
  function NonZero(v: int): Option<int> {
    if v != 0 then Some(v) else None
  }

  /** The values of `myDic` before the explicit counts: zero, then the closed shells. */
  function ShellTable(config: string): (m: map<string, int>)
    ensures OnOrbitals(m)
  {
    Prefilled(config);
    Prefill(config, ZeroTable, ShellLetters)
  }

  /** `getNumberOfElectronsPerOrbital` on the configuration `config`, with `read`
      reading the explicit count of an orbital. */
  function OccupationsWith(config: string, read: (string, string) -> Result<int>): Result<Dict<string, int>> {
    var m :- Explicit(config, ShellTable(config), OrbitalNames, read);
    Ok(OrbitalDict(m).FilterMap(NonZero))
  }

  /** The occupation of one orbital: its explicit count when the orbital is written in
      the configuration, else what its closed shell gives it. */
  function Occupancy(config: string, o: string, read: (string, string) -> Result<int>): Result<int> {
    if Contains(config, o) then read(config, o) else Ok(ShellValue(config, o))
  }

  /** The dict is built exactly when every orbital written in the configuration can
      be read. */
  lemma {:induction false} OccupationsOk(config: string, read: (string, string) -> Result<int>)
    ensures OccupationsWith(config, read).Ok?
            <==> forall o :: o in OrbitalNames && Contains(config, o) ==> read(config, o).Ok?
  {
    ExplicitOk(config, ShellTable(config), OrbitalNames, read);
    if forall o :: o in OrbitalNames && Contains(config, o) ==> read(config, o).Ok? {
      assert ReadsOk(config, OrbitalNames, read);
    }
    if ReadsOk(config, OrbitalNames, read) {
      forall o | o in OrbitalNames && Contains(config, o)
        ensures read(config, o).Ok?
      {
        var i :| 0 <= i < |OrbitalNames| && OrbitalNames[i] == o;
      }
    }
  }

  /** After the explicit loop every orbital holds its occupation. */
  lemma {:induction false} ExplicitOccupancy(config: string, read: (string, string) -> Result<int>)
    requires Explicit(config, ShellTable(config), OrbitalNames, read).Ok?
    ensures var m := Explicit(config, ShellTable(config), OrbitalNames, read).value;
            && OnOrbitals(m)
            && forall o :: o in OrbitalNames ==> Occupancy(config, o, read) == Ok(m[o])
  {
    var m0 := ShellTable(config);
    var m := Explicit(config, m0, OrbitalNames, read).value;
    Prefilled(config);
    forall o | o in OrbitalNames
      ensures Occupancy(config, o, read) == Ok(m[o])
    {
      ExplicitValue(config, m0, OrbitalNames, read, o);
    }
  }

  /** A built dict holds exactly the orbitals whose occupation is not zero, each with
      its occupation. */
  lemma {:induction false} OccupationsKeys(config: string, read: (string, string) -> Result<int>)
    requires OccupationsWith(config, read).Ok?
    ensures var d := OccupationsWith(config, read).value;
            && d.Valid()
            && (forall o :: o in d.values <==> o in OrbitalNames && Occupancy(config, o, read) != Ok(0))
            && (forall o :: o in d.values ==> Occupancy(config, o, read) == Ok(d.values[o]))
  {
    var m := Explicit(config, ShellTable(config), OrbitalNames, read).value;
    ExplicitOccupancy(config, read);
    var d := OrbitalDict(m).FilterMap(NonZero);
    assert OccupationsWith(config, read) == Ok(d);
    assert forall o :: o in d.values <==> o in OrbitalNames && m[o] != 0;
  }

  /** The keys of a built dict come in the order 1S..7S, 2P..7P, 3D..7D, 4F..7F. */
  lemma {:induction false} OccupationsOrdered(config: string, read: (string, string) -> Result<int>)
    requires OccupationsWith(config, read).Ok?
    ensures var d := OccupationsWith(config, read).value;
            forall i, j :: 0 <= i < j < |d.order| ==> OrbitalRank(d.order[i]) < OrbitalRank(d.order[j])
  {
    var m := Explicit(config, ShellTable(config), OrbitalNames, read).value;
    OrbitalNamesRanked();
    KeysWhereOrdered(OrbitalNames, m, NonZero, OrbitalRank);
  }

  /** `input.split("\n")[0].split()[1]`: the configuration, the second word of the
      first line. */
  function Config(text: string): Result<string> {
    PyIndex(Words(Lines(text)[0]), 1)
  }

  /** `getNumberOfElectronsPerOrbital(input)`, with D and F counts read from their
      brackets (see `ReadBracketed`). */
  function Occupations(text: string): Result<Dict<string, int>> {
    var config :- Config(text);
    OccupationsWith(config, ReadCorrected)
  }

  /** `getNumberOfElectronsPerOrbital(input)` as the code reads D and F counts. */
  function OccupationsAsWritten(text: string): Result<Dict<string, int>> {
    var config :- Config(text);
    OccupationsWith(config, ReadAsWritten)
  }

  /** The orbitals the closed-shell branches set. */
  lemma {:induction false} ShellNamesListed()
    ensures "1S" in OrbitalNames && "2S" in OrbitalNames && "3S" in OrbitalNames && "4S" in OrbitalNames
    ensures "2P" in OrbitalNames && "3P" in OrbitalNames && "4P" in OrbitalNames
    ensures "3D" in OrbitalNames && "4D" in OrbitalNames && "4F" in OrbitalNames
  {
    assert OrbitalNames[0] == "1S" && OrbitalNames[1] == "2S" && OrbitalNames[2] == "3S" && OrbitalNames[3] == "4S";
    assert OrbitalNames[7] == "2P" && OrbitalNames[8] == "3P" && OrbitalNames[9] == "4P";
    assert OrbitalNames[13] == "3D" && OrbitalNames[14] == "4D" && OrbitalNames[18] == "4F";
  }

  lemma {:induction false} PrefillNext(config: string, m: map<string, int>, n: nat)
    requires n < |ShellLetters|
    ensures Prefill(config, m, ShellLetters[..n + 1])
         == (var m1 := Prefill(config, m, ShellLetters[..n]);
             if Contains(config, [ShellLetters[n]]) then FillShell(m1, ShellLetters[n]) else m1)
  {
    assert ShellLetters[..n + 1][..n] == ShellLetters[..n];
  }

  /** The first loop of `getNumberOfElectronsPerOrbital`: every orbital set to zero,
      in the order of `OrbitalNames`. */
  method ZeroOrbitals() returns (myDic: Dict<string, int>)
    ensures myDic == OrbitalDict(ZeroTable)
  {
    OrbitalNamesDistinct();
    myDic := Dict([], map[]);
    assert myDic == FromKeys(OrbitalNames[..0], 0);
    for k := 0 to |OrbitalNames|
      invariant myDic == FromKeys(OrbitalNames[..k], 0)
    {
      FromKeysNext(OrbitalNames, 0, k);
      myDic := myDic.Set(OrbitalNames[k], 0);
    }
    assert OrbitalNames[..|OrbitalNames|] == OrbitalNames;
  }

  /** The branch of the second loop for the shell letter `x`. */
  method FillShellOf(myDic: Dict<string, int>, x: char, ghost m: map<string, int>) returns (d: Dict<string, int>)
    requires OnOrbitals(m) && myDic == OrbitalDict(m)
    ensures OnOrbitals(FillShell(m, x)) && d == OrbitalDict(FillShell(m, x))
  {
    ShellNamesListed();
    FillShellKeys(m, x);
    d := myDic;
    ghost var m' := m;
    if x == 'K' {
      SetKeepsOrder(m', "1S", 2);
      d, m' := d.Set("1S", 2), m'["1S" := 2];
    } else if x == 'L' {
      SetKeepsOrder(m', "2S", 2);
      d, m' := d.Set("2S", 2), m'["2S" := 2];
      SetKeepsOrder(m', "2P", 6);
      d, m' := d.Set("2P", 6), m'["2P" := 6];
    } else if x == 'M' {
      SetKeepsOrder(m', "3S", 2);
      d, m' := d.Set("3S", 2), m'["3S" := 2];
      SetKeepsOrder(m', "3P", 6);
      d, m' := d.Set("3P", 6), m'["3P" := 6];
      SetKeepsOrder(m', "3D", 10);
      d, m' := d.Set("3D", 10), m'["3D" := 10];
    } else if x == 'N' {
      SetKeepsOrder(m', "4S", 2);
      d, m' := d.Set("4S", 2), m'["4S" := 2];
      SetKeepsOrder(m', "4P", 6);
      d, m' := d.Set("4P", 6), m'["4P" := 6];
      SetKeepsOrder(m', "4D", 10);
      d, m' := d.Set("4D", 10), m'["4D" := 10];
      SetKeepsOrder(m', "4F", 14);
      d, m' := d.Set("4F", 14), m'["4F" := 14];
    }
  }

  /** The second loop: the subshells of every closed shell whose letter occurs in the
      configuration set to their capacities. */
  method FillClosedShells(config: string, myDic: Dict<string, int>) returns (d: Dict<string, int>)
    requires myDic == OrbitalDict(ZeroTable)
    ensures d == OrbitalDict(ShellTable(config))
  {
    d := myDic;
    ghost var m := ZeroTable;
    for s := 0 to |ShellLetters|
      invariant OnOrbitals(m) && m == Prefill(config, ZeroTable, ShellLetters[..s])
      invariant d == OrbitalDict(m)
    {
      PrefillNext(config, ZeroTable, s);
      var x := ShellLetters[s];
      if Contains(config, [x]) {
        d := FillShellOf(d, x, m);
        m := FillShell(m, x);
      }
    }
    assert ShellLetters[..|ShellLetters|] == ShellLetters;
  }

  /** The corrected reading of an orbital found at `index`. */
  lemma {:induction false} ReadBracketedAt(config: string, x: string, index: nat)
    requires |x| == 2 && Find(config, x) == Some(index)
    ensures ReadBracketed(config, x) == ToInt(RemoveChars(UpToClose(config[index + 2..]), Brackets))
  {
  }

  lemma {:induction false} ReadDigitAt(config: string, x: string, index: nat)
    requires Find(config, x) == Some(index)
    ensures ReadDigit(config, x) == ToInt(Slice(config, index + 3, index + 4))
  {
  }

  /** One step of the third loop: `int(...)` on the count after the orbital found at
      `index`, the D/F reading corrected. */
  method ReadCount(config: string, x: string) returns (count: Result<int>, orbital: string)
    requires IsOrbitalName(x) && Contains(config, x)
    ensures orbital == x && count == ReadCorrected(config, x)
  {
    ContainsFind(config, x);
    var found := Find(config, x);
    var index := found.value;
    orbital := config[index..index + 2];
    assert orbital == x;
    if orbital[1] == 'D' || orbital[1] == 'F' {
      count := ToInt(RemoveChars(UpToClose(config[index + 2..]), Brackets));
      ReadBracketedAt(config, x, index);
    } else {
      count := ToInt(Slice(config, index + 3, index + 4));
      ReadDigitAt(config, x, index);
    }
  }

  /** The third loop: every orbital written in the configuration set to its count. */
  method FillExplicit(config: string, myDic: Dict<string, int>) returns (r: Result<Dict<string, int>>)
    requires myDic == OrbitalDict(ShellTable(config))
    ensures r == (var m :- Explicit(config, ShellTable(config), OrbitalNames, ReadCorrected); Ok(OrbitalDict(m)))
  {
    OrbitalNamesRanked();
    var d := myDic;
    ghost var pre := ShellTable(config);
    ghost var m := pre;
    for k := 0 to |OrbitalNames|
      invariant OnOrbitals(m) && Explicit(config, pre, OrbitalNames[..k], ReadCorrected) == Ok(m)
      invariant d == OrbitalDict(m)
    {
      ExplicitNext(config, pre, OrbitalNames, ReadCorrected, k);
      var x := OrbitalNames[k];
      if Contains(config, x) {
        var count, orbital := ReadCount(config, x);
        if count.Raised? {
          ExplicitRaised(config, pre, OrbitalNames, ReadCorrected, k + 1);
          return Raised(count.error);
        }
        SetKeepsOrder(m, orbital, count.value);
        d, m := d.Set(orbital, count.value), m[orbital := count.value];
      }
    }
    assert OrbitalNames[..|OrbitalNames|] == OrbitalNames;
    return Ok(d);
  }

  /** `getNumberOfElectronsPerOrbital(input)`: the three loops over `myDic`, then the
      comprehension dropping the zero entries. */
  method GetNumberOfElectronsPerOrbital(text: string) returns (r: Result<Dict<string, int>>)
    ensures r == Occupations(text)
  {
    var words := Words(Lines(text)[0]);
    if |words| < 2 {
      return Raised(IndexError);
    }
    var config := words[1];
    var myDic := ZeroOrbitals();
    myDic := FillClosedShells(config, myDic);
    var filled := FillExplicit(config, myDic);
    if filled.Raised? {
      return Raised(filled.error);
    }
    return Ok(filled.value.FilterMap(NonZero));
  }

  /** On xenon the code as written raises ValueError for the whole dict. */
  lemma {:induction false} XenonOccupationsAsWritten()
    ensures OccupationsWith(XenonConfig, ReadAsWritten).Raised?
  {
    XenonParts();
    var rest := "(" + "10" + ")" + "5P(6)";
    assert XenonConfig == XenonPrefix + "4D" + rest;
    FindAfter(XenonPrefix, "4D", rest);
    ContainsFind(XenonConfig, "4D");
    XenonAsWritten();
    ShellNamesListed();
    OccupationsOk(XenonConfig, ReadAsWritten);
  }
}
