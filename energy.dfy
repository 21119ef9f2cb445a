/** The total energy (`getEnergy`): the numbers the pattern `[= -]\d+.\d+` finds on
    the second and third lines of the file, without the last one. */
module Energy {
  import opened Wrappers
  import opened PyText

  /** The characters the class `[= -]` accepts. */
  const Leads: set<char> := {'=', ' ', '-'}

  /** The length of the run of digits starting at `j`. */
  function DigitRun(s: string, j: nat): (n: nat)
    ensures j + n <= |s| || n == 0
    ensures forall k :: j <= k < j + n ==> IsDigit(s[k])
    ensures j + n < |s| ==> !IsDigit(s[j + n])
    decreases |s| - j
  {
    if j < |s| && IsDigit(s[j]) then 1 + DigitRun(s, j + 1) else 0
  }

  /** The backtracking of the first `\d+`: with its first `a` digits taken, `.` takes
      the next character and the second `\d+` all the digits after it; failing that,
      one digit fewer. The end of the match, if any. */
  function TryFirst(s: string, i: nat, a: nat): (r: Option<nat>)
    ensures r.Some? ==> i + 4 <= r.value <= |s|
  {
    if a == 0 then None
    else
      var dot := i + 1 + a;
      var b := DigitRun(s, dot + 1);
      if dot < |s| && b >= 1 then Some(dot + 1 + b) else TryFirst(s, i, a - 1)
  }

  /** The end of the match of `[= -]\d+.\d+` starting at `i`, if there is one. */
  function MatchAt(s: string, i: nat): (r: Option<nat>)
    ensures r.Some? ==> i + 4 <= r.value <= |s|
  {
    if i < |s| && s[i] in Leads then TryFirst(s, i, DigitRun(s, i + 1)) else None
  }

  /** `re.findall("[= -]\d+.\d+", s[i:])`: the matches, left to right, each search
      resuming after the previous match. */
  function FindAll(s: string, i: nat): seq<string>
    decreases |s| - i
  {
    if i >= |s| then []
    else
      match MatchAt(s, i)
      case Some(e) => [s[i..e]] + FindAll(s, e)
      case None => FindAll(s, i + 1)
  }

  /** A text the pattern matches: a leading `=`, space or minus, digits, one
      character, digits. */
  ghost predicate IsEnergyToken(m: string) {
    |m| >= 4 && m[0] in Leads && exists a :: SplitsAt(m, a)
  }

  /** `m` holds `a` digits after its lead character, then one character, then digits
      to its end. */
  predicate SplitsAt(m: string, a: int) {
    1 <= a && a + 2 < |m| && AllDigits(m[1..a + 1]) && AllDigits(m[a + 2..])
  }

  /** `getEnergy(input)`: the numbers found on the second and third lines joined,
      without the last one. */
  function EnergyOf(text: string, toFloat: FloatParser): (r: Result<seq<real>>) {
    var lines := Lines(text);
    if |lines| < 3 then Raised(IndexError)
    else
      var found := FindAll(lines[1] + lines[2], 0);
      Floats(toFloat, if found == [] then [] else found[..|found| - 1])
  }

  /** `n` digits from `j` followed by a non-digit, or by the end, are a run of `n`. */
  lemma {:induction false} DigitRunExact(s: string, j: nat, n: nat)
    requires j + n <= |s| && forall k :: j <= k < j + n ==> IsDigit(s[k])
    requires j + n == |s| || !IsDigit(s[j + n])
    ensures DigitRun(s, j) == n
    decreases n
  {
    if n > 0 {
      DigitRunExact(s, j + 1, n - 1);
    }
  }

  /** A lead character, `a` digits, one character and `b` digits make a token. */
  lemma {:induction false} TokenOfRuns(s: string, i: nat, a: nat, b: nat)
    requires i + 2 + a + b <= |s| && s[i] in Leads && a >= 1 && b >= 1
    requires forall k :: i + 1 <= k < i + 1 + a ==> IsDigit(s[k])
    requires forall k :: i + 2 + a <= k < i + 2 + a + b ==> IsDigit(s[k])
    ensures IsEnergyToken(s[i..i + 2 + a + b])
  {
    var m := s[i..i + 2 + a + b];
    var first, second := m[1..a + 1], m[a + 2..];
    forall k | 0 <= k < |first|
      ensures IsDigit(first[k])
    {
      assert first[k] == s[i + 1 + k];
    }
    forall k | 0 <= k < |second|
      ensures IsDigit(second[k])
    {
      assert second[k] == s[i + 2 + a + k];
    }
    assert SplitsAt(m, a);
  }

  /** What `TryFirst` matches has the shape the pattern describes. */
  lemma {:induction false} TryFirstShape(s: string, i: nat, a: nat)
    requires i < |s| && s[i] in Leads && a <= DigitRun(s, i + 1)
    requires TryFirst(s, i, a).Some?
    ensures IsEnergyToken(s[i..TryFirst(s, i, a).value])
  {
    var dot := i + 1 + a;
    var b := DigitRun(s, dot + 1);
    if dot < |s| && b >= 1 {
      TokenOfRuns(s, i, a, b);
    } else {
      TryFirstShape(s, i, a - 1);
    }
  }

  /** Every match has the shape the pattern describes. */
  lemma {:induction false} FindAllShape(s: string, i: nat)
    ensures forall k :: 0 <= k < |FindAll(s, i)| ==> IsEnergyToken(FindAll(s, i)[k])
    decreases |s| - i
  {
    if i < |s| {
      match MatchAt(s, i)
      case Some(e) =>
        TryFirstShape(s, i, DigitRun(s, i + 1));
        FindAllShape(s, e);
      case None =>
        FindAllShape(s, i + 1);
    }
  }

  /** The characters of an occurrence are those of the text found. */
  lemma {:induction false} OccursChars(s: string, sub: string, j: nat)
    requires OccursAt(s, sub, j)
    ensures forall k :: j <= k < j + |sub| ==> s[k] == sub[k - j]
  {
    forall k | j <= k < j + |sub|
      ensures s[k] == sub[k - j]
    {
      assert s[j..j + |sub|][k - j] == s[k];
    }
  }

  /** Digits found at `j` followed by a non-digit, or by the end, are a run. */
  lemma {:induction false} DigitRunOfOccurrence(s: string, ds: string, j: nat)
    requires AllDigits(ds) && OccursAt(s, ds, j)
    requires j + |ds| == |s| || !IsDigit(s[j + |ds|])
    ensures DigitRun(s, j) == |ds|
  {
    OccursChars(s, ds, j);
    DigitRunExact(s, j, |ds|);
  }

  /** An occurrence of `whole.frac` is one of `whole`, a dot, and one of `frac`. */
  lemma {:induction false} NumberParts(s: string, j: nat, whole: string, frac: string)
    requires OccursAt(s, whole + "." + frac, j)
    ensures OccursAt(s, whole, j) && s[j + |whole|] == '.' && OccursAt(s, frac, j + |whole| + 1)
  {
    var num := whole + "." + frac;
    var dot := j + |whole|;
    assert s[j..dot] == num[..|whole|] == whole;
    assert s[dot] == s[j..j + |num|][|whole|] == num[|whole|] == '.';
    assert s[dot + 1..dot + 1 + |frac|] == num[|whole| + 1..] == frac;
  }

  /** The match at `i` when the first run of digits is followed by one character and a
      second run. */
  lemma {:induction false} MatchOfRuns(s: string, i: nat, a: nat, b: nat)
    requires i < |s| && s[i] in Leads
    requires a >= 1 && DigitRun(s, i + 1) == a && i + 1 + a < |s|
    requires b >= 1 && DigitRun(s, i + 2 + a) == b
    ensures MatchAt(s, i) == Some(i + 2 + a + b)
  {
  }

  /** A number written `digits.digits` after a lead character, and not followed by a
      digit, is matched whole. */
  lemma {:induction false} MatchOfNumber(s: string, i: nat, whole: string, frac: string)
    requires whole != [] && frac != [] && AllDigits(whole) && AllDigits(frac)
    requires i < |s| && s[i] in Leads
    requires OccursAt(s, whole + "." + frac, i + 1)
    requires i + 2 + |whole| + |frac| == |s| || !IsDigit(s[i + 2 + |whole| + |frac|])
    ensures MatchAt(s, i) == Some(i + 2 + |whole| + |frac|)
  {
    NumberParts(s, i + 1, whole, frac);
    DigitRunOfOccurrence(s, whole, i + 1);
    DigitRunOfOccurrence(s, frac, i + 2 + |whole|);
    MatchOfRuns(s, i, |whole|, |frac|);
  }

  /** Positions where no match starts are skipped: the search resumes at the first
      position that starts one. */
  lemma {:induction false} FindAllSkips(s: string, i: nat, j: nat)
    requires i <= j
    requires forall k :: i <= k < j ==> MatchAt(s, k).None?
    ensures FindAll(s, i) == FindAll(s, j)
    decreases j - i
  {
    if i < j {
      FindAllSkips(s, i + 1, j);
    }
  }

  /** A number written `digits.digits` after a lead character, with no match starting
      between `i` and it, is the first match the search from `i` finds, and the search
      goes on right after it. */
  lemma {:induction false} FindAllFindsNumber(s: string, i: nat, j: nat, whole: string, frac: string)
    requires i <= j
    requires forall k :: i <= k < j ==> MatchAt(s, k).None?
    requires whole != [] && frac != [] && AllDigits(whole) && AllDigits(frac)
    requires j < |s| && s[j] in Leads
    requires OccursAt(s, whole + "." + frac, j + 1)
    requires j + 2 + |whole| + |frac| == |s| || !IsDigit(s[j + 2 + |whole| + |frac|])
    ensures FindAll(s, i) == [s[j..j + 2 + |whole| + |frac|]] + FindAll(s, j + 2 + |whole| + |frac|)
  {
    FindAllSkips(s, i, j);
    MatchOfNumber(s, j, whole, frac);
  }

  /** The energy is read exactly when the file has a third line and every match but
      the last is a float; it has one number per such match. */
  lemma {:induction false} EnergyShape(text: string, toFloat: FloatParser)
    ensures EnergyOf(text, toFloat) == Raised(IndexError) <==> |Lines(text)| < 3
    ensures EnergyOf(text, toFloat).Ok? ==>
              var lines := Lines(text);
              var found := FindAll(lines[1] + lines[2], 0);
              && |EnergyOf(text, toFloat).value| == (if found == [] then 0 else |found| - 1)
              && forall k :: 0 <= k < |EnergyOf(text, toFloat).value| ==>
                   IsEnergyToken(found[k]) && toFloat(found[k]) == Some(EnergyOf(text, toFloat).value[k])
  {
    var lines := Lines(text);
    if |lines| >= 3 {
      FindAllShape(lines[1] + lines[2], 0);
    }
  }
}
