/** The Python string operations the reader relies on: `split("\n")`, `split()`,
    `lstrip()`, `in`, `index`, `split(sep)`, slicing and `int()`. */
module PyText {
  import opened Wrappers

  /** The characters that `str.split()`, `str.lstrip()` and `str.strip()` skip: the
      ASCII whitespace and separators, and the Unicode spaces and line separators. */
  predicate IsSpace(c: char) {
    || c == ' ' || c == '\t' || c == '\n' || c == '\r' || c == '\U{0B}' || c == '\U{0C}'
    || ('\U{1C}' <= c <= '\U{1F}')
    || c == '\U{85}' || c == '\U{A0}' || c == '\U{1680}'
    || ('\U{2000}' <= c <= '\U{200A}')
    || c == '\U{2028}' || c == '\U{2029}' || c == '\U{202F}' || c == '\U{205F}' || c == '\U{3000}'
  }

  /** What `\d` matches, restricted to ASCII. */
  predicate IsDigit(c: char) {
    '0' <= c <= '9'
  }

  function DigitValue(c: char): (d: nat)
    requires IsDigit(c)
    ensures d < 10
  {
    (c as int) - ('0' as int)
  }

  predicate NoSpace(w: string) {
    forall i :: 0 <= i < |w| ==> !IsSpace(w[i])
  }

  predicate AllDigits(s: string) {
    forall i :: 0 <= i < |s| ==> IsDigit(s[i])
  }

  predicate StartsWith(s: string, prefix: string) {
    |prefix| <= |s| && s[..|prefix|] == prefix
  }

  // ---------------------------------------------------------------------------
  // text.split("\n")
  // ---------------------------------------------------------------------------

  /** The index of the first `c` in `s`. */
  function IndexOfChar(s: string, c: char): (k: nat)
    requires c in s
    ensures k < |s| && s[k] == c && c !in s[..k]
  {
    if s[0] == c then 0 else 1 + IndexOfChar(s[1..], c)
  }

  /** `text.split("\n")`: the pieces between newline characters, in order. */
  function Lines(text: string): (ls: seq<string>)
    ensures |ls| >= 1
    ensures forall i :: 0 <= i < |ls| ==> '\n' !in ls[i]
    decreases |text|
  {
    if '\n' !in text then [text]
    else
      var k := IndexOfChar(text, '\n');
      [text[..k]] + Lines(text[k + 1..])
  }

  /** `"\n".join(ls)`. */
  function JoinLines(ls: seq<string>): string
    requires |ls| >= 1
  {
    if |ls| == 1 then ls[0] else ls[0] + "\n" + JoinLines(ls[1..])
  }

  /** Joining the lines with newlines gives the text back. */
  lemma {:induction false} JoinLinesOfLines(text: string)
    ensures JoinLines(Lines(text)) == text
    decreases |text|
  {
    if '\n' in text {
      var k := IndexOfChar(text, '\n');
      var rest := text[k + 1..];
      assert Lines(text) == [text[..k]] + Lines(rest);
      assert Lines(text)[1..] == Lines(rest);
      JoinLinesOfLines(rest);
      assert text == text[..k] + "\n" + rest;
    }
  }

  /** Splitting newline-free lines joined by newlines gives the lines back. */
  /** A newline-free line, a newline and the rest split into the line and the lines
      of the rest. */
  lemma {:induction false} LinesCons(line: string, rest: string)
    requires '\n' !in line
    ensures Lines(line + "\n" + rest) == [line] + Lines(rest)
  {
    var text := line + "\n" + rest;
    assert text[|line|] == '\n' && text[..|line|] == line;
    assert IndexOfChar(text, '\n') == |line|;
    assert text[|line| + 1..] == rest;
  }

  lemma {:induction false} LinesOfJoinLines(ls: seq<string>)
    requires |ls| >= 1
    requires forall i :: 0 <= i < |ls| ==> '\n' !in ls[i]
    ensures Lines(JoinLines(ls)) == ls
  {
    if |ls| > 1 {
      LinesCons(ls[0], JoinLines(ls[1..]));
      LinesOfJoinLines(ls[1..]);
      assert ls == [ls[0]] + ls[1..];
    }
  }

  // ---------------------------------------------------------------------------
  // lstrip(), strip() and split()
  // ---------------------------------------------------------------------------

  /** The number of whitespace characters that start `s`. */
  function Indent(s: string): (k: nat)
    ensures k <= |s|
    ensures forall i :: 0 <= i < k ==> IsSpace(s[i])
    ensures k == |s| || !IsSpace(s[k])
  {
    if s != [] && IsSpace(s[0]) then 1 + Indent(s[1..]) else 0
  }

  /** The number of whitespace characters that end `s`. */
  function TrailingSpace(s: string): (k: nat)
    ensures k <= |s|
    ensures forall i :: |s| - k <= i < |s| ==> IsSpace(s[i])
    ensures k == |s| || !IsSpace(s[|s| - k - 1])
  {
    if s != [] && IsSpace(s[|s| - 1]) then 1 + TrailingSpace(s[..|s| - 1]) else 0
  }

  /** `s.lstrip()`: `s` without its leading whitespace. */
  function LStrip(s: string): (r: string)
    ensures r == [] || !IsSpace(r[0])
  {
    s[Indent(s)..]
  }

  /** `s.rstrip()`: `s` without its trailing whitespace. */
  function RStrip(s: string): (r: string)
    ensures r == [] || !IsSpace(r[|r| - 1])
  {
    s[..|s| - TrailingSpace(s)]
  }

  /** `s.strip()`. */
  function Strip(s: string): string {
    RStrip(LStrip(s))
  }

  /** Length of the run of non-whitespace characters that starts `s`. */
  function TokenLength(s: string): (n: nat)
    ensures n <= |s|
    ensures forall i :: 0 <= i < n ==> !IsSpace(s[i])
    ensures n == |s| || IsSpace(s[n])
  {
    if s == [] || IsSpace(s[0]) then 0 else 1 + TokenLength(s[1..])
  }

  /** `s.split()`: the maximal runs of non-whitespace characters, in order. */
  function Words(s: string): (ws: seq<string>)
    ensures forall i :: 0 <= i < |ws| ==> ws[i] != [] && NoSpace(ws[i])
    decreases |s|
  {
    var k := Indent(s);
    if k == |s| then []
    else
      var n := TokenLength(s[k..]);
      [s[k..k + n]] + Words(s[k + n..])
  }

  /** `xs[1:]`: everything after the first entry. */
  function Tail<T>(xs: seq<T>): (r: seq<T>)
    ensures xs != [] ==> |r| == |xs| - 1
  {
    if xs == [] then [] else xs[1..]
  }

  /** A line holding any non-whitespace character has at least one word. */
  lemma {:induction false} WordsOfNonBlank(s: string, i: nat)
    requires i < |s| && !IsSpace(s[i])
    ensures Words(s) != []
  {
    assert Indent(s) <= i;
  }

  /** The first word of a line is the run of non-whitespace after its indentation. */
  lemma {:induction false} FirstWord(s: string)
    requires LStrip(s) != []
    ensures Words(s) != []
    ensures Words(s)[0] == LStrip(s)[..TokenLength(LStrip(s))]
  {
  }

  // ---------------------------------------------------------------------------
  // `sub in s`, `s.index(sub)`, `s.split(sep)[1]`, slices, re.sub on a class
  // ---------------------------------------------------------------------------

  predicate OccursAt(s: string, sub: string, j: nat) {
    j + |sub| <= |s| && s[j..j + |sub|] == sub
  }

  lemma {:induction false} OccursShift(s: string, sub: string)
    requires s != []
    ensures forall j :: 1 <= j ==> (OccursAt(s, sub, j) <==> OccursAt(s[1..], sub, j - 1))
  {
    forall j | 1 <= j
      ensures OccursAt(s, sub, j) <==> OccursAt(s[1..], sub, j - 1)
    {
      if j + |sub| <= |s| {
        assert s[j..j + |sub|] == s[1..][j - 1..j - 1 + |sub|];
      }
    }
  }

  /** `s.find(sub)`: where the first occurrence of `sub` starts, if there is one. */
  function Find(s: string, sub: string): (r: Option<nat>)
    ensures r.Some? ==> OccursAt(s, sub, r.value)
    ensures r.Some? ==> forall j :: 0 <= j < r.value ==> !OccursAt(s, sub, j)
    ensures r.None? ==> forall j :: 0 <= j ==> !OccursAt(s, sub, j)
    decreases |s|
  {
    if |s| < |sub| then None
    else if s[..|sub|] == sub then Some(0)
    else
      OccursShift(s, sub);
      match Find(s[1..], sub)
      case None => None
      case Some(i) => Some(i + 1)
  }

  /** `sub in s`. */
  predicate Contains(s: string, sub: string)
    decreases |s|
  {
    |sub| <= |s| && (s[..|sub|] == sub || Contains(s[1..], sub))
  }

  /** `sub` occurs nowhere in `s`. */
  predicate Absent(s: string, sub: string) {
    forall j :: 0 <= j <= |s| ==> !OccursAt(s, sub, j)
  }

  /** `sub in s` exactly when `s.find(sub)` finds it. */
  lemma {:induction false} ContainsFind(s: string, sub: string)
    ensures Contains(s, sub) <==> Find(s, sub).Some?
    decreases |s|
  {
    if |sub| <= |s| && s[..|sub|] != sub {
      ContainsFind(s[1..], sub);
    }
  }

  /** `s.split(sep)[1]`: the text after the first `sep`, up to the next `sep` or the end. */
  function SplitSecond(s: string, sep: string): (r: string)
    requires sep != [] && Find(s, sep).Some?
    ensures var rest := s[Find(s, sep).value + |sep|..];
            StartsWith(rest, r) && (|r| == |rest| || OccursAt(rest, sep, |r|))
    ensures forall j :: 0 <= j ==> !OccursAt(r, sep, j)
  {
    var rest := s[Find(s, sep).value + |sep|..];
    match Find(rest, sep)
    case None => rest
    case Some(j) =>
      assert forall i :: 0 <= i ==> OccursAt(rest[..j], sep, i) ==> OccursAt(rest, sep, i) by {
        forall i | 0 <= i && OccursAt(rest[..j], sep, i) ensures OccursAt(rest, sep, i) {
          assert rest[..j][i..i + |sep|] == rest[i..i + |sep|];
        }
      }
      rest[..j]
  }

  /** `s[i:j]` for non-negative `i` and `j`: out-of-range bounds are clamped. */
  function Slice(s: string, i: nat, j: nat): (r: string)
    ensures i + 1 == j && j <= |s| ==> r == [s[i]]
    ensures |s| <= i ==> r == []
  {
    var lo := if i < |s| then i else |s|;
    var hi := if j < |s| then j else |s|;
    if hi <= lo then [] else s[lo..hi]
  }

  /** `re.sub("[...]", "", s)`: `s` without the characters of `drop`. */
  function RemoveChars(s: string, drop: set<char>): (r: string)
    ensures forall i :: 0 <= i < |r| ==> r[i] !in drop
    ensures |r| <= |s|
  {
    if s == [] then []
    else (if s[0] in drop then [] else [s[0]]) + RemoveChars(s[1..], drop)
  }

  lemma {:induction false} RemoveCharsAppend(a: string, b: string, drop: set<char>)
    ensures RemoveChars(a + b, drop) == RemoveChars(a, drop) + RemoveChars(b, drop)
  {
    if a == [] {
      assert a + b == b;
    } else {
      assert (a + b)[0] == a[0];
      assert (a + b)[1..] == a[1..] + b;
      RemoveCharsAppend(a[1..], b, drop);
    }
  }

  /** `re.sub` keeps exactly the characters outside the class. */
  lemma {:induction false} RemoveCharsIn(s: string, drop: set<char>)
    ensures forall c :: c in RemoveChars(s, drop) <==> c in s && c !in drop
  {
    if s != [] {
      RemoveCharsIn(s[1..], drop);
      assert forall c :: c in s <==> c == s[0] || c in s[1..];
    }
  }

  /** Python list indexing `xs[i]`, where a negative `i` counts from the end. */
  function PyIndex<T>(xs: seq<T>, i: int): (r: Result<T>)
    ensures r.Ok? <==> -|xs| <= i < |xs|
    ensures 0 <= i < |xs| ==> r == Ok(xs[i])
    ensures -|xs| <= i < 0 ==> r == Ok(xs[|xs| + i])
  {
    if 0 <= i < |xs| then Ok(xs[i])
    else if -|xs| <= i < 0 then Ok(xs[|xs| + i])
    else Raised(IndexError)
  }

  // ---------------------------------------------------------------------------
  // float() and int()
  // ---------------------------------------------------------------------------

  /** `float(token)`, which the model does not define: it is supplied by the caller,
      `None` standing for the ValueError Python raises. */
  type FloatParser = string -> Option<real>

  function Float(toFloat: FloatParser, token: string): (r: Result<real>)
    ensures r.Ok? <==> toFloat(token).Some?
    ensures r.Ok? ==> r.value == toFloat(token).value
    ensures r.Raised? ==> r.error == ValueError
  {
    match toFloat(token)
    case None => Raised(ValueError)
    case Some(x) => Ok(x)
  }

  /** `[float(x) for x in tokens]`: every token converted, or the ValueError of the
      first one that is not a float. */
  function Floats(toFloat: FloatParser, tokens: seq<string>): (r: Result<seq<real>>)
    ensures r.Ok? <==> forall i :: 0 <= i < |tokens| ==> toFloat(tokens[i]).Some?
    ensures r.Ok? ==> |r.value| == |tokens|
                      && forall i :: 0 <= i < |tokens| ==> toFloat(tokens[i]) == Some(r.value[i])
    ensures r.Raised? ==> r.error == ValueError
  {
    if tokens == [] then Ok([])
    else
      var x :- Float(toFloat, tokens[0]);
      var rest :- Floats(toFloat, tokens[1..]);
      Ok([x] + rest)
  }

  // ---------------------------------------------------------------------------

  /** The number an unsigned decimal numeral denotes. */
  function DigitsValue(ds: string): nat
    requires AllDigits(ds)
  {
    if ds == [] then 0 else 10 * DigitsValue(ds[..|ds| - 1]) + DigitValue(ds[|ds| - 1])
  }

  /** `int(s)` on a str: optional surrounding whitespace, an optional sign, then one or
      more ASCII digits; anything else is rejected (Python raises ValueError). */
  function PyInt(s: string): Option<int> {
    var t := Strip(s);
    var signed := t != [] && (t[0] == '+' || t[0] == '-');
    var ds := if signed then t[1..] else t;
    if ds == [] || !AllDigits(ds) then None
    else
      var v: int := DigitsValue(ds);
      if signed && t[0] == '-' then Some(-v) else Some(v)
  }

  /** The decimal numeral `str(n)` for a natural number. */
  function NatStr(n: nat): (ds: string)
    ensures ds != [] && AllDigits(ds)
  {
    var d := ['0' + ((n % 10) as char)];
    if n < 10 then d else NatStr(n / 10) + d
  }

  lemma {:induction false} DigitsValueOfNatStr(n: nat)
    ensures DigitsValue(NatStr(n)) == n
  {
    var d := ['0' + ((n % 10) as char)];
    if n >= 10 {
      var ds := NatStr(n / 10) + d;
      assert ds[..|ds| - 1] == NatStr(n / 10);
      DigitsValueOfNatStr(n / 10);
    }
  }

  lemma {:induction false} StripOfWord(w: string)
    requires w != [] && !IsSpace(w[0]) && !IsSpace(w[|w| - 1])
    ensures Strip(w) == w
  {
  }

  /** int() reads a run of digits at its decimal value. */
  lemma {:induction false} IntOfDigits(ds: string)
    requires ds != [] && AllDigits(ds)
    ensures PyInt(ds) == Some(DigitsValue(ds))
  {
    StripOfWord(ds);
  }

  /** int() rejects a word that holds a character other than a digit past its first
      character (a sign may only come first). */
  lemma {:induction false} IntOfNonDigits(w: string, k: nat)
    requires w != [] && NoSpace(w) && 0 < k < |w| && !IsDigit(w[k])
    ensures PyInt(w) == None
  {
    StripOfWord(w);
    if w[0] == '+' || w[0] == '-' {
      assert w[1..][k - 1] == w[k];
    }
  }

  /** int() of one character accepts exactly the digits, at their value. */
  lemma {:induction false} IntOfChar(c: char)
    ensures IsDigit(c) ==> PyInt([c]) == Some(DigitValue(c))
    ensures !IsDigit(c) ==> PyInt([c]) == None
  {
    var s := [c];
    if !IsSpace(c) {
      StripOfWord(s);
      if IsDigit(c) {
        assert s[..0] == [];
        assert DigitsValue(s) == DigitValue(c);
      }
    } else {
      assert LStrip(s) == LStrip(s[1..]) == [];
    }
  }
}
