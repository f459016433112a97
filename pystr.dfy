/** The Python string built-ins the core relies on (`str.split()`, `str.join`,
    `str.strip`, `str.replace`, `str.lower`, decimal rendering of integers), as
    functions over `seq<char>`, with the facts about them the rest of the model
    uses. */
module PyStr {

  /** `str.isspace()`, which is also the class `\s` of a `str` regular
      expression: the same fixed set of code points in both. */
  predicate IsSpace(c: char) {
    || c == ' ' || ('\t' <= c <= '\r') || ('\U{1C}' <= c <= '\U{1F}')
    || c == '\U{85}' || c == '\U{A0}' || c == '\U{1680}'
    || ('\U{2000}' <= c <= '\U{200A}') || c == '\U{2028}' || c == '\U{2029}'
    || c == '\U{202F}' || c == '\U{205F}' || c == '\U{3000}'
  }

  /** The regular-expression class `\d`, restricted to ASCII digits. */
  predicate IsDigit(c: char) {
    '0' <= c <= '9'
  }

  /** The regular-expression class `\w`, restricted to ASCII. */
  predicate IsWordChar(c: char) {
    IsDigit(c) || ('a' <= c <= 'z') || ('A' <= c <= 'Z') || c == '_'
  }

  /** ASCII case folding, as `re.IGNORECASE` and `str.lower()` apply it to ASCII text. */
  function Lower(c: char): char {
    if 'A' <= c <= 'Z' then (c as int + 32) as char else c
  }

  function LowerStr(s: string): (r: string)
    ensures |r| == |s| && forall i :: 0 <= i < |s| ==> r[i] == Lower(s[i])
  {
    if s == [] then [] else [Lower(s[0])] + LowerStr(s[1..])
  }

  predicate AllDigits(s: string) {
    forall i :: 0 <= i < |s| ==> IsDigit(s[i])
  }

  predicate NoSpace(s: string) {
    forall i :: 0 <= i < |s| ==> !IsSpace(s[i])
  }

  /** What `str.split()` returns: a non-empty run of non-whitespace characters. */
  predicate IsWord(w: string) {
    w != [] && NoSpace(w)
  }

  predicate AllWords(ws: seq<string>) {
    forall i :: 0 <= i < |ws| ==> IsWord(ws[i])
  }

  predicate StartsWith(s: string, p: string) {
    |p| <= |s| && s[..|p|] == p
  }

  /** `s` starts with `p` when both are compared under ASCII case folding. */
  predicate CiStartsWith(s: string, p: string) {
    |p| <= |s| && forall i :: 0 <= i < |p| ==> Lower(s[i]) == Lower(p[i])
  }

  predicate EndsWith(s: string, p: string) {
    |p| <= |s| && s[|s| - |p|..] == p
  }

  /** `p in s` for strings. */
  predicate Contains(s: string, p: string) {
    StartsWith(s, p) || (s != [] && Contains(s[1..], p))
  }

  /** Length of the longest prefix of `s` made of whitespace. */
  function SpaceCount(s: string): (n: nat)
    ensures n <= |s|
    ensures n == |s| || !IsSpace(s[n])
  {
    if s != [] && IsSpace(s[0]) then 1 + SpaceCount(s[1..]) else 0
  }

  /** Length of the longest prefix of `s` made of ASCII digits. */
  function DigitCount(s: string): (n: nat)
    ensures n <= |s|
    ensures n == |s| || !IsDigit(s[n])
  {
    if s != [] && IsDigit(s[0]) then 1 + DigitCount(s[1..]) else 0
  }

  /** Length of the longest prefix of `s` made of non-whitespace characters. */
  function WordLen(s: string): (n: nat)
    ensures n <= |s|
    ensures n == |s| || IsSpace(s[n])
    ensures s != [] && !IsSpace(s[0]) ==> n > 0
  {
    if s != [] && !IsSpace(s[0]) then 1 + WordLen(s[1..]) else 0
  }

  /** `s.split()` with no argument: the maximal runs of non-whitespace, in order. */
  function Words(s: string): seq<string>
    decreases |s|
  {
    var t := s[SpaceCount(s)..];
    if t == [] then []
    else
      var n := WordLen(t);
      [t[..n]] + Words(t[n..])
  }

  lemma {:induction false} SpaceCountSpaces(s: string)
    ensures forall i :: 0 <= i < SpaceCount(s) ==> IsSpace(s[i])
    decreases |s|
  {
    if s != [] && IsSpace(s[0]) {
      SpaceCountSpaces(s[1..]);
      assert forall i :: 1 <= i < |s| ==> s[1..][i - 1] == s[i];
    }
  }

  lemma {:induction false} DigitCountDigits(s: string)
    ensures forall i :: 0 <= i < DigitCount(s) ==> IsDigit(s[i])
    decreases |s|
  {
    if s != [] && IsDigit(s[0]) {
      DigitCountDigits(s[1..]);
      assert forall i :: 1 <= i < |s| ==> s[1..][i - 1] == s[i];
    }
  }

  lemma {:induction false} WordLenNoSpace(s: string)
    ensures NoSpace(s[..WordLen(s)])
    decreases |s|
  {
    if s != [] && !IsSpace(s[0]) {
      WordLenNoSpace(s[1..]);
      assert forall i :: 1 <= i < WordLen(s) ==> s[..WordLen(s)][i] == s[1..][..WordLen(s[1..])][i - 1];
    }
  }

  /** Every item `str.split()` returns is a word. */
  lemma {:induction false} WordsAreWords(s: string)
    ensures AllWords(Words(s))
    decreases |s|
  {
    var t := s[SpaceCount(s)..];
    if t != [] {
      var n := WordLen(t);
      WordLenNoSpace(t);
      WordsAreWords(t[n..]);
      AllWordsCons(t[..n], Words(t[n..]));
    }
  }

  lemma AllWordsCons(w: string, ws: seq<string>)
    requires IsWord(w) && AllWords(ws)
    ensures AllWords([w] + ws)
  {
    var xs := [w] + ws;
    forall i | 1 <= i < |xs| ensures xs[i] == ws[i - 1] { }
  }

  /** `sep.join(xs)`. */
  function Join(sep: string, xs: seq<string>): string {
    if xs == [] then []
    else if |xs| == 1 then xs[0]
    else xs[0] + sep + Join(sep, xs[1..])
  }

  /** The longest run of digits at the start of `v`. */
  function LeadingDigits(v: string): (w: string)
    ensures AllDigits(w) && |w| <= |v| && w == v[..|w|]
  {
    DigitCountDigits(v);
    v[..DigitCount(v)]
  }

  /** Length of the longest prefix of `s` whose characters satisfy `keep`. */
  function RunLen(s: string, keep: char -> bool): (n: nat)
    ensures n <= |s|
    ensures n == |s| || !keep(s[n])
  {
    if s != [] && keep(s[0]) then 1 + RunLen(s[1..], keep) else 0
  }

  lemma {:induction false} RunLenKeeps(s: string, keep: char -> bool)
    ensures forall i :: 0 <= i < RunLen(s, keep) ==> keep(s[i])
  {
    if s != [] && keep(s[0]) {
      RunLenKeeps(s[1..], keep);
      assert forall i :: 1 <= i < RunLen(s, keep) ==> s[1..][i - 1] == s[i];
    }
  }

  /** `s.lstrip(chars)`, with the stripped set given as a predicate. */
  function LStripBy(s: string, drop: char -> bool): string
    decreases |s|
  {
    if s != [] && drop(s[0]) then LStripBy(s[1..], drop) else s
  }

  /** `s.rstrip(chars)`, with the stripped set given as a predicate. */
  function RStripBy(s: string, drop: char -> bool): string
    decreases |s|
  {
    if s != [] && drop(s[|s| - 1]) then RStripBy(s[..|s| - 1], drop) else s
  }

  /** `lstrip` removes the longest prefix of dropped characters and nothing else. */
  lemma {:induction false} LStripByShape(s: string, drop: char -> bool)
    ensures var r := LStripBy(s, drop);
      && |r| <= |s| && r == s[|s| - |r|..]
      && (r == [] || !drop(r[0]))
      && (forall i :: 0 <= i < |s| - |r| ==> drop(s[i]))
    decreases |s|
  {
    if s != [] && drop(s[0]) {
      LStripByShape(s[1..], drop);
      assert forall i :: 1 <= i < |s| ==> s[1..][i - 1] == s[i];
    }
  }

  /** `rstrip` removes the longest suffix of dropped characters and nothing else. */
  lemma {:induction false} RStripByShape(s: string, drop: char -> bool)
    ensures var r := RStripBy(s, drop);
      && |r| <= |s| && r == s[..|r|]
      && (r == [] || !drop(r[|r| - 1]))
      && (forall i :: |r| <= i < |s| ==> drop(s[i]))
    decreases |s|
  {
    if s != [] && drop(s[|s| - 1]) {
      RStripByShape(s[..|s| - 1], drop);
    }
  }

  /** `s.strip(chars)`. */
  function StripBy(s: string, drop: char -> bool): string {
    RStripBy(LStripBy(s, drop), drop)
  }

  /** `s.strip()`: whitespace removed from both ends. */
  function Strip(s: string): string {
    StripBy(s, IsSpace)
  }

  /** `s.split(sep)` for a one-character separator, generalised to a class of
      separator characters as `re.split('[...]', s)` uses it. */
  function SplitWhere(s: string, isSep: char -> bool): (parts: seq<string>)
    ensures |parts| >= 1
    ensures forall i, j :: 0 <= i < |parts| && 0 <= j < |parts[i]| ==> !isSep(parts[i][j])
  {
    if s == [] then [[]]
    else
      var rest := SplitWhere(s[1..], isSep);
      if isSep(s[0]) then [[]] + rest
      else [[s[0]] + rest[0]] + rest[1..]
  }

  /** `s.split(c)`: the pieces between the occurrences of `c`. */
  function SplitOn(s: string, c: char): (parts: seq<string>)
    ensures |parts| >= 1
    ensures forall i :: 0 <= i < |parts| ==> c !in parts[i]
  {
    if s == [] then [[]]
    else
      var rest := SplitOn(s[1..], c);
      if s[0] == c then [[]] + rest
      else [[s[0]] + rest[0]] + rest[1..]
  }

  /** `s.replace(pat, rep)`: non-overlapping occurrences, scanning left to right. */
  function Replace(s: string, pat: string, rep: string): string
    requires pat != []
    decreases |s|
  {
    if s == [] then []
    else if StartsWith(s, pat) then rep + Replace(s[|pat|..], pat, rep)
    else [s[0]] + Replace(s[1..], pat, rep)
  }

  function DigitChar(d: nat): (c: char)
    requires d < 10
    ensures IsDigit(c)
  {
    ('0' as int + d) as char
  }

  /** `str(n)` for a non-negative integer. */
  function NatToString(n: nat): (s: string)
    ensures s != [] && AllDigits(s)
  {
    if n < 10 then [DigitChar(n)] else NatToString(n / 10) + [DigitChar(n % 10)]
  }

  /** `str(i)` for any integer. */
  function IntToString(i: int): string {
    if i < 0 then "-" + NatToString(-i) else NatToString(i)
  }

  /** The value of a string of ASCII digits (`int(s)` for such a string). */
  function DigitsValue(s: string): nat
    requires AllDigits(s)
  {
    if s == [] then 0 else DigitsValue(s[..|s| - 1]) * 10 + (s[|s| - 1] as int - '0' as int)
  }

  // ---------------------------------------------------------------------
  // Facts about these built-ins
  // ---------------------------------------------------------------------

  /** A digit string followed by something other than a digit is exactly the
      leading digit run. */
  lemma {:induction false} DigitCountConcat(x: string, y: string)
    requires AllDigits(x) && (y == [] || !IsDigit(y[0]))
    ensures DigitCount(x + y) == |x|
    decreases |x|
  {
    if x != [] {
      assert (x + y)[1..] == x[1..] + y;
      DigitCountConcat(x[1..], y);
    }
  }

  lemma LeadingDigitsConcat(x: string, y: string)
    requires AllDigits(x) && (y == [] || !IsDigit(y[0]))
    ensures LeadingDigits(x + y) == x
  {
    DigitCountConcat(x, y);
    assert (x + y)[..|x|] == x;
  }

  /** A run of kept characters followed by one that is not kept is exactly
      the leading run. */
  lemma {:induction false} RunLenConcat(x: string, y: string, keep: char -> bool)
    requires (forall i :: 0 <= i < |x| ==> keep(x[i])) && (y == [] || !keep(y[0]))
    ensures RunLen(x + y, keep) == |x|
    decreases |x|
  {
    if x != [] {
      assert (x + y)[1..] == x[1..] + y;
      RunLenConcat(x[1..], y, keep);
    }
  }

  /** A string without the separator is one piece. */
  lemma {:induction false} SplitOnNone(x: string, c: char)
    requires c !in x
    ensures SplitOn(x, c) == [x]
  {
    if x != [] {
      SplitOnNone(x[1..], c);
      assert [x[0]] + x[1..] == x;
    }
  }

  /** The first piece ends at the first separator; the rest is split alike. */
  lemma {:induction false} SplitOnCons(x: string, c: char, y: string)
    requires c !in x
    ensures SplitOn(x + [c] + y, c) == [x] + SplitOn(y, c)
  {
    if x == [] {
      assert x + [c] + y == [c] + y;
      assert ([c] + y)[1..] == y;
    } else {
      assert (x + [c] + y)[1..] == x[1..] + [c] + y;
      SplitOnCons(x[1..], c, y);
      assert [x[0]] + x[1..] == x;
    }
  }

  /** Distinct numbers render as distinct decimal strings. */
  lemma {:induction false} NatToStringInjective(a: nat, b: nat)
    requires NatToString(a) == NatToString(b)
    ensures a == b
  {
    if a >= 10 && b >= 10 {
      var sa, sb := NatToString(a / 10), NatToString(b / 10);
      assert sa + [DigitChar(a % 10)] == sb + [DigitChar(b % 10)];
      assert |sa| == |sb|;
      assert sa == (sa + [DigitChar(a % 10)])[..|sa|];
      assert sb == (sb + [DigitChar(b % 10)])[..|sb|];
      NatToStringInjective(a / 10, b / 10);
      assert DigitChar(a % 10) == (sa + [DigitChar(a % 10)])[|sa|];
      assert DigitChar(b % 10) == (sb + [DigitChar(b % 10)])[|sb|];
    }
  }

  /** Reading back the decimal rendering of a number gives the number. */
  lemma {:induction false} DigitsValueOfNatToString(n: nat)
    ensures DigitsValue(NatToString(n)) == n
  {
    var s := NatToString(n);
    if n >= 10 {
      DigitsValueOfNatToString(n / 10);
      assert s[..|s| - 1] == NatToString(n / 10);
    }
  }

  lemma SpaceCountOfSpaces(s: string)
    requires forall i :: 0 <= i < |s| ==> IsSpace(s[i])
    ensures SpaceCount(s) == |s|
  {
  }

  /** A string with no words is all whitespace. */
  lemma {:induction false} NoWordsAllSpace(s: string)
    requires Words(s) == []
    ensures SpaceCount(s) == |s|
  {
  }

  lemma {:induction false} SkipSpacesCount(s: string, k: nat)
    requires k <= SpaceCount(s)
    ensures SpaceCount(s[k..]) == SpaceCount(s) - k
    decreases k
  {
    if k > 0 {
      assert s[k..] == s[1..][k - 1..];
      SkipSpacesCount(s[1..], k - 1);
    }
  }

  /** Leading whitespace does not change the words. */
  lemma WordsSkipSpaces(s: string, k: nat)
    requires k <= SpaceCount(s)
    ensures Words(s[k..]) == Words(s)
  {
    var n := SpaceCount(s);
    SkipSpacesCount(s, k);
    assert s[k..][n - k..] == s[n..];
  }

  lemma {:induction false} WordLenPrefix(w: string, r: string)
    requires NoSpace(w) && (r == [] || IsSpace(r[0]))
    ensures WordLen(w + r) == |w|
    decreases |w|
  {
    if w == [] {
      assert w + r == r;
    } else {
      assert (w + r)[1..] == w[1..] + r;
      WordLenPrefix(w[1..], r);
    }
  }

  /** Words of a string that starts with the word `w` and then a separator. */
  lemma WordsCons(w: string, r: string)
    requires IsWord(w)
    requires r == [] || IsSpace(r[0])
    ensures Words(w + r) == [w] + Words(r)
  {
    var s := w + r;
    assert SpaceCount(s) == 0;
    assert s[0..] == s;
    WordLenPrefix(w, r);
    assert s[..|w|] == w;
    assert s[|w|..] == r;
  }

  lemma JoinConsWords(w: string, ws: seq<string>)
    requires ws != []
    ensures Join(" ", [w] + ws) == w + " " + Join(" ", ws)
  {
    assert ([w] + ws)[1..] == ws;
  }

  /** Joined words start and end with a word character. */
  lemma {:induction false} JoinWordsEnds(ws: seq<string>)
    requires AllWords(ws) && ws != []
    ensures var j := Join(" ", ws); j != [] && !IsSpace(j[0]) && !IsSpace(j[|j| - 1])
  {
    if |ws| > 1 {
      JoinWordsEnds(ws[1..]);
      var j := Join(" ", ws[1..]);
      assert Join(" ", ws) == ws[0] + " " + j;
    }
  }

  /** `' '.join(ws)` only has the single space as whitespace, never two in a row. */
  lemma {:induction false} JoinWordsShape(ws: seq<string>)
    requires AllWords(ws)
    ensures var j := Join(" ", ws);
      && (forall i :: 0 <= i < |j| && IsSpace(j[i]) ==> j[i] == ' ')
      && (forall i :: 0 <= i < |j| - 1 ==> !(IsSpace(j[i]) && IsSpace(j[i + 1])))
  {
    if |ws| > 1 {
      JoinWordsShape(ws[1..]);
      JoinWordsEnds(ws[1..]);
      var w, t := ws[0], Join(" ", ws[1..]);
      var j := w + " " + t;
      assert Join(" ", ws) == j;
      forall i | 0 <= i < |j| && IsSpace(j[i]) ensures j[i] == ' ' {
        if i > |w| { assert j[i] == t[i - |w| - 1]; }
      }
      forall i | 0 <= i < |j| - 1 ensures !(IsSpace(j[i]) && IsSpace(j[i + 1])) {
        if i > |w| { assert j[i] == t[i - |w| - 1] && j[i + 1] == t[i - |w|]; }
        else if i == |w| { assert j[i + 1] == t[0]; }
        else if i == |w| - 1 { assert j[i] == w[|w| - 1]; }
        else { assert j[i] == w[i]; }
      }
    }
  }

  /** Splitting joined words gives the words back: `' '.join(ws).split() == ws`. */
  lemma {:induction false} WordsOfJoin(ws: seq<string>)
    requires AllWords(ws)
    ensures Words(Join(" ", ws)) == ws
  {
    if ws == [] {
    } else if |ws| == 1 {
      WordsCons(ws[0], []);
      assert ws[0] + [] == ws[0];
    } else {
      WordsOfJoin(ws[1..]);
      WordsOfJoinStep(ws);
    }
  }

  lemma WordsOfJoinStep(ws: seq<string>)
    requires |ws| >= 2 && IsWord(ws[0])
    requires Words(Join(" ", ws[1..])) == ws[1..]
    ensures Words(Join(" ", ws)) == ws
  {
    var w, t := ws[0], Join(" ", ws[1..]);
    var r := " " + t;
    assert Join(" ", ws) == w + r;
    assert r[0] == ' ';
    WordsCons(w, r);
    WordsAfterSpace(t);
    assert [w] + ws[1..] == ws;
  }

  lemma WordsAfterSpace(t: string)
    ensures Words(" " + t) == Words(t)
  {
    WordsSkipSpaces(" " + t, 1);
    assert (" " + t)[1..] == t;
  }

  /** Joining two non-empty groups of strings is joining their concatenation. */
  lemma {:induction false} JoinAppend(a: seq<string>, b: seq<string>)
    requires a != [] && b != []
    ensures Join(" ", a + b) == Join(" ", a) + " " + Join(" ", b)
  {
    if |a| == 1 {
      JoinConsWords(a[0], b);
      assert [a[0]] + b == a + b;
    } else {
      JoinAppend(a[1..], b);
      assert (a + b)[1..] == a[1..] + b;
    }
  }

  lemma NoNewlineInJoinedWords(ws: seq<string>)
    requires AllWords(ws)
    ensures forall i :: 0 <= i < |Join(" ", ws)| ==> Join(" ", ws)[i] != '\n'
  {
    JoinWordsShape(ws);
  }

  /** Stripping whitespace padding around a string that neither starts nor ends
      with whitespace gives that string. */
  lemma StripPadded(a: string, j: string, b: string)
    requires forall i :: 0 <= i < |a| ==> IsSpace(a[i])
    requires forall i :: 0 <= i < |b| ==> IsSpace(b[i])
    requires j == [] || (!IsSpace(j[0]) && !IsSpace(j[|j| - 1]))
    ensures Strip(a + j + b) == j
  {
    var s := a + j + b;
    var l := LStripBy(s, IsSpace);
    LStripByShape(s, IsSpace);
    if j == [] {
      assert forall i :: 0 <= i < |s| ==> IsSpace(s[i]);
      assert l == [];
    } else {
      assert !IsSpace(s[|a|]);
      assert |s| - |l| == |a|;
      assert l == j + b;
      var r := RStripBy(l, IsSpace);
      RStripByShape(l, IsSpace);
      assert !IsSpace(l[|j| - 1]);
      assert |r| == |j|;
      assert r == (j + b)[..|j|] == j;
    }
  }

  /** Text without a character `c` contains no string that includes `c`. */
  lemma NotStartsWithAbsent(s: string, p: string, k: nat)
    requires k < |p| && forall i :: 0 <= i < |s| ==> s[i] != p[k]
    ensures !StartsWith(s, p)
  {
    if |p| <= |s| {
      assert s[..|p|][k] == s[k] != p[k];
    }
  }

  /** Text without the pattern is left as it is. */
  lemma {:induction false} ReplaceAbsent(s: string, pat: string, rep: string)
    requires pat != [] && !Contains(s, pat)
    ensures Replace(s, pat, rep) == s
    decreases |s|
  {
    if s != [] {
      ReplaceAbsent(s[1..], pat, rep);
      assert [s[0]] + s[1..] == s;
    }
  }

  /** Replacing by a string of the same length keeps the length. */
  lemma {:induction false} ReplaceLength(s: string, pat: string, rep: string)
    requires pat != [] && |rep| == |pat|
    ensures |Replace(s, pat, rep)| == |s|
    decreases |s|
  {
    if s != [] {
      if StartsWith(s, pat) {
        ReplaceLength(s[|pat|..], pat, rep);
      } else {
        ReplaceLength(s[1..], pat, rep);
      }
    }
  }

  /** Where the pattern starts the text, the replaced text starts with the
      replacement, and so does every non-empty prefix of it. */
  lemma ReplaceHead(t: string, pat: string, rep: string, w: string)
    requires pat != [] && rep != [] && StartsWith(t, pat)
    requires w != [] && StartsWith(Replace(t, pat, rep), w)
    ensures rep[0] in w
  {
    assert Replace(t, pat, rep)[0] == rep[0];
    assert w[0] == rep[0];
  }

  /** A prefix of the replaced text that never shows the replacement's first
      character was already a prefix of the original. */
  lemma {:induction false} ReplacePrefix(t: string, pat: string, rep: string, w: string)
    requires pat != [] && rep != [] && rep[0] !in w
    requires StartsWith(Replace(t, pat, rep), w)
    ensures StartsWith(t, w)
    decreases |t|
  {
    if w != [] && t != [] {
      if StartsWith(t, pat) {
        ReplaceHead(t, pat, rep, w);
        assert false;
      } else {
        var r := Replace(t[1..], pat, rep);
        assert Replace(t, pat, rep) == [t[0]] + r;
        assert ([t[0]] + r)[..|w|] == [t[0]] + r[..|w| - 1];
        assert r[..|w| - 1] == w[1..];
        assert rep[0] !in w[1..] by {
          assert forall x :: x in w[1..] ==> x in w;
        }
        ReplacePrefix(t[1..], pat, rep, w[1..]);
        assert t == [t[0]] + t[1..];
      }
    }
  }

  /** Text whose first characters are not the pattern's first character
      contains the pattern only where the rest does. */
  lemma {:induction false} ContainsSkip(a: string, x: string, p: string)
    requires p != [] && p[0] !in a && !Contains(x, p)
    ensures !Contains(a + x, p)
    decreases |a|
  {
    if a == [] {
      assert a + x == x;
    } else {
      assert (a + x)[0] == a[0];
      assert (a + x)[1..] == a[1..] + x;
      assert p[0] !in a[1..] by {
        assert forall c :: c in a[1..] ==> c in a;
      }
      ContainsSkip(a[1..], x, p);
    }
  }

  /** A digit string holds no character that is not a digit. */
  lemma DigitsExclude(d: string, c: char)
    requires AllDigits(d) && !IsDigit(c)
    ensures c !in d
  {
    assert forall i :: 0 <= i < |d| ==> IsDigit(d[i]);
  }
}
