/**
 * Character classes and the string operations of Python's `str` that the
 * parser relies on: `strip()`, `split()`, `upper()`, `capitalize()`,
 * `startswith()` and `' '.join(...)`. Letters and digits are ASCII; the
 * whitespace class is the one `str.isspace()` and the regex class `\s`
 * share.
 */
module Text {

  predicate IsDigit(c: char) { '0' <= c <= '9' }

  predicate IsUpper(c: char) { 'A' <= c <= 'Z' }

  predicate IsLower(c: char) { 'a' <= c <= 'z' }

  predicate IsAlpha(c: char) { IsUpper(c) || IsLower(c) }

  /** The regex class `\w`: letters, digits and the underscore. */
  predicate IsWordChar(c: char) { IsAlpha(c) || IsDigit(c) || c == '_' }

  /** Python's whitespace: what `str.split()`, `str.strip()` and `\s` skip. */
  predicate IsSpace(c: char) {
    c == ' ' || ('\t' <= c <= '\r') || ('\U{1C}' <= c <= '\U{1F}')
    || c == '\U{85}' || c == '\U{A0}' || c == '\U{1680}'
    || ('\U{2000}' <= c <= '\U{200A}') || c == '\U{2028}' || c == '\U{2029}'
    || c == '\U{202F}' || c == '\U{205F}' || c == '\U{3000}'
  }

  /** A non-empty run of ASCII digits: the regex `^\d+$`. */
  predicate IsDigits(s: string) {
    |s| > 0 && forall i :: 0 <= i < |s| ==> IsDigit(s[i])
  }

  /** `str.isalpha()`: non-empty and letters only. */
  predicate IsAlphaWord(s: string) {
    |s| > 0 && forall i :: 0 <= i < |s| ==> IsAlpha(s[i])
  }

  predicate NoSpace(s: string) {
    forall i :: 0 <= i < |s| ==> !IsSpace(s[i])
  }

  predicate StartsWith(s: string, p: string) {
    |p| <= |s| && s[..|p|] == p
  }

  function UpperChar(c: char): (r: char)
    ensures IsLower(c) ==> IsUpper(r)
    ensures !IsLower(c) ==> r == c
  {
    if IsLower(c) then (c as int - 32) as char else c
  }

  function LowerChar(c: char): (r: char)
    ensures IsUpper(c) ==> IsLower(r)
    ensures !IsUpper(c) ==> r == c
  {
    if IsUpper(c) then (c as int + 32) as char else c
  }

  /** `str.upper()`. */
  function Upper(s: string): (r: string)
    ensures |r| == |s|
    ensures forall i :: 0 <= i < |s| ==> r[i] == UpperChar(s[i])
  {
    seq(|s|, i requires 0 <= i < |s| => UpperChar(s[i]))
  }

  /** `str.capitalize()`: the first character upper case, the others lower case. */
  function Capitalize(s: string): (r: string)
    ensures |r| == |s|
    ensures |s| > 0 ==> r[0] == UpperChar(s[0])
    ensures forall i :: 0 < i < |s| ==> r[i] == LowerChar(s[i])
  {
    if s == [] then [] else [UpperChar(s[0])] + seq(|s| - 1, i requires 0 <= i < |s| - 1 => LowerChar(s[i + 1]))
  }

  /** Index of the first non-space character at or after `i`, or `|s|`. */
  function SkipSpaces(s: string, i: nat): (k: nat)
    requires i <= |s|
    ensures i <= k <= |s|
    ensures forall j :: i <= j < k ==> IsSpace(s[j])
    ensures k < |s| ==> !IsSpace(s[k])
    decreases |s| - i
  {
    if i == |s| || !IsSpace(s[i]) then i else SkipSpaces(s, i + 1)
  }

  /** Index of the first space at or after `i`, or `|s|`. */
  function SkipNonSpaces(s: string, i: nat): (k: nat)
    requires i <= |s|
    ensures i <= k <= |s|
    ensures forall j :: i <= j < k ==> !IsSpace(s[j])
    ensures k < |s| ==> IsSpace(s[k])
    decreases |s| - i
  {
    if i == |s| || IsSpace(s[i]) then i else SkipNonSpaces(s, i + 1)
  }

  /** Length of `s` once its trailing whitespace is cut off. */
  function TrimmedLength(s: string): (n: nat)
    ensures n <= |s|
    ensures forall j :: n <= j < |s| ==> IsSpace(s[j])
    ensures n > 0 ==> !IsSpace(s[n - 1])
  {
    if s == [] || !IsSpace(s[|s| - 1]) then |s| else TrimmedLength(s[..|s| - 1])
  }

  /** `TrimmedLength` is the one length after which only whitespace follows and before which a non-space ends. */
  lemma TrimmedLengthAt(s: string, n: nat)
    requires n <= |s|
    requires forall j :: n <= j < |s| ==> IsSpace(s[j])
    requires n == 0 || !IsSpace(s[n - 1])
    ensures TrimmedLength(s) == n
  {
  }

  /** `str.rstrip()`. */
  function TrimEnd(s: string): (r: string)
    ensures r == s[..TrimmedLength(s)]
  {
    s[..TrimmedLength(s)]
  }

  /** `str.strip()`: the part of `s` between its leading and its trailing whitespace. */
  function Strip(s: string): (r: string)
    ensures exists i, j :: 0 <= i <= j <= |s| && r == s[i..j]
              && (forall k :: 0 <= k < i ==> IsSpace(s[k]))
              && (forall k :: j <= k < |s| ==> IsSpace(s[k]))
    ensures r == [] || (!IsSpace(r[0]) && !IsSpace(r[|r| - 1]))
  {
    var i := SkipSpaces(s, 0);
    var t := s[i..];
    var j := i + TrimmedLength(t);
    assert s[i..j] == t[..TrimmedLength(t)];
    s[i..j]
  }

  /** `str.split()` with no separator: the maximal runs of non-space characters, in order. */
  function Split(s: string): (r: seq<string>)
    ensures forall k :: 0 <= k < |r| ==> |r[k]| > 0 && NoSpace(r[k])
  {
    SplitFromWords(s, 0);
    SplitFrom(s, 0)
  }

  /** The words of `s` from index `i` on. */
  function SplitFrom(s: string, i: nat): seq<string>
    requires i <= |s|
    decreases |s| - i
  {
    var k := SkipSpaces(s, i);
    if k == |s| then []
    else
      var j := SkipNonSpaces(s, k);
      [s[k..j]] + SplitFrom(s, j)
  }

  /** Every word is non-empty and holds no whitespace. */
  lemma {:induction false} SplitFromWords(s: string, i: nat)
    requires i <= |s|
    ensures forall k :: 0 <= k < |SplitFrom(s, i)| ==> |SplitFrom(s, i)[k]| > 0 && NoSpace(SplitFrom(s, i)[k])
    decreases |s| - i
  {
    var k := SkipSpaces(s, i);
    if k < |s| {
      var j := SkipNonSpaces(s, k);
      SplitFromWords(s, j);
      var w := s[k..j];
      assert forall m :: 0 <= m < |w| ==> w[m] == s[k + m];
    }
  }

  /** `sep.join(words)`. */
  function Join(words: seq<string>, sep: string): (r: string)
    ensures |words| == 1 ==> r == words[0]
  {
    if words == [] then []
    else if |words| == 1 then words[0]
    else words[0] + sep + Join(words[1..], sep)
  }

  /**
   * The tokens of a row line once a leading `marker` followed by whitespace
   * is cut off: on a line that is split on whitespace straight after, the
   * regex substitution `^<marker>\s+` removes exactly a first token equal to
   * `marker` that has a token after it.
   */
  function RowTokens(line: string, marker: string): (r: seq<string>)
    ensures forall k :: 0 <= k < |r| ==> |r[k]| > 0 && NoSpace(r[k])
  {
    var t := Split(line);
    if |t| >= 2 && t[0] == marker then t[1..] else t
  }

  /** The groups of tokens `qs` laid end to end. */
  function Flatten<T>(qs: seq<seq<T>>): seq<T> {
    if qs == [] then [] else qs[0] + Flatten(qs[1..])
  }

  /** When `tokens` from `i` on are the groups `qs`, the first group comes first and the rest follow it. */
  lemma FlattenCons<T>(tokens: seq<T>, i: nat, qs: seq<seq<T>>)
    requires i <= |tokens| && tokens[i..] == Flatten(qs) && qs != []
    ensures i + |qs[0]| <= |tokens| && tokens[i..i + |qs[0]|] == qs[0]
    ensures tokens[i + |qs[0]|..] == Flatten(qs[1..])
  {
    assert tokens[i..] == qs[0] + Flatten(qs[1..]);
    assert tokens[i..][..|qs[0]|] == qs[0];
    assert tokens[i..][|qs[0]|..] == Flatten(qs[1..]);
  }

  lemma UpperLowerChar(c: char)
    ensures UpperChar(LowerChar(c)) == UpperChar(c)
  {
  }

  /** Upper-casing a capitalized word gives the same as upper-casing the word. */
  lemma UpperCapitalize(w: string)
    ensures Upper(Capitalize(w)) == Upper(w)
  {
    var c := Capitalize(w);
    forall k | 0 < k < |w|
      ensures UpperChar(c[k]) == UpperChar(w[k])
    {
      UpperLowerChar(w[k]);
    }
    assert forall k :: 0 <= k < |w| ==> Upper(c)[k] == Upper(w)[k];
  }
}
