/**
 * The result summary of a student block: the first line that ends in
 * `(<total>) PASS`, `FAILED` or `FAIL` gives the total marks and the result.
 * Without such a line the total is 0 and the result `FAILED`.
 */
module Summary {
  import opened Wrappers
  import opened Text
  import opened Numbers

  /** The alternatives of `(PASS|FAILED|FAIL)`, in the order they are tried. */
  const ResultWords: seq<string> := ["PASS", "FAILED", "FAIL"]

  /** What a summary line shows: the digits between the parentheses and the result word as written. */
  datatype SummaryMatch = SummaryMatch(digits: string, word: string)

  /** The summary of a block; the SGPA is the one the totals row gave. */
  datatype Summary = Summary(totalMarks: nat, result: string, sgpa: Decimal)

  /** `t` ends in `w`, ignoring ASCII case (`w` is upper case). */
  predicate EndsWithWord(t: string, w: string) {
    |w| <= |t| && forall k :: 0 <= k < |w| ==> UpperChar(t[|t| - |w| + k]) == w[k]
  }

  /**
   * The result word `t` ends in, trying the alternatives from `a` on in the
   * order of the alternation. At most one of them can end a text, so the order
   * does not change the outcome.
   */
  function ResultWordAtEnd(t: string, a: nat := 0): Option<string>
    requires a <= |ResultWords|
    decreases |ResultWords| - a
  {
    if a == |ResultWords| then None
    else if EndsWithWord(t, ResultWords[a]) then Some(ResultWords[a])
    else ResultWordAtEnd(t, a + 1)
  }

  /** The start of the run of digits that ends just before index `e`. */
  function DigitRunStart(s: string, e: nat): (d: nat)
    requires e <= |s|
    ensures d <= e
  {
    if e == 0 || !IsDigit(s[e - 1]) then e else DigitRunStart(s, e - 1)
  }

  /**
   * `re.search(r'\((\d+)\)\s*(PASS|FAILED|FAIL)\s*$', line, re.IGNORECASE)`,
   * read from the end of the line: trailing whitespace, the result word,
   * whitespace, `)`, digits and `(`.
   */
  function MatchSummaryLine(line: string): Option<SummaryMatch>
  {
    var t := TrimEnd(line);
    match ResultWordAtEnd(t)
    case None => None
    case Some(w) => MatchCount(TrimEnd(t[..|t| - |w|]), t[|t| - |w|..])
  }

  /** The part before the result word, with the whitespace before the word cut: `(digits)` must end it. */
  function MatchCount(u: string, word: string): Option<SummaryMatch>
  {
    if |u| == 0 || u[|u| - 1] != ')' then None
    else
      var d := DigitRunStart(u, |u| - 1);
      if d == |u| - 1 || d == 0 || u[d - 1] != '(' then None
      else Some(SummaryMatch(u[d..|u| - 1], word))
  }

  /** `a` is the upper-case word `w`, ignoring ASCII case. */
  predicate SameWord(a: string, w: string) {
    |a| == |w| && EndsWithWord(a, w)
  }

  /**
   * `'PASS' if 'PASS' in word.upper() else 'FAILED'`. The word is one of the
   * three result words in some case, and of those only `PASS` contains `PASS`.
   */
  function Verdict(word: string): string
  {
    if SameWord(word, "PASS") then "PASS" else "FAILED"
  }

  /**
   * `parse_summary_from_lines` from line `i` on: the first summary line
   * decides; `None` stands for the `ValueError` that `int` raises on a total
   * longer than the digit limit.
   */
  function SummaryFrom(lines: seq<string>, i: nat, sgpa: Decimal): Option<Summary>
    requires i <= |lines|
    decreases |lines| - i
  {
    if i == |lines| then Some(Summary(0, "FAILED", sgpa))
    else match MatchSummaryLine(lines[i])
      case None => SummaryFrom(lines, i + 1, sgpa)
      case Some(m) =>
        match ParseDigits(m.digits)
        case None => None
        case Some(total) => Some(Summary(total, Verdict(m.word), sgpa))
  }

  /** `parse_summary_from_lines`: scans the lines and stops at the first summary line. */
  method ParseSummary(lines: seq<string>, sgpa: Decimal) returns (r: Option<Summary>)
    ensures r == SummaryFrom(lines, 0, sgpa)
  {
    var i := 0;
    while i < |lines|
      invariant i <= |lines|
      invariant SummaryFrom(lines, i, sgpa) == SummaryFrom(lines, 0, sgpa)
      decreases |lines| - i
    {
      var m := MatchSummaryLine(lines[i]);
      if m.Some? {
        var total := ParseDigits(m.value.digits);
        if total.None? {
          return None;
        }
        return Some(Summary(total.value, Verdict(m.value.word), sgpa));
      }
      i := i + 1;
    }
    return Some(Summary(0, "FAILED", sgpa));
  }

  // Properties

  /** The digit run really is one: digits only, with no digit just before it. */
  lemma {:induction false} DigitRun(s: string, e: nat)
    requires e <= |s|
    ensures forall j :: DigitRunStart(s, e) <= j < e ==> IsDigit(s[j])
    ensures DigitRunStart(s, e) > 0 ==> !IsDigit(s[DigitRunStart(s, e) - 1])
  {
    if e > 0 && IsDigit(s[e - 1]) {
      DigitRun(s, e - 1);
    }
  }

  /** The start of a digit run is the one index where the run begins. */
  lemma {:induction false} DigitRunStartAt(s: string, e: nat, d: nat)
    requires d <= e <= |s|
    requires forall j :: d <= j < e ==> IsDigit(s[j])
    requires d == 0 || !IsDigit(s[d - 1])
    ensures DigitRunStart(s, e) == d
    decreases e
  {
    if d < e {
      DigitRunStartAt(s, e - 1, d);
    }
  }

  /** Whatever the end of a text is read as is one of the result words, and the text ends in it. */
  lemma {:induction false} ResultWordShape(t: string, a: nat)
    requires a <= |ResultWords|
    ensures ResultWordAtEnd(t, a).Some? ==> ResultWordAtEnd(t, a).value in ResultWords && EndsWithWord(t, ResultWordAtEnd(t, a).value)
    decreases |ResultWords| - a
  {
    if a < |ResultWords| && !EndsWithWord(t, ResultWords[a]) {
      ResultWordShape(t, a + 1);
    }
  }

  /** A matched summary line has digits between its parentheses and ends in one of the result words. */
  lemma MatchShape(line: string)
    ensures MatchSummaryLine(line).Some? ==>
              var m := MatchSummaryLine(line).value;
              IsDigits(m.digits) && exists w :: w in ResultWords && SameWord(m.word, w)
  {
    var t := TrimEnd(line);
    match ResultWordAtEnd(t)
    case None =>
    case Some(w) =>
      ResultWordShape(t, 0);
      var word := t[|t| - |w|..];
      EndingIsSameWord(t, w);
      MatchCountDigits(TrimEnd(t[..|t| - |w|]), word);
  }

  lemma EndingIsSameWord(t: string, w: string)
    requires EndsWithWord(t, w)
    ensures SameWord(t[|t| - |w|..], w)
  {
    var word := t[|t| - |w|..];
    assert forall k :: 0 <= k < |w| ==> word[k] == t[|t| - |w| + k];
  }

  lemma MatchCountDigits(u: string, word: string)
    ensures MatchCount(u, word).Some? ==> IsDigits(MatchCount(u, word).value.digits) && MatchCount(u, word).value.word == word
  {
    if |u| > 0 && u[|u| - 1] == ')' {
      var d := DigitRunStart(u, |u| - 1);
      DigitRun(u, |u| - 1);
      var m := u[d..|u| - 1];
      assert forall j :: 0 <= j < |m| ==> m[j] == u[d + j];
    }
  }

  /** The result is `PASS` or `FAILED`, and the SGPA is passed through. */
  lemma {:induction false} SummaryResult(lines: seq<string>, i: nat, sgpa: Decimal)
    requires i <= |lines|
    ensures SummaryFrom(lines, i, sgpa).Some? ==>
              var s := SummaryFrom(lines, i, sgpa).value;
              (s.result == "PASS" || s.result == "FAILED") && s.sgpa == sgpa
    decreases |lines| - i
  {
    if i < |lines| && MatchSummaryLine(lines[i]).None? {
      SummaryResult(lines, i + 1, sgpa);
    }
  }

  /** With no summary line at all the total is 0 and the result `FAILED`. */
  lemma {:induction false} SummaryWithoutSummaryLine(lines: seq<string>, i: nat, sgpa: Decimal)
    requires i <= |lines|
    requires forall j :: i <= j < |lines| ==> MatchSummaryLine(lines[j]).None?
    ensures SummaryFrom(lines, i, sgpa) == Some(Summary(0, "FAILED", sgpa))
    decreases |lines| - i
  {
    if i < |lines| {
      SummaryWithoutSummaryLine(lines, i + 1, sgpa);
    }
  }

  /** The first summary line decides: lines before it match nothing and lines after it are not looked at. */
  lemma {:induction false} FirstSummaryLineDecides(lines: seq<string>, i: nat, k: nat, sgpa: Decimal)
    requires i <= k < |lines|
    requires forall j :: i <= j < k ==> MatchSummaryLine(lines[j]).None?
    requires MatchSummaryLine(lines[k]).Some?
    ensures var m := MatchSummaryLine(lines[k]).value;
            SummaryFrom(lines, i, sgpa)
            == if ParseDigits(m.digits).None? then None
               else Some(Summary(ParseDigits(m.digits).value, Verdict(m.word), sgpa))
    decreases k - i
  {
    if i < k {
      FirstSummaryLineDecides(lines, i + 1, k, sgpa);
    }
  }

  /** A text ends in its own last characters. */
  lemma EndsWithOwnWord(x: string, w: string)
    requires forall k :: 0 <= k < |w| ==> IsUpper(w[k])
    ensures EndsWithWord(x + w, w)
  {
    var line := x + w;
    assert forall k :: 0 <= k < |w| ==> line[|x| + k] == w[k];
  }

  /** A text whose last letter differs from a word's does not end in it. */
  lemma LastLetterRules(t: string, w: string)
    requires |t| > 0 && |w| > 0 && UpperChar(t[|t| - 1]) != w[|w| - 1]
    ensures !EndsWithWord(t, w)
  {
    if |w| <= |t| {
      assert UpperChar(t[|t| - |w| + (|w| - 1)]) != w[|w| - 1];
    }
  }

  lemma WordAtEndPass(x: string)
    ensures ResultWordAtEnd(x + "PASS") == Some("PASS")
  {
    EndsWithOwnWord(x, "PASS");
  }

  lemma WordAtEndFailed(x: string)
    ensures ResultWordAtEnd(x + "FAILED") == Some("FAILED")
  {
    var line := x + "FAILED";
    assert line[|line| - 1] == 'D';
    LastLetterRules(line, "PASS");
    EndsWithOwnWord(x, "FAILED");
  }

  lemma WordAtEndFail(x: string)
    ensures ResultWordAtEnd(x + "FAIL") == Some("FAIL")
  {
    var line := x + "FAIL";
    assert line[|line| - 1] == 'L';
    LastLetterRules(line, "PASS");
    LastLetterRules(line, "FAILED");
    EndsWithOwnWord(x, "FAIL");
  }

  /** A text that ends in one of the result words, in upper case, is read as ending in that word. */
  lemma WordAtEnd(x: string, w: string)
    requires w == "PASS" || w == "FAILED" || w == "FAIL"
    ensures ResultWordAtEnd(x + w) == Some(w)
  {
    if w == "PASS" {
      WordAtEndPass(x);
    } else if w == "FAILED" {
      WordAtEndFailed(x);
    } else {
      WordAtEndFail(x);
    }
  }

  /** A text ending in a letter keeps its end when trailing whitespace is cut. */
  lemma TrimEndKeeps(t: string)
    requires |t| > 0 && !IsSpace(t[|t| - 1])
    ensures TrimEnd(t) == t
  {
    TrimmedLengthAt(t, |t|);
  }

  /** Where the parts of `pre(digits)` sit. */
  lemma ParenParts(pre: string, digits: string)
    ensures var body := pre + "(" + digits + ")";
            |body| == |pre| + |digits| + 2 && body[|pre|] == '(' && body[|body| - 1] == ')'
            && body[|pre| + 1..|body| - 1] == digits
  {
    var body := pre + "(" + digits + ")";
    assert body == pre + ("(" + digits + ")");
    assert body[|pre|..] == "(" + digits + ")";
  }

  /** The space after `)` is cut. */
  lemma TrimSpaceAfter(pre: string, digits: string)
    ensures TrimEnd(pre + "(" + digits + ") ") == pre + "(" + digits + ")"
  {
    var body := pre + "(" + digits + ")";
    var v := pre + "(" + digits + ") ";
    assert v == body + " ";
    assert v[|body|] == ' ' && v[|body| - 1] == ')';
    TrimmedLengthAt(v, |body|);
    assert v[..|body|] == body;
  }

  /** `pre(digits)`, with a space after it, is read as those digits. */
  lemma MatchCountOf(pre: string, digits: string, word: string)
    requires IsDigits(digits)
    ensures MatchCount(TrimEnd(pre + "(" + digits + ") "), word) == Some(SummaryMatch(digits, word))
  {
    var body := pre + "(" + digits + ")";
    TrimSpaceAfter(pre, digits);
    ParenParts(pre, digits);
    var m := body[|pre| + 1..|body| - 1];
    assert forall j :: |pre| + 1 <= j < |body| - 1 ==> body[j] == m[j - |pre| - 1];
    DigitRunStartAt(body, |body| - 1, |pre| + 1);
  }

  /**
   * A line that ends in `(<n>) <word>` is read back as `n` and `word`,
   * whatever text comes before the parentheses.
   */
  lemma SummaryLineRoundTrip(pre: string, n: nat, w: string)
    requires w == "PASS" || w == "FAILED" || w == "FAIL"
    ensures var digits := ShowNat(n);
            MatchSummaryLine(pre + "(" + digits + ") " + w) == Some(SummaryMatch(digits, w))
  {
    var digits := ShowNat(n);
    var head := pre + "(" + digits + ") ";
    var line := head + w;
    assert line == pre + "(" + digits + ") " + w;
    assert line[|line| - 1] == w[|w| - 1];
    TrimEndKeeps(line);
    WordAtEnd(head, w);
    assert line[..|line| - |w|] == head && line[|line| - |w|..] == w;
    MatchCountOf(pre, digits, w);
  }

  /** A block whose only summary line is `(<n>) <word>` has total `n` and the verdict of `word`. */
  lemma SummaryOfOneLine(pre: string, n: nat, w: string, sgpa: Decimal)
    requires w == "PASS" || w == "FAILED" || w == "FAIL"
    requires |ShowNat(n)| <= IntMaxStrDigits
    ensures SummaryFrom([pre + "(" + ShowNat(n) + ") " + w], 0, sgpa)
            == Some(Summary(n, if w == "PASS" then "PASS" else "FAILED", sgpa))
  {
    SummaryLineRoundTrip(pre, n, w);
    ParseDigitsShowNat(n);
    UpperOfResultWord(w);
    VerdictOfResultWords(w);
  }

  /** The result words are written in upper case already. */
  lemma UpperOfResultWord(w: string)
    requires w == "PASS" || w == "FAILED" || w == "FAIL"
    ensures Upper(w) == w
  {
    assert forall k :: 0 <= k < |w| ==> !IsLower(w[k]);
  }

  /** Comparing while ignoring case is comparing the upper-cased text. */
  lemma SameWordIsUpper(a: string, w: string)
    ensures SameWord(a, w) <==> Upper(a) == w
  {
    if SameWord(a, w) {
      SameWordUpper(a, w);
    }
    if Upper(a) == w {
      UpperSameWord(a, w);
    }
  }

  lemma SameWordUpper(a: string, w: string)
    requires SameWord(a, w)
    ensures Upper(a) == w
  {
    var u := Upper(a);
    forall k | 0 <= k < |w|
      ensures u[k] == w[k]
    {
      assert |a| - |w| + k == k;
    }
  }

  lemma UpperSameWord(a: string, w: string)
    requires Upper(a) == w
    ensures SameWord(a, w)
  {
    forall k | 0 <= k < |w|
      ensures UpperChar(a[|a| - |w| + k]) == w[k]
    {
      assert |a| - |w| + k == k;
      assert Upper(a)[k] == UpperChar(a[k]);
    }
  }

  /**
   * In any case, the word `PASS` gives the verdict `PASS` and the words
   * `FAILED` and `FAIL` give `FAILED`; nothing else gives `PASS`.
   */
  lemma VerdictOfResultWords(w: string)
    ensures Verdict(w) == "PASS" <==> Upper(w) == "PASS"
    ensures Upper(w) == "FAILED" || Upper(w) == "FAIL" ==> Verdict(w) == "FAILED"
  {
    SameWordIsUpper(w, "PASS");
    assert Upper(w) == "FAIL" ==> Upper(w)[0] != "PASS"[0];
  }
}
