/**
 * The component rows (`T1`, `O1`, `E1`, `I1`): a sequence of marks, where a
 * mark may carry `@g` grace marks and may be followed by grade notation
 * (`P`/`F`, optionally a grade point before it and a credit-point decimal
 * after it) that must not be read as further marks. A trailing `MARKS`, a
 * `(N) PASS|FAILED|FAIL` summary and trailing `...` placeholders are cut off
 * first.
 */
module ComponentLine {
  import opened Wrappers
  import opened Text
  import opened Numbers

  /** A standalone grade indicator. */
  predicate IsPassFail(t: string) { t == "P" || t == "F" }

  /** `PASS`, `FAILED` or `FAIL`, in any letter case. */
  predicate IsResultWord(t: string) {
    var u := Upper(t);
    u == "PASS" || u == "FAILED" || u == "FAIL"
  }

  /** The regex `\(\d+\)`: digits in parentheses. */
  predicate IsBracketedCount(t: string) {
    |t| >= 3 && t[0] == '(' && t[|t| - 1] == ')' && IsDigits(t[1..|t| - 1])
  }

  /** Index of the first `')'` in `t`, or `|t|`. */
  function CloseIndex(t: string): (k: nat)
    ensures k <= |t|
    ensures forall j :: 0 <= j < k ==> t[j] != ')'
    ensures k < |t| ==> t[k] == ')'
  {
    if t == [] then 0 else if t[0] == ')' then 0 else 1 + CloseIndex(t[1..])
  }

  /**
   * A single token `(N)KEYWORD`. Digits never contain `)`, so the count ends
   * at the first `)`.
   */
  predicate IsBracketedResult(t: string) {
    var k := CloseIndex(t);
    k < |t| && IsBracketedCount(t[..k + 1]) && IsResultWord(t[k + 1..])
  }

  /**
   * `re.sub(r'\s+WORD\s*$', '', ...)` on the tokens of a stripped row, for a
   * word without whitespace: the last token goes when it is `word` and a token
   * is left before it.
   */
  function DropTrailing(t: seq<string>, word: string): (r: seq<string>)
    ensures |r| <= |t| && r == t[..|r|]
    ensures |r| == |t| || (|r| == |t| - 1 && |r| >= 1 && t[|t| - 1] == word)
  {
    if |t| >= 2 && t[|t| - 1] == word then t[..|t| - 1] else t
  }

  /** `re.sub(r'\s+\(\d+\)\s*(PASS|FAILED|FAIL)\s*$', '', ..., flags=re.IGNORECASE)`: one token or two. */
  function DropResult(t: seq<string>): (r: seq<string>)
    ensures |r| <= |t| && r == t[..|r|]
  {
    if |t| >= 2 && IsBracketedResult(t[|t| - 1]) then t[..|t| - 1]
    else if |t| >= 3 && IsBracketedCount(t[|t| - 2]) && IsResultWord(t[|t| - 1]) then t[..|t| - 2]
    else t
  }

  /** `re.sub(r'\s+\.\.\.\s+P\s*$', '', ...)`. */
  function DropPlaceholderPass(t: seq<string>): (r: seq<string>)
    ensures |r| <= |t| && r == t[..|r|]
  {
    if |t| >= 3 && t[|t| - 2] == "..." && t[|t| - 1] == "P" then t[..|t| - 2] else t
  }

  /**
   * The tokens `parse_component_line` scans. On a stripped row, each
   * substitution anchored at the end and starting with `\s+` removes whole
   * trailing tokens, and only when a token is left before them.
   */
  function ComponentTokens(line: string, prefix: string): (r: seq<string>)
    ensures |r| <= |RowTokens(line, prefix)|
  {
    DropTrailing(DropPlaceholderPass(DropResult(DropTrailing(RowTokens(line, prefix), "MARKS"))), "...")
  }

  /** What one pass of the scan loop does: go on at `next`, record `mark` and go on, or raise. */
  datatype MarkStep = Next(next: nat) | Mark(mark: int, next: nat) | Raise

  /** Where the scan goes on after a mark, skipping `P|F [decimal]` or `GP P|F [decimal]` at `j`. */
  function AfterGradeNotation(tokens: seq<string>, j: nat): (k: nat)
    requires j <= |tokens|
    ensures j <= k <= |tokens|
  {
    if j < |tokens| && IsPassFail(tokens[j]) then
      (if j + 1 < |tokens| && IsDecimalToken(tokens[j + 1]) then j + 2 else j + 1)
    else if j + 1 < |tokens| && IsDigits(tokens[j]) && IsPassFail(tokens[j + 1]) then
      (if j + 2 < |tokens| && IsDecimalToken(tokens[j + 2]) then j + 3 else j + 2)
    else j
  }

  /** The grace marks an `@g` token adds: `g` when it parses, else nothing. */
  function GraceOf(t: string): int
    requires StartsWith(t, "@")
  {
    ParseInt(t[1..]).GetOr(0)
  }

  /**
   * One pass of the scan loop at `i`. Only a digit-only token yields a mark,
   * with the grace of an `@g` token right after it added; such a token whose
   * `int` fails (too many digits) raises.
   */
  function MarkStepAt(tokens: seq<string>, i: nat): (s: MarkStep)
    requires i < |tokens|
    ensures s.Next? ==> s.next == i + 1
    ensures s.Mark? ==> i < s.next <= |tokens| && IsDigits(tokens[i])
    ensures s.Mark? ==>
              var hasGrace := i + 1 < |tokens| && StartsWith(tokens[i + 1], "@");
              s.mark == DigitsValue(tokens[i]) + (if hasGrace then GraceOf(tokens[i + 1]) else 0)
    ensures s.Raise? ==> IsDigits(tokens[i]) && |tokens[i]| > IntMaxStrDigits
    ensures IsPassFail(tokens[i]) || tokens[i] == "..." || IsDecimalToken(tokens[i]) ==> s == Next(i + 1)
  {
    var t := tokens[i];
    if IsPassFail(t) || t == "..." || IsDecimalToken(t) || !IsDigits(t) then Next(i + 1)
    else match ParseDigits(t)
      case None => Raise
      case Some(m) =>
        if i + 1 < |tokens| && StartsWith(tokens[i + 1], "@") then
          Mark(m + GraceOf(tokens[i + 1]), AfterGradeNotation(tokens, i + 2))
        else Mark(m, AfterGradeNotation(tokens, i + 1))
  }

  /** The marks the scan records from `i` on after the marks `acc`; `None` when it raises. */
  function ScanMarks(tokens: seq<string>, i: nat, acc: seq<int>): Option<seq<int>>
    requires i <= |tokens|
    decreases |tokens| - i
  {
    if i == |tokens| then Some(acc)
    else match MarkStepAt(tokens, i)
      case Next(next) => ScanMarks(tokens, next, acc)
      case Mark(m, next) => ScanMarks(tokens, next, acc + [m])
      case Raise => None
  }

  /** `parse_component_line`: the marks of a component row, or `None` where `int` raises. */
  method ParseComponentLine(line: string, prefix: string) returns (marks: Option<seq<int>>)
    ensures marks == ScanMarks(ComponentTokens(line, prefix), 0, [])
  {
    var tokens := ComponentTokens(line, prefix);
    var found: seq<int> := [];
    var i := 0;
    while i < |tokens|
      invariant i <= |tokens|
      invariant ScanMarks(tokens, i, found) == ScanMarks(tokens, 0, [])
      decreases |tokens| - i
    {
      var step := ScanMarkStep(tokens, i);
      match step
      case Next(next) => i := next;
      case Mark(m, next) =>
        found := found + [m];
        i := next;
      case Raise => return None;
    }
    return Some(found);
  }

  /**
   * The body of the scan loop at `start`: standalone `P`, `F`, `...` and
   * decimal tokens are skipped, a digit-only token is a mark (plus grace),
   * after which grade notation is skipped; any other token is skipped.
   */
  method ScanMarkStep(tokens: seq<string>, start: nat) returns (step: MarkStep)
    requires start < |tokens|
    ensures step == MarkStepAt(tokens, start)
  {
    var i := start;
    var token := tokens[i];
    if IsPassFail(token) || token == "..." {
      return Next(i + 1);
    }
    if IsDecimalToken(token) {
      return Next(i + 1);
    }
    if !IsDigits(token) {
      return Next(i + 1);
    }
    var parsed := ParseDigits(token);
    if parsed.None? {
      return Raise;
    }
    var mark := parsed.value;
    i := i + 1;
    if i < |tokens| && StartsWith(tokens[i], "@") {
      var grace := ParseInt(tokens[i][1..]);
      if grace.Some? {
        mark := mark + grace.value;
      }
      i := i + 1;
    }
    i := SkipGradeNotation(tokens, i);
    return Mark(mark, i);
  }

  /** The grade notation after a mark: `P|F [decimal]`, or a grade point then `P|F [decimal]`. */
  method SkipGradeNotation(tokens: seq<string>, j: nat) returns (k: nat)
    requires j <= |tokens|
    ensures k == AfterGradeNotation(tokens, j)
  {
    k := j;
    if k < |tokens| && IsPassFail(tokens[k]) {
      k := k + 1;
      if k < |tokens| && IsDecimalToken(tokens[k]) {
        k := k + 1;
      }
    } else if k < |tokens| && IsDigits(tokens[k]) && k + 1 < |tokens| && IsPassFail(tokens[k + 1]) {
      k := k + 2;
      if k < |tokens| && IsDecimalToken(tokens[k]) {
        k := k + 1;
      }
    }
  }

  /** The number of digit-only tokens from index `i` on. */
  function DigitTokenCount(tokens: seq<string>, i: nat): (n: nat)
    requires i <= |tokens|
    ensures n <= |tokens| - i
    decreases |tokens| - i
  {
    if i == |tokens| then 0 else (if IsDigits(tokens[i]) then 1 else 0) + DigitTokenCount(tokens, i + 1)
  }

  lemma {:induction false} DigitTokenCountMonotone(tokens: seq<string>, i: nat, j: nat)
    requires i <= j <= |tokens|
    ensures DigitTokenCount(tokens, j) <= DigitTokenCount(tokens, i)
    decreases j - i
  {
    if i < j {
      DigitTokenCountMonotone(tokens, i + 1, j);
    }
  }

  /**
   * The scan only ever appends to `acc`, and it appends at most one mark per
   * digit-only token, so never more marks than tokens.
   */
  lemma {:induction false} ScanMarksBound(tokens: seq<string>, i: nat, acc: seq<int>)
    requires i <= |tokens|
    ensures ScanMarks(tokens, i, acc).Some? ==>
              var r := ScanMarks(tokens, i, acc).value;
              |acc| <= |r| && r[..|acc|] == acc && |r| - |acc| <= DigitTokenCount(tokens, i)
    decreases |tokens| - i
  {
    if i < |tokens| {
      match MarkStepAt(tokens, i)
      case Next(next) =>
        ScanMarksBound(tokens, next, acc);
        DigitTokenCountMonotone(tokens, i, next);
      case Mark(m, next) =>
        var acc' := acc + [m];
        ScanMarksBound(tokens, next, acc');
        DigitTokenCountMonotone(tokens, i + 1, next);
        if ScanMarks(tokens, next, acc').Some? {
          var r := ScanMarks(tokens, next, acc').value;
          assert r[..|acc|] == r[..|acc'|][..|acc|];
        }
      case Raise =>
    }
  }

  /** `parse_component_line` returns no more marks than the row has digit-only tokens, hence than it has tokens. */
  lemma ComponentMarksBound(line: string, prefix: string)
    ensures var tokens := ComponentTokens(line, prefix);
            var marks := ScanMarks(tokens, 0, []);
            marks.Some? ==> |marks.value| <= DigitTokenCount(tokens, 0) <= |tokens| <= |RowTokens(line, prefix)|
  {
    ScanMarksBound(ComponentTokens(line, prefix), 0, []);
  }

  /** The grade notation that may follow a mark: `P|F`, `P|F decimal`, `GP P|F` or `GP P|F decimal`. */
  predicate IsGradeNotation(s: seq<string>) {
    (|s| == 1 && IsPassFail(s[0]))
    || (|s| == 2 && IsPassFail(s[0]) && IsDecimalToken(s[1]))
    || (|s| == 2 && IsDigits(s[0]) && IsPassFail(s[1]))
    || (|s| == 3 && IsDigits(s[0]) && IsPassFail(s[1]) && IsDecimalToken(s[2]))
  }

  /** One graded mark group: a mark that `int` reads, an optional `@g` grace token, then grade notation. */
  predicate MarkGroup(q: seq<string>) {
    |q| >= 2 && IsDigits(q[0]) && |q[0]| <= IntMaxStrDigits
    && if StartsWith(q[1], "@") then IsGradeNotation(q[2..]) else IsGradeNotation(q[1..])
  }

  /** The one mark a graded group stands for. */
  function GroupMark(q: seq<string>): int
    requires MarkGroup(q)
  {
    DigitsValue(q[0]) + (if StartsWith(q[1], "@") then GraceOf(q[1]) else 0)
  }

  predicate AllMarkGroups(qs: seq<seq<string>>) {
    qs == [] || (MarkGroup(qs[0]) && AllMarkGroups(qs[1..]))
  }

  function GroupMarks(qs: seq<seq<string>>): seq<int>
    requires AllMarkGroups(qs)
  {
    if qs == [] then [] else [GroupMark(qs[0])] + GroupMarks(qs[1..])
  }

  /** Grade notation at `j` followed by the end of the row or by a digit-only token is skipped as a whole. */
  lemma SkipsGradeNotation(tokens: seq<string>, j: nat, n: nat)
    requires j + n <= |tokens| && IsGradeNotation(tokens[j..j + n])
    requires j + n == |tokens| || IsDigits(tokens[j + n])
    ensures AfterGradeNotation(tokens, j) == j + n
  {
    var g := tokens[j..j + n];
    assert g[0] == tokens[j];
    assert n >= 2 ==> g[1] == tokens[j + 1];
    assert n >= 3 ==> g[2] == tokens[j + 2];
    if IsDigits(g[0]) {
      DigitTokenIsNoMarker(g[0]);
    }
    if j + n < |tokens| {
      DigitTokenIsNoMarker(tokens[j + n]);
    }
  }

  /** A graded group is read as exactly one mark, its grade point and credit points included. */
  lemma MarkGroupStep(tokens: seq<string>, i: nat, n: nat)
    requires i + n <= |tokens| && MarkGroup(tokens[i..i + n])
    requires i + n == |tokens| || IsDigits(tokens[i + n])
    ensures MarkStepAt(tokens, i) == Mark(GroupMark(tokens[i..i + n]), i + n)
  {
    var q := tokens[i..i + n];
    assert q[0] == tokens[i] && q[1] == tokens[i + 1];
    DigitTokenIsNoMarker(tokens[i]);
    if StartsWith(q[1], "@") {
      assert tokens[i + 2..i + n] == q[2..];
      SkipsGradeNotation(tokens, i + 2, n - 2);
    } else {
      assert tokens[i + 1..i + n] == q[1..];
      SkipsGradeNotation(tokens, i + 1, n - 1);
    }
  }

  lemma ScanPastMarkGroup(tokens: seq<string>, i: nat, n: nat, acc: seq<int>)
    requires i + n <= |tokens| && MarkGroup(tokens[i..i + n])
    requires i + n == |tokens| || IsDigits(tokens[i + n])
    ensures ScanMarks(tokens, i, acc) == ScanMarks(tokens, i + n, acc + [GroupMark(tokens[i..i + n])])
  {
    MarkGroupStep(tokens, i, n);
  }

  /** In a row of graded groups, the token after the first group is the end of the row or the next group's mark. */
  lemma NextGroupStartsWithMark(tokens: seq<string>, i: nat, qs: seq<seq<string>>)
    requires i <= |tokens| && tokens[i..] == Flatten(qs) && AllMarkGroups(qs) && qs != []
    ensures i + |qs[0]| <= |tokens| && tokens[i..i + |qs[0]|] == qs[0]
    ensures i + |qs[0]| == |tokens| || IsDigits(tokens[i + |qs[0]|])
    ensures tokens[i + |qs[0]|..] == Flatten(qs[1..]) && AllMarkGroups(qs[1..])
  {
    FlattenCons(tokens, i, qs);
    if qs[1..] != [] {
      FlattenCons(tokens, i + |qs[0]|, qs[1..]);
      assert tokens[i + |qs[0]|] == tokens[i + |qs[0]|..i + |qs[0]| + |qs[1]|][0];
    } else {
      assert Flatten(qs[1..]) == [];
    }
  }

  /** The groups of `qs` lie one after another from `i` to the end of `tokens`, each followed by the end of the row or a digit-only token. */
  ghost predicate GroupsFrom(tokens: seq<string>, i: nat, qs: seq<seq<string>>)
    decreases |qs|
  {
    if qs == [] then i == |tokens|
    else
      && i + |qs[0]| <= |tokens| && tokens[i..i + |qs[0]|] == qs[0] && MarkGroup(qs[0])
      && (i + |qs[0]| == |tokens| || IsDigits(tokens[i + |qs[0]|]))
      && GroupsFrom(tokens, i + |qs[0]|, qs[1..])
  }

  lemma {:induction false} FlattenGroupsFrom(tokens: seq<string>, i: nat, qs: seq<seq<string>>)
    requires i <= |tokens| && tokens[i..] == Flatten(qs) && AllMarkGroups(qs)
    ensures GroupsFrom(tokens, i, qs)
    decreases |qs|
  {
    if qs == [] {
      assert |tokens[i..]| == |Flatten(qs)| == 0;
    } else {
      NextGroupStartsWithMark(tokens, i, qs);
      FlattenGroupsFrom(tokens, i + |qs[0]|, qs[1..]);
    }
  }

  /**
   * One mark per group: a row made of graded groups gives exactly one mark
   * per group, in order, whether or not the group carries a grade point.
   */
  lemma ScanMarkGroups(tokens: seq<string>, i: nat, qs: seq<seq<string>>, acc: seq<int>)
    requires i <= |tokens| && tokens[i..] == Flatten(qs) && AllMarkGroups(qs)
    ensures ScanMarks(tokens, i, acc) == Some(acc + GroupMarks(qs))
  {
    FlattenGroupsFrom(tokens, i, qs);
    ScanGroupsFrom(tokens, i, qs, acc);
  }

  lemma {:induction false} ScanGroupsFrom(tokens: seq<string>, i: nat, qs: seq<seq<string>>, acc: seq<int>)
    requires i <= |tokens| && GroupsFrom(tokens, i, qs) && AllMarkGroups(qs)
    ensures ScanMarks(tokens, i, acc) == Some(acc + GroupMarks(qs))
    decreases |qs|
  {
    if qs == [] {
      assert acc + GroupMarks(qs) == acc;
    } else {
      ScanGroupsFrom(tokens, i + |qs[0]|, qs[1..], acc + [GroupMark(qs[0])]);
      ScanGroupStep(tokens, i, qs, acc);
    }
  }

  /** The inductive step of `ScanGroupsFrom`: scanning the first group leaves the scan of the rest. */
  lemma ScanGroupStep(tokens: seq<string>, i: nat, qs: seq<seq<string>>, acc: seq<int>)
    requires qs != [] && AllMarkGroups(qs)
    requires i + |qs[0]| <= |tokens| && tokens[i..i + |qs[0]|] == qs[0]
    requires i + |qs[0]| == |tokens| || IsDigits(tokens[i + |qs[0]|])
    requires ScanMarks(tokens, i + |qs[0]|, acc + [GroupMark(qs[0])]) == Some(acc + [GroupMark(qs[0])] + GroupMarks(qs[1..]))
    ensures ScanMarks(tokens, i, acc) == Some(acc + GroupMarks(qs))
  {
    ScanPastMarkGroup(tokens, i, |qs[0]|, acc);
    GroupMarksCons(acc, qs);
  }

  lemma GroupMarksCons(acc: seq<int>, qs: seq<seq<string>>)
    requires AllMarkGroups(qs) && qs != []
    ensures acc + [GroupMark(qs[0])] + GroupMarks(qs[1..]) == acc + GroupMarks(qs)
  {
  }

  /** The values of digit-only tokens. */
  function DigitsValues(ts: seq<string>): (vs: seq<nat>)
    ensures |vs| == |ts|
  {
    seq(|ts|, k requires 0 <= k < |ts| => DigitsValue(ts[k]))
  }

  /** A row of bare marks, each one digit-only token that `int` reads, gives each mark in turn. */
  lemma {:induction false} ScanBareMarks(tokens: seq<string>, i: nat, acc: seq<int>)
    requires i <= |tokens|
    requires forall k :: i <= k < |tokens| ==> IsDigits(tokens[k]) && |tokens[k]| <= IntMaxStrDigits
    ensures ScanMarks(tokens, i, acc) == Some(acc + DigitsValues(tokens[i..]))
    decreases |tokens| - i
  {
    if i == |tokens| {
      assert acc + DigitsValues(tokens[i..]) == acc;
    } else {
      var v := DigitsValue(tokens[i]);
      assert [tokens[i]] + tokens[i + 1..] == tokens[i..];
      if i + 1 < |tokens| {
        DigitTokenIsNoMarker(tokens[i + 1]);
        if i + 2 < |tokens| {
          DigitTokenIsNoMarker(tokens[i + 2]);
        }
      }
      assert AfterGradeNotation(tokens, i + 1) == i + 1;
      DigitTokenIsNoMarker(tokens[i]);
      assert MarkStepAt(tokens, i) == Mark(v, i + 1);
      ScanBareMarks(tokens, i + 1, acc + [v]);
      DigitsValuesCons(tokens, i, acc);
    }
  }

  lemma DigitsValuesCons(tokens: seq<string>, i: nat, acc: seq<int>)
    requires i < |tokens|
    ensures acc + [DigitsValue(tokens[i])] + DigitsValues(tokens[i + 1..]) == acc + DigitsValues(tokens[i..])
  {
    assert DigitsValues(tokens[i..]) == [DigitsValue(tokens[i])] + DigitsValues(tokens[i + 1..]);
  }

  /**
   * Where a bare mark is followed by a mark with a standalone `P` or `F`,
   * the second mark is read as the first one's grade point and dropped.
   */
  lemma BareMarkBeforeGradedMark(tokens: seq<string>, i: nat)
    requires i + 3 <= |tokens|
    requires IsDigits(tokens[i]) && |tokens[i]| <= IntMaxStrDigits
    requires IsDigits(tokens[i + 1]) && IsPassFail(tokens[i + 2])
    requires i + 3 == |tokens| || IsDigits(tokens[i + 3])
    ensures MarkStepAt(tokens, i) == Mark(DigitsValue(tokens[i]), i + 3)
  {
    DigitTokenIsNoMarker(tokens[i]);
    DigitTokenIsNoMarker(tokens[i + 1]);
    if i + 3 < |tokens| {
      DigitTokenIsNoMarker(tokens[i + 3]);
    }
  }

  /**
   * A result word is four or six letters long and does not start with `(`, so
   * it is never a bracketed count and never a bracketed count glued to a
   * result word: the two summary forms cannot both match one token.
   */
  lemma ResultWordShape(w: string)
    requires IsResultWord(w)
    ensures |w| == 4 || |w| == 6
    ensures w[0] != '('
    ensures !IsBracketedCount(w) && !IsBracketedResult(w)
  {
    assert Upper(w)[0] == UpperChar(w[0]);
    assert "PASS"[0] == 'P' && "FAILED"[0] == 'F' && "FAIL"[0] == 'F';
    var k := CloseIndex(w);
    if k < |w| {
      assert w[..k + 1][0] == w[0];
    }
  }

  /**
   * The row's `(N) PASS|FAILED|FAIL` summary, as two tokens at the end, is
   * cut off before the scan, so its count is never read as a mark.
   */
  lemma SummaryIsCutOff(body: seq<string>, count: string, word: string)
    requires IsBracketedCount(count) && IsResultWord(word)
    requires |body| >= 1 && body[|body| - 1] != "..."
    requires !(|body| >= 2 && body[|body| - 2] == "..." && body[|body| - 1] == "P")
    ensures DropTrailing(DropPlaceholderPass(DropResult(DropTrailing(body + [count, word], "MARKS"))), "...") == body
  {
    var t := body + [count, word];
    ResultWordShape(word);
    assert t[|t| - 1] == word && t[|t| - 2] == count;
    assert DropTrailing(t, "MARKS") == t;
    assert t[..|t| - 2] == body;
  }
}
