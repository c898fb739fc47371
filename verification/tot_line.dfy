/**
 * The totals row (`TOT ...`): per-subject groups
 * `total[+] [@grace] gp grade[+] credits creditPoints`, followed by the sum
 * of credits, the sum of credit points and the SGPA. The SGPA and the two sums
 * are peeled off the end first; the rest is scanned left to right by a
 * lenient state machine that skips or resynchronises on tokens that do not
 * fit.
 */
module TotLine {
  import opened Wrappers
  import opened Text
  import opened Numbers

  /** One subject's partial record as read from the totals row. */
  datatype TotGroup = TotGroup(total: int, gp: nat, grade: string, credits: Decimal, creditPoints: Decimal)

  /** The regex `^\d+\+?$`: a subject total, `+` marking grace. */
  predicate IsTotalToken(t: string) {
    IsDigits(t) || (|t| > 1 && t[|t| - 1] == '+' && IsDigits(t[..|t| - 1]))
  }

  /** `total_str.replace('+', '')` on a total token. */
  function TotalDigits(t: string): (d: string)
    requires IsTotalToken(t)
    ensures IsDigits(d) && |d| <= |t| <= |d| + 1
  {
    if IsDigits(t) then t else t[..|t| - 1]
  }

  /** The regex `^[ABCDFO][+]?$`. */
  predicate IsGrade(g: string) {
    (|g| == 1 || (|g| == 2 && g[1] == '+')) && g[0] in "ABCDFO"
  }

  /**
   * The end of the row: when the last token parses as a number in [0, 10]
   * it is the SGPA and is removed, and then the two tokens before it are
   * removed as the credit-point and credit sums, each only if it parses.
   * The result is the tokens left for the group scan and the SGPA.
   */
  function PeelSummary(tokens: seq<string>): (r: (seq<string>, Decimal))
    ensures |r.0| <= |tokens| && r.0 == tokens[..|r.0|] && |tokens| - 3 <= |r.0|
    ensures |r.0| < |tokens| <==>
              |tokens| > 0 && ParseFloat(tokens[|tokens| - 1]).Some?
              && InZeroTen(ParseFloat(tokens[|tokens| - 1]).value)
    ensures |r.0| < |tokens| ==> r.1 == ParseFloat(tokens[|tokens| - 1]).value
    ensures |r.0| == |tokens| ==> r.1 == Zero
    ensures InZeroTen(r.1)
  {
    if |tokens| == 0 then (tokens, Zero)
    else match ParseFloat(tokens[|tokens| - 1])
      case None => (tokens, Zero)
      case Some(v) =>
        if !InZeroTen(v) then (tokens, Zero)
        else
          var t1 := tokens[..|tokens| - 1];
          var t2 := if |t1| > 0 && ParseFloat(t1[|t1| - 1]).Some? then t1[..|t1| - 1] else t1;
          var t3 := if |t2| > 0 && ParseFloat(t2[|t2| - 1]).Some? then t2[..|t2| - 1] else t2;
          (t3, v)
  }

  /** What one pass of the scan loop, started at a given index, does. */
  datatype Step = Skip(next: nat) | Emit(group: TotGroup, next: nat) | Stop

  /**
   * One pass of the scan loop at index `i`: `Skip(n)` when it continues at
   * `n` without recording a group (a `...` placeholder, a token that is not a
   * total, a value that does not parse, a malformed grade), `Emit(g, n)` when
   * it records `g`, `Stop` when the row ends inside a group (the `break`s).
   * The loop always moves forward, and a recorded group has a valid grade and
   * spans at least five tokens.
   */
  function StepAt(tokens: seq<string>, i: nat): (s: Step)
    requires i < |tokens|
    ensures s.Skip? ==> i < s.next <= |tokens|
    ensures s.Emit? ==> i + 5 <= s.next <= |tokens| && IsGrade(s.group.grade)
  {
    if tokens[i] == "..." || !IsTotalToken(tokens[i]) then Skip(i + 1)
    else match ParseDigits(TotalDigits(tokens[i]))
    case None => Skip(i + 1)
    case Some(total) =>
      if i + 1 < |tokens| && StartsWith(tokens[i + 1], "@") then
        match ParseInt(tokens[i + 1][1..])
        case None => Skip(i + 2)
        case Some(grace) => GradePointStep(tokens, i, i + 2, total + grace)
      else GradePointStep(tokens, i, i + 1, total)
  }

  /** The group begun at `i` from its grade point at `j` on; a token that is not digits is where the scan resumes. */
  function GradePointStep(tokens: seq<string>, i: nat, j: nat, total: int): (s: Step)
    requires i < j <= |tokens|
    ensures s.Skip? ==> i < s.next <= |tokens|
    ensures s.Emit? ==> i + 5 <= s.next <= |tokens| && IsGrade(s.group.grade)
  {
    if j >= |tokens| || !IsDigits(tokens[j]) then Skip(j)
    else match ParseDigits(tokens[j])
    case None => Skip(j + 1)
    case Some(gp) =>
      if j + 1 >= |tokens| then Stop
      else
        var plus := j + 2 < |tokens| && tokens[j + 2] == "+";
        var grade := if plus then tokens[j + 1] + "+" else tokens[j + 1];
        var k := if plus then j + 3 else j + 2;
        if !IsGrade(grade) then Skip(k)
        else CreditsStep(tokens, i, k, total, gp, grade)
  }

  /** The group begun at `i` from its credits at `k` on: recorded when credits and credit points both parse. */
  function CreditsStep(tokens: seq<string>, i: nat, k: nat, total: int, gp: nat, grade: string): (s: Step)
    requires i + 3 <= k <= |tokens| && IsGrade(grade)
    ensures s.Skip? ==> i < s.next <= |tokens|
    ensures s.Emit? ==> i + 5 <= s.next <= |tokens| && IsGrade(s.group.grade)
  {
    if k >= |tokens| then Stop
    else match ParseFloat(tokens[k])
    case None => Skip(k + 1)
    case Some(credits) =>
      if k + 1 >= |tokens| then Stop
      else match ParseFloat(tokens[k + 1])
      case None => Skip(k + 2)
      case Some(cp) => Emit(TotGroup(total, gp, grade, credits, cp), k + 2)
  }

  /** The groups the scan loop records from index `i` on, after the groups `acc`. */
  function ScanGroups(tokens: seq<string>, i: nat, acc: seq<TotGroup>): seq<TotGroup>
    requires i <= |tokens|
    decreases |tokens| - i
  {
    if i == |tokens| then acc
    else match StepAt(tokens, i)
      case Skip(next) => ScanGroups(tokens, next, acc)
      case Emit(g, next) => ScanGroups(tokens, next, acc + [g])
      case Stop => acc
  }

  /**
   * `parse_tot_line`: the subject groups of a totals row and its SGPA. Every
   * group has a valid grade and used five tokens or more.
   */
  method ParseTotLine(line: string) returns (subjects: seq<TotGroup>, sgpa: Decimal)
    ensures var peeled := PeelSummary(RowTokens(line, "TOT"));
            subjects == ScanGroups(peeled.0, 0, []) && sgpa == peeled.1
    ensures InZeroTen(sgpa)
    ensures 5 * |subjects| <= |RowTokens(line, "TOT")|
    ensures forall k :: 0 <= k < |subjects| ==> IsGrade(subjects[k].grade)
  {
    var tokens := RowTokens(line, "TOT");
    var rest;
    rest, sgpa := PeelSummaryTokens(tokens);
    subjects := ScanTotGroups(rest);
    ScanGroupsGrows(rest, 0, []);
  }

  /** The first part of `parse_tot_line`: the SGPA and the two sums come off the end of the row. */
  method PeelSummaryTokens(all: seq<string>) returns (tokens: seq<string>, sgpa: Decimal)
    ensures (tokens, sgpa) == PeelSummary(all)
  {
    tokens := all;
    sgpa := Zero;
    if |tokens| > 0 {
      var last := ParseFloat(tokens[|tokens| - 1]);
      if last.Some? && InZeroTen(last.value) {
        sgpa := last.value;
        tokens := tokens[..|tokens| - 1];
        if |tokens| > 0 && ParseFloat(tokens[|tokens| - 1]).Some? {
          tokens := tokens[..|tokens| - 1];
        }
        if |tokens| > 0 && ParseFloat(tokens[|tokens| - 1]).Some? {
          tokens := tokens[..|tokens| - 1];
        }
      }
    }
  }

  /** The scan loop of `parse_tot_line` over the tokens left once the SGPA and the sums are peeled off. */
  method ScanTotGroups(tokens: seq<string>) returns (subjects: seq<TotGroup>)
    ensures subjects == ScanGroups(tokens, 0, [])
  {
    subjects := [];
    var i := 0;
    while i < |tokens|
      invariant i <= |tokens|
      invariant ScanGroups(tokens, i, subjects) == ScanGroups(tokens, 0, [])
      decreases |tokens| - i
    {
      var step := ScanStep(tokens, i);
      match step
      case Skip(next) => i := next;
      case Emit(g, next) =>
        subjects := subjects + [g];
        i := next;
      case Stop => break;
    }
  }

  /**
   * The body of the scan loop at `start`, token by token; each `return` is
   * one of its `continue`s (`Skip`), the `append` (`Emit`) or one of its
   * `break`s (`Stop`). A value that does not parse sends the scan one token
   * past it, as the `except` clause does.
   */
  method ScanStep(tokens: seq<string>, start: nat) returns (step: Step)
    requires start < |tokens|
    ensures step == StepAt(tokens, start)
  {
    var i := start;
    if tokens[i] == "..." || !IsTotalToken(tokens[i]) {
      return Skip(i + 1);
    }
    var totalParsed := ParseDigits(TotalDigits(tokens[i]));
    if totalParsed.None? {
      return Skip(i + 1);
    }
    var total: int := totalParsed.value;
    i := i + 1;
    if i < |tokens| && StartsWith(tokens[i], "@") {
      var grace := ParseInt(tokens[i][1..]);
      if grace.None? {
        return Skip(i + 1);
      }
      total := total + grace.value;
      i := i + 1;
    }
    step := ScanGradePoint(tokens, start, i, total);
  }

  /** The loop body from the grade point at `i` on, for the group begun at `start`. */
  method ScanGradePoint(tokens: seq<string>, start: nat, i: nat, total: int) returns (step: Step)
    requires start < i <= |tokens|
    ensures step == GradePointStep(tokens, start, i, total)
  {
    var i := i;
    if i >= |tokens| || !IsDigits(tokens[i]) {
      return Skip(i);
    }
    var gpParsed := ParseDigits(tokens[i]);
    if gpParsed.None? {
      return Skip(i + 1);
    }
    var gp := gpParsed.value;
    i := i + 1;
    if i >= |tokens| {
      return Stop;
    }
    var grade := tokens[i];
    i := i + 1;
    if i < |tokens| && tokens[i] == "+" {
      grade := grade + "+";
      i := i + 1;
    }
    if !IsGrade(grade) {
      return Skip(i);
    }
    step := ScanCredits(tokens, start, i, total, gp, grade);
  }

  /** The loop body from the credits at `i` on, for the group begun at `start`. */
  method ScanCredits(tokens: seq<string>, start: nat, i: nat, total: int, gp: nat, grade: string) returns (step: Step)
    requires start + 3 <= i <= |tokens| && IsGrade(grade)
    ensures step == CreditsStep(tokens, start, i, total, gp, grade)
  {
    if i >= |tokens| {
      return Stop;
    }
    var credits := ParseFloat(tokens[i]);
    if credits.None? {
      return Skip(i + 1);
    }
    if i + 1 >= |tokens| {
      return Stop;
    }
    var creditPoints := ParseFloat(tokens[i + 1]);
    if creditPoints.None? {
      return Skip(i + 2);
    }
    return Emit(TotGroup(total, gp, grade, credits.value, creditPoints.value), i + 2);
  }

  /**
   * `r` is what a scan from index `i` with groups `acc` already recorded can
   * return: `acc` followed by new groups, each with a valid grade and each
   * built from at least five of the tokens from `i` on.
   */
  predicate Grows(tokens: seq<string>, i: nat, acc: seq<TotGroup>, r: seq<TotGroup>) {
    |acc| <= |r| && r[..|acc|] == acc && 5 * (|r| - |acc|) <= |tokens| - i
    && forall n :: |acc| <= n < |r| ==> IsGrade(r[n].grade)
  }

  /** What the scan returns extends `acc` with graded groups of five or more tokens each. */
  lemma {:induction false} ScanGroupsGrows(tokens: seq<string>, i: nat, acc: seq<TotGroup>)
    requires i <= |tokens|
    ensures Grows(tokens, i, acc, ScanGroups(tokens, i, acc))
    decreases |tokens| - i
  {
    if i < |tokens| {
      match StepAt(tokens, i)
      case Skip(next) => ScanGroupsGrows(tokens, next, acc);
      case Emit(g, next) =>
        var acc' := acc + [g];
        ScanGroupsGrows(tokens, next, acc');
        var r := ScanGroups(tokens, next, acc');
        assert r[..|acc|] == r[..|acc'|][..|acc|];
        forall n | |acc| <= n < |r| ensures IsGrade(r[n].grade) {
          if n < |acc'| { assert r[n] == r[..|acc'|][n]; }
        }
      case Stop =>
    }
  }

  /**
   * A plain well-formed group: a total, a grade point, a grade, credits and
   * credit points, each as the scan expects it.
   */
  predicate WellFormedGroup(q: seq<string>) {
    |q| == 5 && IsDigits(q[0]) && |q[0]| <= IntMaxStrDigits && IsDigits(q[1]) && |q[1]| <= IntMaxStrDigits
    && IsGrade(q[2]) && ParseFloat(q[3]).Some? && ParseFloat(q[4]).Some?
  }

  /** The group a well-formed group of tokens stands for. */
  function GroupOf(q: seq<string>): TotGroup
    requires WellFormedGroup(q)
  {
    TotGroup(DigitsValue(q[0]), DigitsValue(q[1]), q[2], ParseFloat(q[3]).value, ParseFloat(q[4]).value)
  }

  /** Every group of `qs` is well formed. */
  predicate AllWellFormed(qs: seq<seq<string>>) {
    qs == [] || (WellFormedGroup(qs[0]) && AllWellFormed(qs[1..]))
  }

  function GroupsOf(qs: seq<seq<string>>): seq<TotGroup>
    requires AllWellFormed(qs)
  {
    if qs == [] then [] else [GroupOf(qs[0])] + GroupsOf(qs[1..])
  }

  /** A digit string is a total token standing for itself, and `int` reads it unless it is too long. */
  lemma DigitTokenFacts(t: string)
    requires IsDigits(t)
    ensures IsTotalToken(t) && TotalDigits(t) == t && t != "..." && !StartsWith(t, "@")
    ensures ParseDigits(t) == (if |t| <= IntMaxStrDigits then Some(DigitsValue(t)) else None)
  {
    DigitTokenIsNoMarker(t);
  }

  /** The scan reads a well-formed group in one pass and goes on right after it. */
  lemma WellFormedGroupStep(tokens: seq<string>, i: nat)
    requires i + 5 <= |tokens| && WellFormedGroup(tokens[i..i + 5])
    ensures StepAt(tokens, i) == Emit(GroupOf(tokens[i..i + 5]), i + 5)
  {
    var q := tokens[i..i + 5];
    assert q[0] == tokens[i] && q[1] == tokens[i + 1] && q[2] == tokens[i + 2];
    assert q[3] == tokens[i + 3] && q[4] == tokens[i + 4];
    DigitTokenFacts(q[0]);
    DigitTokenFacts(q[1]);
    assert tokens[i + 3] != "+";
    assert StepAt(tokens, i) == GradePointStep(tokens, i, i + 1, DigitsValue(q[0]));
  }

  lemma ScanPastWellFormedGroup(tokens: seq<string>, i: nat, acc: seq<TotGroup>)
    requires i + 5 <= |tokens| && WellFormedGroup(tokens[i..i + 5])
    ensures ScanGroups(tokens, i, acc) == ScanGroups(tokens, i + 5, acc + [GroupOf(tokens[i..i + 5])])
  {
    WellFormedGroupStep(tokens, i);
  }

  /**
   * A row made of well-formed groups is read group by group: the scan
   * records exactly the groups the tokens stand for, in order.
   */
  lemma {:induction false} ScanWellFormedGroups(tokens: seq<string>, i: nat, qs: seq<seq<string>>, acc: seq<TotGroup>)
    requires i <= |tokens| && tokens[i..] == Flatten(qs)
    requires AllWellFormed(qs)
    ensures ScanGroups(tokens, i, acc) == acc + GroupsOf(qs)
    decreases |qs|
  {
    if qs == [] {
      assert |tokens[i..]| == 0;
    } else {
      FlattenCons(tokens, i, qs);
      ScanPastWellFormedGroup(tokens, i, acc);
      ScanWellFormedGroups(tokens, i + 5, qs[1..], acc + [GroupOf(qs[0])]);
    }
  }

  /**
   * A group with `@g` grace marks after its total: the recorded total is the
   * total (its `+` dropped) plus `g`.
   */
  lemma GraceGroupStep(tokens: seq<string>, i: nat)
    requires i + 6 <= |tokens|
    requires IsTotalToken(tokens[i]) && |TotalDigits(tokens[i])| <= IntMaxStrDigits
    requires |tokens[i + 1]| > 1 && tokens[i + 1][0] == '@'
    requires IsDigits(tokens[i + 1][1..]) && |tokens[i + 1]| <= IntMaxStrDigits + 1
    requires IsDigits(tokens[i + 2]) && |tokens[i + 2]| <= IntMaxStrDigits && IsGrade(tokens[i + 3])
    requires ParseFloat(tokens[i + 4]).Some? && ParseFloat(tokens[i + 5]).Some?
    ensures StepAt(tokens, i)
            == Emit(TotGroup(DigitsValue(TotalDigits(tokens[i])) + DigitsValue(tokens[i + 1][1..]),
                             DigitsValue(tokens[i + 2]), tokens[i + 3],
                             ParseFloat(tokens[i + 4]).value, ParseFloat(tokens[i + 5]).value), i + 6)
  {
  }

  /** A group whose grade is malformed is dropped, and the scan resumes right after the grade. */
  lemma MalformedGradeSkipped(tokens: seq<string>, i: nat)
    requires i + 4 <= |tokens|
    requires IsDigits(tokens[i]) && |tokens[i]| <= IntMaxStrDigits
    requires IsDigits(tokens[i + 1]) && |tokens[i + 1]| <= IntMaxStrDigits
    requires !IsGrade(tokens[i + 2]) && tokens[i + 3] != "+"
    ensures StepAt(tokens, i) == Skip(i + 3)
  {
    DigitTokenFacts(tokens[i]);
    DigitTokenFacts(tokens[i + 1]);
  }

  /** Credits, credit points and an SGPA in [0, 10] at the end of a row are all peeled off. */
  lemma PeelThreeNumbers(body: seq<string>, a: string, b: string, c: string)
    requires ParseFloat(a).Some? && ParseFloat(b).Some? && ParseFloat(c).Some? && InZeroTen(ParseFloat(c).value)
    ensures PeelSummary(body + [a, b, c]) == (body, ParseFloat(c).value)
  {
    var tokens := body + [a, b, c];
    assert tokens[..|tokens| - 1] == body + [a, b];
    assert (body + [a, b])[..|body| + 1] == body + [a];
    assert (body + [a])[..|body|] == body;
  }

  /**
   * A totals row made of well-formed groups followed by the credits sum, the
   * credit-point sum and an SGPA in [0, 10] gives back exactly those groups
   * and that SGPA.
   */
  lemma TotRowRoundTrip(qs: seq<seq<string>>, a: string, b: string, c: string)
    requires AllWellFormed(qs)
    requires ParseFloat(a).Some? && ParseFloat(b).Some? && ParseFloat(c).Some? && InZeroTen(ParseFloat(c).value)
    ensures var peeled := PeelSummary(Flatten(qs) + [a, b, c]);
            ScanGroups(peeled.0, 0, []) == GroupsOf(qs) && peeled.1 == ParseFloat(c).value
  {
    PeelThreeNumbers(Flatten(qs), a, b, c);
    ScanWellFormedGroups(Flatten(qs), 0, qs, []);
  }
}
