/**
 * One student block turned into a student record: the header, the last
 * `T1`/`O1`/`E1`/`I1`/`TOT` rows, one subject per totals group (at most
 * fourteen) with its component marks looked up through the index tables,
 * the summary line and the KT summary.
 */
module StudentBlock {
  import opened Wrappers
  import opened Text
  import opened Numbers
  import opened TotLine
  import opened ComponentLine
  import opened HeaderLine
  import opened Summary
  import opened Subjects

  /** The maximum marks every record carries. */
  const MaxMarks: nat := 800

  /** `s[:n]`. */
  function Take<T>(s: seq<T>, n: nat): (r: seq<T>)
    ensures |r| == if |s| <= n then |s| else n
    ensures r == s[..|r|]
  {
    if |s| <= n then s else s[..n]
  }

  /** The marks of a component row, as the component scan reads them; `None` when `int` raises. */
  function ComponentMarks(line: string, prefix: string): Option<seq<int>> {
    ScanMarks(ComponentTokens(line, prefix), 0, [])
  }

  /** The subject groups and the SGPA of a totals row, as the totals scan reads them. */
  function TotRow(line: string): (seq<TotGroup>, Decimal) {
    var peeled := PeelSummary(RowTokens(line, "TOT"));
    (ScanGroups(peeled.0, 0, []), peeled.1)
  }

  /** What the row loop keeps: the last component marks of each kind (cut), the last totals groups and SGPA. */
  datatype Rows = Rows(t1: seq<int>, o1: seq<int>, e1: seq<int>, i1: seq<int>, tot: seq<TotGroup>, sgpa: Decimal)

  /** Before the first row: no marks, no groups, SGPA 0.0. */
  const NoRows: Rows := Rows([], [], [], [], [], Zero)

  /** The cuts: term work 8, oral 3, external 6, internal 7 marks at most. */
  predicate WithinCuts(rows: Rows) {
    |rows.t1| <= 8 && |rows.o1| <= 3 && |rows.e1| <= 6 && |rows.i1| <= 7
  }

  /** Which row a stripped line is, by its first characters. */
  datatype RowKind = TermWorkRow | OralRow | ExternalRow | InternalRow | TotalsRow | OtherRow

  function KindOf(s: string): RowKind {
    if StartsWith(s, "T1 ") then TermWorkRow
    else if StartsWith(s, "O1 ") then OralRow
    else if StartsWith(s, "E1 ") then ExternalRow
    else if StartsWith(s, "I1 ") then InternalRow
    else if StartsWith(s, "TOT ") then TotalsRow
    else OtherRow
  }

  /** The marker word a component row starts with. */
  function Prefix(k: RowKind): string {
    match k
    case TermWorkRow => "T1"
    case OralRow => "O1"
    case ExternalRow => "E1"
    case InternalRow => "I1"
    case _ => "TOT"
  }

  /** How many marks of a component row are kept. */
  function Cut(k: RowKind): nat {
    match k
    case TermWorkRow => 8
    case OralRow => 3
    case ExternalRow => 6
    case InternalRow => 7
    case _ => 0
  }

  /** The rows with the marks of a component row of kind `k` replaced. */
  function WithMarks(rows: Rows, k: RowKind, m: seq<int>): Rows {
    match k
    case TermWorkRow => rows.(t1 := m)
    case OralRow => rows.(o1 := m)
    case ExternalRow => rows.(e1 := m)
    case InternalRow => rows.(i1 := m)
    case _ => rows
  }

  /**
   * One pass of the row loop: a stripped line starting with `T1 `, `O1 `,
   * `E1 `, `I1 ` or `TOT ` replaces that row's data (a component row cut to
   * 8, 3, 6 or 7 marks); `None` when reading the row raises.
   */
  function RowStep(rows: Rows, line: string): Option<Rows> {
    var s := Strip(line);
    var k := KindOf(s);
    if k == OtherRow then Some(rows)
    else if k == TotalsRow then
      var t := TotRow(s);
      Some(rows.(tot := t.0, sgpa := t.1))
    else match ComponentMarks(s, Prefix(k))
      case None => None
      case Some(m) => Some(WithMarks(rows, k, Take(m, Cut(k))))
  }

  /** The row loop from line `i` on. */
  function RowsFrom(lines: seq<string>, i: nat, rows: Rows): Option<Rows>
    requires i <= |lines|
    decreases |lines| - i
  {
    if i == |lines| then Some(rows)
    else match RowStep(rows, lines[i])
      case None => None
      case Some(next) => RowsFrom(lines, i + 1, next)
  }

  /** The row loop of `_parse_student_block`. */
  method ScanRows(lines: seq<string>) returns (r: Option<Rows>)
    ensures r == RowsFrom(lines, 0, NoRows)
  {
    var rows := NoRows;
    var i := 0;
    while i < |lines|
      invariant i <= |lines|
      invariant RowsFrom(lines, i, rows) == RowsFrom(lines, 0, NoRows)
      decreases |lines| - i
    {
      var next := ReadRow(rows, lines[i]);
      if next.None? {
        return None;
      }
      rows := next.value;
      i := i + 1;
    }
    return Some(rows);
  }

  /** The body of the row loop, reading the row with the component and totals scans. */
  method ReadRow(rows: Rows, line: string) returns (r: Option<Rows>)
    ensures r == RowStep(rows, line)
  {
    var s := Strip(line);
    var k := KindOf(s);
    if k == OtherRow {
      r := Some(rows);
    } else if k == TotalsRow {
      var groups, sgpa := ParseTotLine(s);
      r := Some(rows.(tot := groups, sgpa := sgpa));
    } else {
      var marks := ParseComponentLine(s, Prefix(k));
      if marks.None? {
        return None;
      }
      r := Some(WithMarks(rows, k, Take(marks.value, Cut(k))));
    }
  }

  /** `SUBJECT_NAMES.get(code, code)`: the name of the first subject with that code, else the code. */
  function TitleOf(code: string, k: nat := 0): string
    requires k <= NumSubjects
    decreases NumSubjects - k
  {
    if k == NumSubjects then code
    else if SubjectCodes[k] == code then SubjectTitles[k]
    else TitleOf(code, k + 1)
  }

  /** Subject `i` of the block, from its totals group and its component marks. */
  function SubjectAt(rows: Rows, i: nat): SubjectRecord
    requires i < |rows.tot| && i < NumSubjects
  {
    var g := rows.tot[i];
    var c := Components(ComponentMark(rows.t1, TermWorkIndices, i), ComponentMark(rows.o1, OralIndices, i),
                        ComponentMark(rows.e1, ExternalIndices, i), ComponentMark(rows.i1, InternalIndices, i));
    var code := SubjectCodes[i];
    SubjectRecord(code, TitleOf(code),
                  SubjectMarks(c, g.total, g.gp, g.grade, g.credits, g.creditPoints, if g.grade == "F" then "F" else "P"),
                  IsKt(g), SubjectKtType(g, c))
  }

  /** The number of subjects: one per totals group, at most fourteen. */
  function SubjectCount(rows: Rows): nat {
    if |rows.tot| <= NumSubjects then |rows.tot| else NumSubjects
  }

  /** The subjects of the block, in totals-row order. */
  function SubjectsOf(rows: Rows): seq<SubjectRecord> {
    seq(SubjectCount(rows), i requires 0 <= i < SubjectCount(rows) => SubjectAt(rows, i))
  }

  /** The subject loop of `_parse_student_block`. */
  method BuildSubjects(rows: Rows) returns (subjects: seq<SubjectRecord>)
    ensures subjects == SubjectsOf(rows)
  {
    subjects := [];
    var n := SubjectCount(rows);
    for i := 0 to n
      invariant |subjects| == i
      invariant forall k :: 0 <= k < i ==> subjects[k] == SubjectAt(rows, k)
    {
      subjects := subjects + [SubjectAt(rows, i)];
    }
  }

  /** `sum(s['marks']['total'] for s in subjects)`. */
  function TotalOf(ss: seq<SubjectRecord>): int {
    if ss == [] then 0 else ss[0].marks.total + TotalOf(ss[1..])
  }

  /** The credits of the subjects, in order. */
  function CreditsOf(ss: seq<SubjectRecord>): seq<Decimal> {
    if ss == [] then [] else [ss[0].marks.credits] + CreditsOf(ss[1..])
  }

  /** The credit points of the subjects, in order. */
  function CreditPointsOf(ss: seq<SubjectRecord>): seq<Decimal> {
    if ss == [] then [] else [ss[0].marks.creditPoints] + CreditPointsOf(ss[1..])
  }

  /** A student record. */
  datatype StudentRecord = StudentRecord(
    seatNumber: string,
    name: string,
    gender: Option<string>,
    ern: Option<string>,
    college: string,
    status: string,
    subjects: seq<SubjectRecord>,
    totalMarks: int,
    maxMarks: nat,
    result: string,
    sgpa: Decimal,
    totalCredits: Decimal,
    totalCreditPoints: Decimal,
    kt: KtSummary)

  /** What a block gives: no record, a record, or an exception (from `int` on an overlong number). */
  datatype BlockOutcome = NoRecord | Parsed(student: StudentRecord) | Raised

  /** The total marks: the summary's when it is not 0, else the sum of the subject totals. */
  function TotalMarks(summary: Summary, subjects: seq<SubjectRecord>): int {
    if summary.totalMarks != 0 then summary.totalMarks else TotalOf(subjects)
  }

  /** The record built from the header, the subjects and the summary. */
  function Assemble(h: HeaderInfo, subjects: seq<SubjectRecord>, summary: Summary): StudentRecord {
    StudentRecord(h.seatNumber, h.name, h.gender, h.ern, h.college, h.status, subjects,
                  TotalMarks(summary, subjects), MaxMarks, summary.result, summary.sgpa,
                  Sum(CreditsOf(subjects)), Sum(CreditPointsOf(subjects)), DetectKt(subjects))
  }

  /** `_parse_student_block` on the filtered lines of a block and its pending ERN. */
  function StudentBlockOf(lines: seq<string>, pendingErn: Option<string>): BlockOutcome {
    if |lines| < 2 then NoRecord
    else match ParseHeaderLine(lines[0], pendingErn)
      case None => NoRecord
      case Some(h) =>
        match RowsFrom(lines, 0, NoRows)
        case None => Raised
        case Some(rows) =>
          if rows.tot == [] then NoRecord
          else match SummaryFrom(lines, 0, rows.sgpa)
            case None => Raised
            case Some(summary) => Parsed(Assemble(h, SubjectsOf(rows), summary))
  }

  /** `_parse_student_block`. */
  method ParseStudentBlock(lines: seq<string>, pendingErn: Option<string>) returns (r: BlockOutcome)
    ensures r == StudentBlockOf(lines, pendingErn)
  {
    if |lines| < 2 {
      return NoRecord;
    }
    var header := ParseHeaderLine(lines[0], pendingErn);
    if header.None? {
      return NoRecord;
    }
    var rows := ScanRows(lines);
    if rows.None? {
      return Raised;
    }
    if rows.value.tot == [] {
      return NoRecord;
    }
    var subjects := BuildSubjects(rows.value);
    var summary := ParseSummary(lines, rows.value.sgpa);
    if summary.None? {
      return Raised;
    }
    return Parsed(Assemble(header.value, subjects, summary.value));
  }

  // Properties

  /** Replacing a component row by at most its cut keeps the lists within their cuts. */
  lemma WithMarksWithinCuts(rows: Rows, k: RowKind, m: seq<int>)
    requires WithinCuts(rows) && |m| <= Cut(k)
    ensures WithinCuts(WithMarks(rows, k, m))
  {
  }

  /** Every row step keeps the component lists within their cuts. */
  lemma RowStepWithinCuts(rows: Rows, line: string)
    requires WithinCuts(rows)
    ensures RowStep(rows, line).Some? ==> WithinCuts(RowStep(rows, line).value)
  {
    var s := Strip(line);
    var k := KindOf(s);
    if k != OtherRow && k != TotalsRow && ComponentMarks(s, Prefix(k)).Some? {
      WithMarksWithinCuts(rows, k, Take(ComponentMarks(s, Prefix(k)).value, Cut(k)));
    }
  }

  /** After the row loop, term work, oral, external and internal marks number at most 8, 3, 6 and 7. */
  lemma {:induction false} RowsWithinCuts(lines: seq<string>, i: nat, rows: Rows)
    requires i <= |lines| && WithinCuts(rows)
    ensures RowsFrom(lines, i, rows).Some? ==> WithinCuts(RowsFrom(lines, i, rows).value)
    decreases |lines| - i
  {
    if i < |lines| {
      RowStepWithinCuts(rows, lines[i]);
      if RowStep(rows, lines[i]).Some? {
        RowsWithinCuts(lines, i + 1, RowStep(rows, lines[i]).value);
      }
    }
  }

  /** A component row leaves the groups and SGPA as they were. */
  lemma ComponentStepKeepsTot(rows: Rows, line: string)
    requires KindOf(Strip(line)) != TotalsRow && RowStep(rows, line).Some?
    ensures RowStep(rows, line).value.tot == rows.tot && RowStep(rows, line).value.sgpa == rows.sgpa
  {
    var s := Strip(line);
    var k := KindOf(s);
    if k != OtherRow {
      var m := Take(ComponentMarks(s, Prefix(k)).value, Cut(k));
      assert RowStep(rows, line).value == WithMarks(rows, k, m);
    }
  }

  /** A `TOT ` row gives its own groups and SGPA. */
  lemma TotalsStep(rows: Rows, line: string)
    requires KindOf(Strip(line)) == TotalsRow
    ensures StartsWith(Strip(line), "TOT ")
    ensures RowStep(rows, line) == Some(rows.(tot := TotRow(Strip(line)).0, sgpa := TotRow(Strip(line)).1))
  {
  }

  /** A row step keeps the groups and SGPA unless the line is a `TOT ` row, which gives its own. */
  lemma RowStepTot(rows: Rows, line: string)
    requires RowStep(rows, line).Some?
    ensures var next := RowStep(rows, line).value;
            (next.tot == rows.tot && next.sgpa == rows.sgpa)
            || (StartsWith(Strip(line), "TOT ") && (next.tot, next.sgpa) == TotRow(Strip(line)))
  {
    if KindOf(Strip(line)) == TotalsRow {
      TotalsStep(rows, line);
    } else {
      ComponentStepKeepsTot(rows, line);
    }
  }

  /** The groups the loop ends with are the start's, or those of some `TOT ` line at or after `i`. */
  lemma {:induction false} TotFromTotLine(lines: seq<string>, i: nat, rows: Rows)
    requires i <= |lines| && RowsFrom(lines, i, rows).Some?
    ensures var r := RowsFrom(lines, i, rows).value;
            (r.tot == rows.tot && r.sgpa == rows.sgpa)
            || exists k :: i <= k < |lines| && StartsWith(Strip(lines[k]), "TOT ") && (r.tot, r.sgpa) == TotRow(Strip(lines[k]))
    decreases |lines| - i
  {
    if i < |lines| {
      var next := RowStep(rows, lines[i]).value;
      RowStepTot(rows, lines[i]);
      TotFromTotLine(lines, i + 1, next);
      var r := RowsFrom(lines, i, rows).value;
      assert r == RowsFrom(lines, i + 1, next).value;
      if !(r.tot == next.tot && r.sgpa == next.sgpa) {
        var k :| i + 1 <= k < |lines| && StartsWith(Strip(lines[k]), "TOT ") && (r.tot, r.sgpa) == TotRow(Strip(lines[k]));
      } else if !(next.tot == rows.tot && next.sgpa == rows.sgpa) {
        assert StartsWith(Strip(lines[i]), "TOT ") && (r.tot, r.sgpa) == TotRow(Strip(lines[i]));
      }
    }
  }

  /** Each code's name is the name at its position. */
  lemma TitleOfCode(i: nat)
    requires i < NumSubjects
    ensures TitleOf(SubjectCodes[i]) == SubjectTitles[i]
  {
    CodesDistinct();
    TitleFrom(i, 0);
  }

  lemma {:induction false} TitleFrom(i: nat, k: nat)
    requires k <= i < NumSubjects
    requires forall a, b :: 0 <= a < b < NumSubjects ==> SubjectCodes[a] != SubjectCodes[b]
    ensures TitleOf(SubjectCodes[i], k) == SubjectTitles[i]
    decreases NumSubjects - k
  {
    if k < i {
      TitleFrom(i, k + 1);
    }
  }

  /**
   * Subject `i` carries the code and name at position `i`, the totals group
   * at position `i`, an oral mark only for the three oral labs, and a KT
   * kind exactly when it is a KT.
   */
  lemma SubjectAtShape(rows: Rows, i: nat)
    requires i < |rows.tot| && i < NumSubjects
    ensures var s := SubjectAt(rows, i);
            s.code == SubjectCodes[i] && s.name == SubjectTitles[i]
            && s.marks.total == rows.tot[i].total && s.marks.grade == rows.tot[i].grade
            && (s.isKt <==> rows.tot[i].grade == "F" || rows.tot[i].gp == 0)
            && Classified(s)
            && (s.marks.components.oral.Some? ==> i == 7 || i == 8 || i == 12)
            && (s.marks.status == "F" <==> rows.tot[i].grade == "F")
  {
    TitleOfCode(i);
    OralOnlyForLabs(rows.o1, i);
  }

  /** A record comes only from a block with two lines or more, a header and totals groups; the rest give none unless they raise. */
  lemma BlockOutcomeCases(lines: seq<string>, pendingErn: Option<string>)
    ensures StudentBlockOf(lines, pendingErn).NoRecord? <==>
              |lines| < 2 || ParseHeaderLine(lines[0], pendingErn).None?
              || (RowsFrom(lines, 0, NoRows).Some? && RowsFrom(lines, 0, NoRows).value.tot == [])
    ensures StudentBlockOf(lines, pendingErn).Raised? ==>
              RowsFrom(lines, 0, NoRows).None? || SummaryFrom(lines, 0, RowsFrom(lines, 0, NoRows).value.sgpa).None?
  {
  }

  /** The subjects of the rows: one per totals group up to fourteen, each the subject at its position, each classified. */
  lemma SubjectsOfShape(rows: Rows)
    ensures var ss := SubjectsOf(rows);
            |ss| == (if |rows.tot| <= NumSubjects then |rows.tot| else NumSubjects)
            && (forall k :: 0 <= k < |ss| ==> ss[k] == SubjectAt(rows, k) && Classified(ss[k]))
  {
    var ss := SubjectsOf(rows);
    forall k | 0 <= k < |ss|
      ensures Classified(ss[k])
    {
      SubjectAtShape(rows, k);
    }
  }

  /** The record built from a header, the subjects of some rows and a summary. */
  lemma AssembleShape(h: HeaderInfo, rows: Rows, summary: Summary)
    ensures var s := Assemble(h, SubjectsOf(rows), summary);
            s.seatNumber == h.seatNumber && s.ern == h.ern && s.status == h.status
            && |s.subjects| == (if |rows.tot| <= NumSubjects then |rows.tot| else NumSubjects)
            && (forall k :: 0 <= k < |s.subjects| ==> s.subjects[k] == SubjectAt(rows, k) && Classified(s.subjects[k]))
            && s.maxMarks == 800 && s.result == summary.result && s.sgpa == summary.sgpa
            && s.totalMarks == (if summary.totalMarks != 0 then summary.totalMarks else TotalOf(s.subjects))
            && s.kt.internalKt + s.kt.externalKt + s.kt.termWorkKt + s.kt.oralKt == s.kt.totalKt
            && |s.kt.failedSubjects| == s.kt.totalKt
  {
    SubjectsOfShape(rows);
    KtSummaryConsistent(SubjectsOf(rows));
  }

  /**
   * A parsed record: the header's fields, one subject per totals group up
   * to fourteen, each classified, the maximum 800, the result and SGPA of
   * the summary, the total marks with their fallback, and a consistent KT
   * summary.
   */
  lemma ParsedRecord(lines: seq<string>, pendingErn: Option<string>)
    requires StudentBlockOf(lines, pendingErn).Parsed?
    ensures var s := StudentBlockOf(lines, pendingErn).student;
            var h := ParseHeaderLine(lines[0], pendingErn).value;
            var rows := RowsFrom(lines, 0, NoRows).value;
            var summary := SummaryFrom(lines, 0, rows.sgpa).value;
            s == Assemble(h, SubjectsOf(rows), summary) && |s.subjects| > 0
            && s.seatNumber == h.seatNumber && s.ern == h.ern && s.status == h.status
            && s.result == summary.result && s.sgpa == rows.sgpa
            && s.totalMarks == (if summary.totalMarks != 0 then summary.totalMarks else TotalOf(s.subjects))
  {
    var h := ParseHeaderLine(lines[0], pendingErn).value;
    var rows := RowsFrom(lines, 0, NoRows).value;
    var summary := SummaryFrom(lines, 0, rows.sgpa).value;
    SummaryResult(lines, 0, rows.sgpa);
    AssembleShape(h, rows, summary);
  }

  /** With no summary line the result is `FAILED` and the total marks are the sum of the subject totals. */
  lemma NoSummaryLineFallback(lines: seq<string>, pendingErn: Option<string>)
    requires StudentBlockOf(lines, pendingErn).Parsed?
    requires forall k :: 0 <= k < |lines| ==> MatchSummaryLine(lines[k]).None?
    ensures var s := StudentBlockOf(lines, pendingErn).student;
            s.result == "FAILED" && s.totalMarks == TotalOf(s.subjects)
  {
    var rows := RowsFrom(lines, 0, NoRows).value;
    SummaryWithoutSummaryLine(lines, 0, rows.sgpa);
  }

  /** The total credits are the exact sum of the subjects' credits. */
  lemma CreditsAdd(ss: seq<SubjectRecord>)
    ensures Value(Sum(CreditsOf(ss))) == ValueSum(CreditsOf(ss)) && |CreditsOf(ss)| == |ss|
  {
    SumValue(CreditsOf(ss));
    CreditsLength(ss);
  }

  lemma {:induction false} CreditsLength(ss: seq<SubjectRecord>)
    ensures |CreditsOf(ss)| == |ss|
  {
    if ss != [] {
      CreditsLength(ss[1..]);
    }
  }
}
