/**
 * The fourteen first-year subjects, the tables that place a subject's mark
 * in a sparse component row, and the KT (failed subject) classification.
 */
module Subjects {
  import opened Wrappers
  import opened Numbers
  import opened TotLine

  /** The subject codes in the order of the totals row. */
  const SubjectCodes: seq<string> := [
    "10411", "10412", "10413", "10414", "10415", "10416", "10417",
    "10418", "10419", "10420", "10421", "10422", "10423", "10424"]

  /** The subject names, position by position with `SubjectCodes`. */
  const SubjectTitles: seq<string> := [
    "Applied Mathematics-I",
    "Applied Physics",
    "Applied Chemistry",
    "Engineering Mechanics",
    "Basic Electrical & Electronics Engineering",
    "Applied Physics Lab",
    "Applied Chemistry Lab",
    "Engineering Mechanics Lab",
    "Basic Electrical & Electronics Lab",
    "Professional Communication Ethics",
    "Professional Communication Ethics TW",
    "Engineering Workshop-I",
    "C Programming",
    "Induction cum Universal Human Values"]

  const NumSubjects: nat := 14

  /** Subject ordinal to position in the `O1` (oral) row. */
  const OralIndices: map<nat, nat> := map[7 := 0, 8 := 1, 12 := 2]

  /** Subject ordinal to position in the `T1` (term work) row. */
  const TermWorkIndices: map<nat, nat> := map[0 := 0, 5 := 1, 6 := 2, 7 := 3, 8 := 4, 10 := 5, 11 := 6, 12 := 7]

  /** Subject ordinal to position in the `E1` (external exam) row. */
  const ExternalIndices: map<nat, nat> := map[0 := 0, 1 := 1, 2 := 2, 3 := 3, 4 := 4, 9 := 5]

  /** Subject ordinal to position in the `I1` (internal exam) row. */
  const InternalIndices: map<nat, nat> := map[0 := 0, 1 := 1, 2 := 2, 3 := 3, 4 := 4, 9 := 5, 13 := 6]

  /**
   * `table` pairs the subjects `ordinals` (in row order) one to one with the
   * positions 0 to `|ordinals| - 1` of a component row: subject
   * `ordinals[p]` takes the mark at position `p`, and no other subject has one.
   */
  predicate Places(table: map<nat, nat>, ordinals: seq<nat>) {
    (forall i :: i in table ==> i < NumSubjects && table[i] < |ordinals| && ordinals[table[i]] == i)
    && (forall p :: 0 <= p < |ordinals| ==> ordinals[p] in table && table[ordinals[p]] == p)
  }

  /** Such a table never sends two subjects to one position. */
  lemma PlacesOneToOne(table: map<nat, nat>, ordinals: seq<nat>, i: nat, j: nat)
    requires Places(table, ordinals) && i in table && j in table && i != j
    ensures table[i] != table[j]
  {
  }

  /** There are fourteen codes and names, and no code appears twice. */
  lemma CodesDistinct()
    ensures |SubjectCodes| == NumSubjects && |SubjectTitles| == NumSubjects
    ensures forall i, j :: 0 <= i < j < NumSubjects ==> SubjectCodes[i] != SubjectCodes[j]
  {
    forall i, j | 0 <= i < j < NumSubjects
      ensures SubjectCodes[i] != SubjectCodes[j]
    {
      var a, b := SubjectCodes[i], SubjectCodes[j];
      assert (a[3] as int - '0' as int) * 10 + (a[4] as int - '0' as int) == 11 + i;
      assert (b[3] as int - '0' as int) * 10 + (b[4] as int - '0' as int) == 11 + j;
    }
  }

  /** The term-work table uses exactly the 8 positions a `T1` row is cut to. */
  lemma TermWorkPlaces()
    ensures Places(TermWorkIndices, [0, 5, 6, 7, 8, 10, 11, 12])
  {
  }

  /** The oral table uses exactly the 3 positions an `O1` row is cut to. */
  lemma OralPlaces()
    ensures Places(OralIndices, [7, 8, 12])
  {
  }

  /** The external table uses exactly the 6 positions an `E1` row is cut to. */
  lemma ExternalPlaces()
    ensures Places(ExternalIndices, [0, 1, 2, 3, 4, 9])
  {
  }

  /** The internal table uses exactly the 7 positions an `I1` row is cut to. */
  lemma InternalPlaces()
    ensures Places(InternalIndices, [0, 1, 2, 3, 4, 9, 13])
  {
  }

  /**
   * The mark a sparse component row gives subject `i`: absent (`None`, not
   * zero) when the subject has no entry in the table or the row is too short.
   */
  function ComponentMark(marks: seq<int>, table: map<nat, nat>, i: nat): (r: Option<int>)
    ensures r.Some? <==> i in table && table[i] < |marks|
  {
    if i in table && table[i] < |marks| then Some(marks[table[i]]) else None
  }

  /** Only the three lab subjects with an oral exam (ordinals 7, 8 and 12) ever get an oral mark. */
  lemma OralOnlyForLabs(marks: seq<int>, i: nat)
    ensures ComponentMark(marks, OralIndices, i).Some? ==> i == 7 || i == 8 || i == 12
    ensures (i == 7 || i == 8 || i == 12) && |marks| >= 3 ==> ComponentMark(marks, OralIndices, i).Some?
  {
  }

  /** The theory-only subjects 10412 to 10415 (ordinals 1 to 4) get no term-work mark; the labs get no external mark. */
  lemma TableGaps(marks: seq<int>, i: nat)
    ensures 1 <= i <= 4 || i == 9 || i == 13 ==> ComponentMark(marks, TermWorkIndices, i).None?
    ensures 5 <= i <= 8 || 10 <= i ==> ComponentMark(marks, ExternalIndices, i).None?
  {
  }

  /** The component marks of one subject. */
  datatype Components = Components(termWork: Option<int>, oral: Option<int>, external: Option<int>, internal: Option<int>)

  /** The kind of a KT: which component failed, or the subject as a whole. */
  datatype KtType = External | Internal | TermWork | Oral | Overall

  /** A subject is a KT when its grade is `F` or its grade point is 0. */
  predicate IsKt(g: TotGroup) {
    g.grade == "F" || g.gp == 0
  }

  /**
   * `detect_subject_kt_type`: no KT unless the grade is `F` or the grade
   * point 0; otherwise the first component that is present and 0, in the
   * order external, internal, term work, oral, else the whole subject.
   */
  function SubjectKtType(g: TotGroup, c: Components): (r: Option<KtType>)
    ensures r.None? <==> !IsKt(g)
  {
    if g.grade != "F" && g.gp > 0 then None
    else if c.external == Some(0) then Some(External)
    else if c.internal == Some(0) then Some(Internal)
    else if c.termWork == Some(0) then Some(TermWork)
    else if c.oral == Some(0) then Some(Oral)
    else Some(Overall)
  }

  /** The kind names a component that is present and 0 exactly when one is, and the first such one in priority order. */
  lemma KtPriority(g: TotGroup, c: Components)
    requires IsKt(g)
    ensures var t := SubjectKtType(g, c).value;
            (t == External <==> c.external == Some(0))
            && (t == Internal <==> c.external != Some(0) && c.internal == Some(0))
            && (t == TermWork <==> c.external != Some(0) && c.internal != Some(0) && c.termWork == Some(0))
            && (t == Oral <==> c.external != Some(0) && c.internal != Some(0) && c.termWork != Some(0) && c.oral == Some(0))
            && (t == Overall <==> c.external != Some(0) && c.internal != Some(0) && c.termWork != Some(0) && c.oral != Some(0))
  {
  }

  /** The marks block of a subject record. */
  datatype SubjectMarks = SubjectMarks(
    components: Components,
    total: int,
    gradePoint: nat,
    grade: string,
    credits: Decimal,
    creditPoints: Decimal,
    status: string)

  /** One subject of a student record. */
  datatype SubjectRecord = SubjectRecord(code: string, name: string, marks: SubjectMarks, isKt: bool, ktType: Option<KtType>)

  /** `isKT` and `ktType` agree: a kind is given exactly for a KT. */
  predicate Classified(s: SubjectRecord) {
    s.ktType.Some? <==> s.isKt
  }

  /** The KT summary of a student record. */
  datatype KtSummary = KtSummary(
    totalKt: nat,
    internalKt: nat,
    externalKt: nat,
    termWorkKt: nat,
    oralKt: nat,
    failedSubjects: seq<string>,
    hasKt: bool)

  /** The number of KT subjects. */
  function CountKt(ss: seq<SubjectRecord>): nat {
    if ss == [] then 0 else (if ss[0].isKt then 1 else 0) + CountKt(ss[1..])
  }

  /** The number of subjects whose KT kind is one of `kinds`. */
  function CountKind(ss: seq<SubjectRecord>, kinds: set<KtType>): nat {
    if ss == [] then 0 else (if ss[0].ktType.Some? && ss[0].ktType.value in kinds then 1 else 0) + CountKind(ss[1..], kinds)
  }

  /** The names of the KT subjects, in order. */
  function FailedNames(ss: seq<SubjectRecord>): seq<string> {
    if ss == [] then [] else (if ss[0].isKt then [ss[0].name] else []) + FailedNames(ss[1..])
  }

  /** `detect_kt`; an `overall` KT is counted as an external one. */
  function DetectKt(ss: seq<SubjectRecord>): (r: KtSummary)
    ensures r.hasKt <==> r.totalKt > 0
  {
    var total := CountKt(ss);
    KtSummary(total, CountKind(ss, {Internal}), CountKind(ss, {External, Overall}),
              CountKind(ss, {TermWork}), CountKind(ss, {Oral}), FailedNames(ss), total > 0)
  }

  /** Over classified subjects, the kinds split the KTs: no KT is counted twice or left out. */
  lemma {:induction false} KindsSplitKts(ss: seq<SubjectRecord>)
    requires forall k :: 0 <= k < |ss| ==> Classified(ss[k])
    ensures CountKind(ss, {Internal}) + CountKind(ss, {External, Overall})
            + CountKind(ss, {TermWork}) + CountKind(ss, {Oral}) == CountKt(ss)
  {
    if ss != [] {
      assert forall k :: 0 <= k < |ss[1..]| ==> ss[1..][k] == ss[k + 1];
      KindsSplitKts(ss[1..]);
      assert Classified(ss[0]);
      if ss[0].ktType.Some? {
        var t := ss[0].ktType.value;
        assert t == Internal || t == External || t == Overall || t == TermWork || t == Oral;
      }
    }
  }

  /** There are as many failed-subject names as KTs, each the name of a KT subject. */
  lemma {:induction false} FailedNamesOfKts(ss: seq<SubjectRecord>)
    ensures |FailedNames(ss)| == CountKt(ss) <= |ss|
    ensures forall n :: n in FailedNames(ss) ==> exists k :: 0 <= k < |ss| && ss[k].isKt && ss[k].name == n
  {
    if ss != [] {
      FailedNamesOfKts(ss[1..]);
      forall n | n in FailedNames(ss)
        ensures exists k :: 0 <= k < |ss| && ss[k].isKt && ss[k].name == n
      {
        if !(ss[0].isKt && ss[0].name == n) {
          var k :| 0 <= k < |ss[1..]| && ss[1..][k].isKt && ss[1..][k].name == n;
          assert ss[k + 1] == ss[1..][k];
        }
      }
    }
  }

  /** `detect_kt` on classified subjects: the four counters add up to `totalKT`, and `hasKT` says whether any subject failed. */
  lemma KtSummaryConsistent(ss: seq<SubjectRecord>)
    requires forall k :: 0 <= k < |ss| ==> Classified(ss[k])
    ensures var r := DetectKt(ss);
            r.internalKt + r.externalKt + r.termWorkKt + r.oralKt == r.totalKt
            && |r.failedSubjects| == r.totalKt
            && (r.hasKt <==> exists k :: 0 <= k < |ss| && ss[k].isKt)
  {
    KindsSplitKts(ss);
    FailedNamesOfKts(ss);
    KtCountPositive(ss);
  }

  /** Some subject is a KT exactly when the count is positive. */
  lemma {:induction false} KtCountPositive(ss: seq<SubjectRecord>)
    ensures CountKt(ss) > 0 <==> exists k :: 0 <= k < |ss| && ss[k].isKt
  {
    if ss != [] {
      KtCountPositive(ss[1..]);
      if exists k :: 0 <= k < |ss[1..]| && ss[1..][k].isKt {
        var k :| 0 <= k < |ss[1..]| && ss[1..][k].isKt;
        assert ss[k + 1].isKt;
      }
      if exists k :: 0 <= k < |ss| && ss[k].isKt {
        var k :| 0 <= k < |ss| && ss[k].isKt;
        if k > 0 {
          assert ss[1..][k - 1].isKt;
        }
      }
    }
  }
}
