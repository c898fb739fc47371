/**
 * The parser over the whole line stream of a result document: it finds the
 * student blocks (a block runs from one seat-number line to the next),
 * attaches orphan ERN lines to the block that follows them, cleans each
 * block, parses it and stores the record by ERN or seat number, recording
 * the blocks that raise.
 */
module ResultParser {
  import opened Wrappers
  import opened Text
  import opened Validation
  import opened HeaderLine
  import opened StudentBlock

  // The line stream

  /** `text.split('\n')`: the pieces of `text` between newlines; there is always at least one. */
  function SplitLines(text: string): (r: seq<string>)
    ensures |r| >= 1
    decreases |text|
  {
    if text == [] then [[]]
    else
      var rest := SplitLines(text[1..]);
      if text[0] == '\n' then [[]] + rest
      else [[text[0]] + rest[0]] + rest[1..]
  }

  /** Joining the pieces with newlines gives the text back, and no piece holds a newline. */
  lemma {:induction false} SplitLinesJoin(text: string)
    ensures Join(SplitLines(text), "\n") == text
    ensures forall k :: 0 <= k < |SplitLines(text)| ==> '\n' !in SplitLines(text)[k]
    decreases |text|
  {
    if text != [] {
      SplitLinesJoin(text[1..]);
      var rest := SplitLines(text[1..]);
      var r := SplitLines(text);
      if text[0] == '\n' {
        assert r[1..] == rest;
        assert Join(r, "\n") == [] + "\n" + Join(rest, "\n");
      } else {
        assert r[1..] == rest[1..];
        if |rest| > 1 {
          assert Join(rest, "\n") == rest[0] + "\n" + Join(rest[1..], "\n");
          assert Join(r, "\n") == [text[0]] + rest[0] + "\n" + Join(rest[1..], "\n");
        }
        assert text == [text[0]] + text[1..];
      }
    }
  }

  /** The lines a page gives: none when it has no text, else its text split at newlines. */
  function PageLines(page: Option<string>): seq<string> {
    match page
    case None => []
    case Some(text) => if text == [] then [] else SplitLines(text)
  }

  /** The lines of the first `i` pages, laid end to end in page order. */
  function AllLines(pages: seq<Option<string>>, i: nat): seq<string>
    requires i <= |pages|
  {
    if i == 0 then [] else AllLines(pages, i - 1) + PageLines(pages[i - 1])
  }

  /** The page loop of `parse`: every page's lines, in page order. */
  method CollectLines(pages: seq<Option<string>>) returns (all: seq<string>)
    ensures all == AllLines(pages, |pages|)
  {
    all := [];
    var i: nat := 0;
    while i < |pages|
      invariant i <= |pages|
      invariant all == AllLines(pages, i)
      decreases |pages| - i
    {
      if pages[i].Some? && pages[i].value != [] {
        all := all + SplitLines(pages[i].value);
      }
      i := i + 1;
    }
  }

  // Step 1: block boundaries

  /** A line that opens a student block. */
  predicate IsBlockStart(line: string) {
    IsSeatNumberLine(Strip(line))
  }

  /** The indices `j < i` with `flags[j]` set, in order. */
  function Marked(flags: seq<bool>, i: nat): seq<nat>
    requires i <= |flags|
  {
    if i == 0 then []
    else Marked(flags, i - 1) + (if flags[i - 1] then [i - 1] else [])
  }

  predicate Increasing(xs: seq<nat>) {
    forall a, b :: 0 <= a < b < |xs| ==> xs[a] < xs[b]
  }

  /** The marked indices below `i` are increasing, all marked, and every marked index below `i` is among them. */
  lemma {:induction false} MarkedShape(flags: seq<bool>, i: nat)
    requires i <= |flags|
    ensures var s := Marked(flags, i);
            Increasing(s)
            && (forall k :: 0 <= k < |s| ==> s[k] < i && flags[s[k]])
            && (forall j :: 0 <= j < i && flags[j] ==> j in s)
  {
    if i > 0 {
      MarkedShape(flags, i - 1);
    }
  }

  /** For each line, whether it opens a block. */
  function StartFlags(lines: seq<string>): (flags: seq<bool>)
    ensures |flags| == |lines|
  {
    seq(|lines|, i requires 0 <= i < |lines| => IsBlockStart(lines[i]))
  }

  /** `block_starts`: the indices of the block-opening lines, in order. */
  function BlockStarts(lines: seq<string>): seq<nat> {
    Marked(StartFlags(lines), |lines|)
  }

  method FindBlockStarts(lines: seq<string>) returns (starts: seq<nat>)
    ensures starts == BlockStarts(lines)
  {
    starts := [];
    var i: nat := 0;
    while i < |lines|
      invariant i <= |lines|
      invariant starts == Marked(StartFlags(lines), i)
      decreases |lines| - i
    {
      if IsBlockStart(lines[i]) {
        starts := starts + [i];
      }
      i := i + 1;
    }
  }

  /** The block starts are increasing, each opens a block, and every block-opening line is among them. */
  lemma BlockStartsShape(lines: seq<string>)
    ensures var s := BlockStarts(lines);
            Increasing(s)
            && (forall k :: 0 <= k < |s| ==> s[k] < |lines| && IsBlockStart(lines[s[k]]))
            && (forall j :: 0 <= j < |lines| && IsBlockStart(lines[j]) ==> j in s)
  {
    MarkedShape(StartFlags(lines), |lines|);
  }

  /** Where block `idx` ends: at the next block's start, or at the end of the lines. */
  function BlockEnd(starts: seq<nat>, idx: nat, n: nat): nat
    requires idx < |starts|
  {
    if idx + 1 < |starts| then starts[idx + 1] else n
  }

  /** The blocks are non-empty, lie within the lines, and do not overlap: each ends where no later one has begun. */
  lemma BlocksDisjoint(lines: seq<string>, idx: nat, later: nat)
    requires idx < |BlockStarts(lines)|
    ensures var s := BlockStarts(lines);
            s[idx] < BlockEnd(s, idx, |lines|) <= |lines|
            && (idx < later < |s| ==> BlockEnd(s, idx, |lines|) <= s[later])
  {
    BlockStartsShape(lines);
  }

  // Step 2: floating ERNs

  /** The ERN of a line that is not a block start and holds a valid ERN. */
  function FloatingErnAt(line: string): (r: Option<string>)
    ensures r.Some? ==> !IsBlockStart(line) && IsValidErn(r.value)
  {
    var s := Strip(line);
    if IsSeatNumberLine(s) then None
    else match ExtractErn(s)
      case None => None
      case Some(e) => if |e| > 0 && IsValidErn(e) then Some(e) else None
  }

  /** The present values `opts[j]`, `j < i`, with their indices, in order. */
  function Present(opts: seq<Option<string>>, i: nat): seq<(nat, string)>
    requires i <= |opts|
  {
    if i == 0 then []
    else Present(opts, i - 1) + (match opts[i - 1] case None => [] case Some(e) => [(i - 1, e)])
  }

  /** Every pair is a present value at its index, and the indices increase. */
  lemma {:induction false} PresentShape(opts: seq<Option<string>>, i: nat)
    requires i <= |opts|
    ensures forall k :: 0 <= k < |Present(opts, i)| ==> Present(opts, i)[k].0 < i && opts[Present(opts, i)[k].0] == Some(Present(opts, i)[k].1)
    ensures forall a, b :: 0 <= a < b < |Present(opts, i)| ==> Present(opts, i)[a].0 < Present(opts, i)[b].0
  {
    if i > 0 {
      PresentShape(opts, i - 1);
    }
  }

  /** For each line, its floating ERN if it has one. */
  function ErnsAt(lines: seq<string>): (r: seq<Option<string>>)
    ensures |r| == |lines|
  {
    seq(|lines|, i requires 0 <= i < |lines| => FloatingErnAt(lines[i]))
  }

  /** `floating_erns`: line index and ERN of each floating ERN, in line order (the dict's insertion order). */
  function FloatingErns(lines: seq<string>): seq<(nat, string)> {
    Present(ErnsAt(lines), |lines|)
  }

  /** Step 2 of `_parse_all_lines`: the ERN lines that are not headers, in line order. */
  method FindFloatingErns(lines: seq<string>) returns (erns: seq<(nat, string)>)
    ensures erns == FloatingErns(lines)
  {
    erns := [];
    var i: nat := 0;
    while i < |lines|
      invariant i <= |lines|
      invariant erns == Present(ErnsAt(lines), i)
      decreases |lines| - i
    {
      var e := FloatingErnAt(lines[i]);
      if e.Some? {
        erns := erns + [(i, e.value)];
      }
      i := i + 1;
    }
  }

  /** A line's entry is its floating ERN. */
  lemma ErnAtLine(lines: seq<string>, j: nat, e: string)
    requires j < |lines| && ErnsAt(lines)[j] == Some(e)
    ensures !IsBlockStart(lines[j]) && IsValidErn(e)
  {
    assert FloatingErnAt(lines[j]) == Some(e);
  }

  /** Each floating ERN sits on a line that is not a block start and is a valid ERN; the lines increase. */
  lemma FloatingErnsShape(lines: seq<string>)
    ensures forall k :: 0 <= k < |FloatingErns(lines)| ==>
              FloatingErns(lines)[k].0 < |lines| && !IsBlockStart(lines[FloatingErns(lines)[k].0]) && IsValidErn(FloatingErns(lines)[k].1)
    ensures forall a, b :: 0 <= a < b < |FloatingErns(lines)| ==> FloatingErns(lines)[a].0 < FloatingErns(lines)[b].0
  {
    var opts := ErnsAt(lines);
    PresentShape(opts, |lines|);
    var f := Present(opts, |lines|);
    forall k | 0 <= k < |f|
      ensures !IsBlockStart(lines[f[k].0]) && IsValidErn(f[k].1)
    {
      ErnAtLine(lines, f[k].0, f[k].1);
    }
  }

  /** The first block start after line `e`, in the order of `starts`. */
  function FirstStartAfter(starts: seq<nat>, e: nat, j: nat := 0): (r: Option<nat>)
    requires j <= |starts|
    decreases |starts| - j
  {
    if j == |starts| then None
    else if starts[j] > e then Some(starts[j])
    else FirstStartAfter(starts, e, j + 1)
  }

  /** `FirstStartAfter` finds a start after `e` with none before it in the list, or says there is none. */
  lemma {:induction false} FirstStartAfterShape(starts: seq<nat>, e: nat, j: nat)
    requires j <= |starts|
    ensures var r := FirstStartAfter(starts, e, j);
            (r.Some? ==> exists q :: j <= q < |starts| && starts[q] == r.value && r.value > e
                                     && forall q' :: j <= q' < q ==> starts[q'] <= e)
            && (r.None? ==> forall q :: j <= q < |starts| ==> starts[q] <= e)
    decreases |starts| - j
  {
    if j < |starts| && starts[j] <= e {
      FirstStartAfterShape(starts, e, j + 1);
    }
  }

  /** The block a floating ERN at line `e` goes to: the first start after it, when it is at most 5 lines on. */
  function TargetBlock(starts: seq<nat>, e: nat): Option<nat> {
    match FirstStartAfter(starts, e)
    case None => None
    case Some(bs) => if bs as int - e as int <= 5 then Some(bs) else None
  }

  /** The target of an ERN at line `e` is the first start after `e` in the list, and at most 5 lines after it. */
  lemma TargetBlockShape(starts: seq<nat>, e: nat)
    ensures TargetBlock(starts, e).Some? ==>
              exists q :: 0 <= q < |starts| && starts[q] == TargetBlock(starts, e).value
                          && e < starts[q] <= e + 5 && forall q' :: 0 <= q' < q ==> starts[q'] <= e
    ensures TargetBlock(starts, e).None? ==>
              (forall q :: 0 <= q < |starts| ==> starts[q] <= e)
              || exists q :: 0 <= q < |starts| && starts[q] > e + 5 && forall q' :: 0 <= q' < q ==> starts[q'] <= e
  {
    FirstStartAfterShape(starts, e, 0);
  }

  /** `ern_for_block` after the floating ERNs from `k` on were assigned, starting from `m`. */
  function AssignErns(floating: seq<(nat, string)>, starts: seq<nat>, k: nat, m: map<nat, string>): map<nat, string>
    requires k <= |floating|
    decreases |floating| - k
  {
    if k == |floating| then m
    else
      var m' := match TargetBlock(starts, floating[k].0) case None => m case Some(bs) => m[bs := floating[k].1];
      AssignErns(floating, starts, k + 1, m')
  }

  /** The inner loop: the first start after `e`. */
  method FindStartAfter(starts: seq<nat>, e: nat) returns (r: Option<nat>)
    ensures r == FirstStartAfter(starts, e)
  {
    var j := 0;
    while j < |starts|
      invariant j <= |starts|
      invariant FirstStartAfter(starts, e, j) == FirstStartAfter(starts, e)
      decreases |starts| - j
    {
      if starts[j] > e {
        return Some(starts[j]);
      }
      j := j + 1;
    }
    return None;
  }

  /** Mapping the floating ERNs to the block that follows each. */
  method ErnForBlock(floating: seq<(nat, string)>, starts: seq<nat>) returns (m: map<nat, string>)
    ensures m == AssignErns(floating, starts, 0, map[])
  {
    m := map[];
    var k := 0;
    while k < |floating|
      invariant k <= |floating|
      invariant AssignErns(floating, starts, k, m) == AssignErns(floating, starts, 0, map[])
      decreases |floating| - k
    {
      var (e, ern) := floating[k];
      var bs := FindStartAfter(starts, e);
      if bs.Some? && bs.value as int - e as int <= 5 {
        m := m[bs.value := ern];
      }
      k := k + 1;
    }
  }

  /** A block gets an ERN only from a floating ERN whose target it is (or kept the one it had). */
  lemma {:induction false} AssignErnsOnlyTargets(floating: seq<(nat, string)>, starts: seq<nat>, k: nat, m: map<nat, string>, bs: nat)
    requires k <= |floating|
    requires bs in AssignErns(floating, starts, k, m)
    ensures bs in m || exists q :: k <= q < |floating| && TargetBlock(starts, floating[q].0) == Some(bs)
    decreases |floating| - k
  {
    if k < |floating| {
      var m' := match TargetBlock(starts, floating[k].0) case None => m case Some(b) => m[b := floating[k].1];
      AssignErnsOnlyTargets(floating, starts, k + 1, m', bs);
    }
  }

  /** A block that no floating ERN from `k` on targets keeps what it had. */
  lemma {:induction false} AssignErnsUntargeted(floating: seq<(nat, string)>, starts: seq<nat>, k: nat, m: map<nat, string>, bs: nat)
    requires k <= |floating|
    requires forall q :: k <= q < |floating| ==> TargetBlock(starts, floating[q].0) != Some(bs)
    ensures bs in AssignErns(floating, starts, k, m) <==> bs in m
    ensures bs in m ==> AssignErns(floating, starts, k, m)[bs] == m[bs]
    decreases |floating| - k
  {
    if k < |floating| {
      var m' := match TargetBlock(starts, floating[k].0) case None => m case Some(b) => m[b := floating[k].1];
      AssignErnsUntargeted(floating, starts, k + 1, m', bs);
    }
  }

  /** A block gets the ERN of the last floating ERN, in line order, that targets it. */
  lemma {:induction false} AssignErnsLastWins(floating: seq<(nat, string)>, starts: seq<nat>, k: nat, m: map<nat, string>,
                                              bs: nat, q: nat)
    requires k <= q < |floating|
    requires TargetBlock(starts, floating[q].0) == Some(bs)
    requires forall q' :: q < q' < |floating| ==> TargetBlock(starts, floating[q'].0) != Some(bs)
    ensures bs in AssignErns(floating, starts, k, m)
    ensures AssignErns(floating, starts, k, m)[bs] == floating[q].1
    decreases |floating| - k
  {
    var m' := match TargetBlock(starts, floating[k].0) case None => m case Some(b) => m[b := floating[k].1];
    if k < q {
      AssignErnsLastWins(floating, starts, k + 1, m', bs, q);
    } else {
      AssignErnsUntargeted(floating, starts, k + 1, m', bs);
    }
  }

  // Step 3: cleaning a block

  /** Each line stripped. */
  function StrippedLines(lines: seq<string>): (r: seq<string>)
    ensures |r| == |lines|
  {
    seq(|lines|, j requires 0 <= j < |lines| => Strip(lines[j]))
  }

  /** The non-empty strings, in order. */
  function NonEmpty(ss: seq<string>): seq<string> {
    if ss == [] then [] else (if ss[0] != [] then [ss[0]] else []) + NonEmpty(ss[1..])
  }

  /** `[l.strip() for l in lines if l.strip()]`. */
  function Cleaned(lines: seq<string>): seq<string> {
    NonEmpty(StrippedLines(lines))
  }

  /** The non-empty strings are exactly the strings that are not empty: none is dropped, none is added. */
  lemma {:induction false} NonEmptyShape(ss: seq<string>)
    ensures forall k :: 0 <= k < |NonEmpty(ss)| ==> NonEmpty(ss)[k] != [] && NonEmpty(ss)[k] in ss
    ensures forall j :: 0 <= j < |ss| && ss[j] != [] ==> ss[j] in NonEmpty(ss)
  {
    if ss != [] {
      NonEmptyShape(ss[1..]);
      var head := if ss[0] != [] then [ss[0]] else [];
      assert NonEmpty(ss) == head + NonEmpty(ss[1..]);
      forall j | 0 <= j < |ss| && ss[j] != []
        ensures ss[j] in NonEmpty(ss)
      {
        if j > 0 {
          assert ss[1..][j - 1] == ss[j];
        }
      }
    }
  }

  /** Every non-empty string is kept as often as it occurs, and the empty string not at all. */
  lemma {:induction false} NonEmptyCounts(ss: seq<string>)
    ensures multiset(NonEmpty(ss)) == multiset(ss)[[] := 0]
  {
    if ss != [] {
      NonEmptyCounts(ss[1..]);
      var head := if ss[0] != [] then [ss[0]] else [];
      assert NonEmpty(ss) == head + NonEmpty(ss[1..]);
      assert ss == [ss[0]] + ss[1..];
      assert multiset(ss) == multiset([ss[0]]) + multiset(ss[1..]);
      assert multiset(NonEmpty(ss)) == multiset(head) + multiset(NonEmpty(ss[1..]));
    }
  }

  /** Dropping the empty strings keeps the order: it can be done piece by piece. */
  lemma {:induction false} NonEmptyAppend(a: seq<string>, b: seq<string>)
    ensures NonEmpty(a + b) == NonEmpty(a) + NonEmpty(b)
  {
    if a != [] {
      assert (a + b)[1..] == a[1..] + b;
      NonEmptyAppend(a[1..], b);
    } else {
      assert a + b == b;
    }
  }

  /** `sub in s`, looking from index `i` on. */
  predicate ContainsFrom(s: string, sub: string, i: nat)
    decreases |s| - i
  {
    i + |sub| <= |s| && (StartsWith(s[i..], sub) || ContainsFrom(s, sub, i + 1))
  }

  /** A repeated page header, where the block is cut off. */
  predicate IsPageHeader(line: string) {
    StartsWith(line, "SEAT NO") || StartsWith(line, "10411 :")
    || (StartsWith(line, "WORK)") && ContainsFrom(line, "Engineering", 0))
    || (StartsWith(line, "TOT GP G") && ContainsFrom(line, "C G*C", 0))
    || StartsWith(line, "TERM WORK") || StartsWith(line, "ORAL (")
    || StartsWith(line, "External (") || StartsWith(line, "Internal(")
    || StartsWith(line, "Mathematics-I")
  }

  /** The filter loop from line `i` on: stop at a page header, drop lone `)` lines. */
  function FilterFrom(lines: seq<string>, i: nat): seq<string>
    requires i <= |lines|
    decreases |lines| - i
  {
    if i == |lines| || IsPageHeader(lines[i]) then []
    else (if lines[i] == ")" then [] else [lines[i]]) + FilterFrom(lines, i + 1)
  }

  /** The filter loop of `_parse_all_lines`. */
  method FilterBlock(lines: seq<string>) returns (kept: seq<string>)
    ensures kept == FilterFrom(lines, 0)
  {
    kept := [];
    var i := 0;
    while i < |lines|
      invariant i <= |lines|
      invariant kept + FilterFrom(lines, i) == FilterFrom(lines, 0)
      decreases |lines| - i
    {
      if IsPageHeader(lines[i]) {
        break;
      }
      if lines[i] != ")" {
        kept := kept + [lines[i]];
      }
      i := i + 1;
    }
  }

  /** The index of the first page header from `i` on, or the end. */
  function FirstPageHeader(lines: seq<string>, i: nat): (h: nat)
    requires i <= |lines|
    decreases |lines| - i
  {
    if i == |lines| || IsPageHeader(lines[i]) then i else FirstPageHeader(lines, i + 1)
  }

  /** The lines other than a lone `)`, in order. */
  function DropParens(lines: seq<string>): seq<string> {
    if lines == [] then [] else (if lines[0] == ")" then [] else [lines[0]]) + DropParens(lines[1..])
  }

  /** The first page header from `i` on: no line before it is one, and it is one unless it is the end. */
  lemma {:induction false} FirstPageHeaderShape(lines: seq<string>, i: nat)
    requires i <= |lines|
    ensures i <= FirstPageHeader(lines, i) <= |lines|
    ensures forall j :: i <= j < FirstPageHeader(lines, i) ==> !IsPageHeader(lines[j])
    ensures FirstPageHeader(lines, i) < |lines| ==> IsPageHeader(lines[FirstPageHeader(lines, i)])
    decreases |lines| - i
  {
    if i < |lines| && !IsPageHeader(lines[i]) {
      FirstPageHeaderShape(lines, i + 1);
    }
  }

  /** The filter keeps the lines before the first page header, without the lone `)` lines. */
  lemma {:induction false} FilterIsCutThenDrop(lines: seq<string>, i: nat)
    requires i <= |lines|
    ensures i <= FirstPageHeader(lines, i) <= |lines|
    ensures FilterFrom(lines, i) == DropParens(lines[i..FirstPageHeader(lines, i)])
    decreases |lines| - i
  {
    FirstPageHeaderShape(lines, i);
    if i < |lines| && !IsPageHeader(lines[i]) {
      FilterIsCutThenDrop(lines, i + 1);
      var h := FirstPageHeader(lines, i);
      assert lines[i..h][1..] == lines[i + 1..h];
    }
  }

  /** No kept line is a lone `)` or a page header. */
  lemma {:induction false} FilteredLines(lines: seq<string>, i: nat)
    requires i <= |lines|
    ensures forall k :: 0 <= k < |FilterFrom(lines, i)| ==>
              FilterFrom(lines, i)[k] != ")" && !IsPageHeader(FilterFrom(lines, i)[k])
    decreases |lines| - i
  {
    if i < |lines| && !IsPageHeader(lines[i]) {
      FilteredLines(lines, i + 1);
    }
  }

  /** The header line names the `Repeater` status as a whole word, in any case. */
  predicate IsRepeaterHeader(line: string) {
    SearchWords(line, ["Repeater"], true, 0).Some?
  }

  /** The key a record is stored under: its ERN when it has a non-empty one, else its seat number. */
  function KeyOf(s: StudentRecord): string {
    if s.ern.Some? && s.ern.value != "" then s.ern.value else s.seatNumber
  }

  /** `s[a:b]`, which Python clamps to the sequence instead of failing. */
  function Slice<T>(s: seq<T>, a: nat, b: nat): (r: seq<T>)
    ensures a <= b <= |s| ==> r == s[a..b]
  {
    if b <= a || |s| <= a then [] else if b <= |s| then s[a..b] else s[a..]
  }

  /** What the block at `start` gives: nothing (empty or a repeater), or the outcome of parsing it. */
  function BlockAt(lines: seq<string>, starts: seq<nat>, ernFor: map<nat, string>, idx: nat): Option<BlockOutcome>
    requires idx < |starts|
  {
    var start := starts[idx];
    var end := BlockEnd(starts, idx, |lines|);
    var kept := FilterFrom(Cleaned(Slice(lines, start, end)), 0);
    if kept == [] then None
    else
      var pending := if start in ernFor then Some(ernFor[start]) else None;
      if IsRepeaterHeader(kept[0]) then None
      else Some(StudentBlockOf(kept, pending))
  }

  /** The students and errors after storing one block outcome. */
  function Store(students: map<string, StudentRecord>, errors: seq<nat>, start: nat, outcome: Option<BlockOutcome>)
    : (map<string, StudentRecord>, seq<nat>)
  {
    match outcome
    case Some(Parsed(s)) => (students[KeyOf(s) := s], errors)
    case Some(Raised) => (students, errors + [start])
    case _ => (students, errors)
  }

  /** What each block gives, block by block. */
  function Outcomes(lines: seq<string>, starts: seq<nat>, ernFor: map<nat, string>): (r: seq<Option<BlockOutcome>>)
    ensures |r| == |starts|
  {
    seq(|starts|, idx requires 0 <= idx < |starts| => BlockAt(lines, starts, ernFor, idx))
  }

  /** Storing the outcomes of the blocks from `idx` on, in block order. */
  function StoreFrom(starts: seq<nat>, outcomes: seq<Option<BlockOutcome>>, idx: nat,
                     students: map<string, StudentRecord>, errors: seq<nat>): (map<string, StudentRecord>, seq<nat>)
    requires idx <= |starts| == |outcomes|
    decreases |starts| - idx
  {
    if idx == |starts| then (students, errors)
    else
      var (st, er) := Store(students, errors, starts[idx], outcomes[idx]);
      StoreFrom(starts, outcomes, idx + 1, st, er)
  }

  /** Every record is stored under its own key. */
  predicate Keyed(students: map<string, StudentRecord>) {
    forall k :: k in students ==> KeyOf(students[k]) == k
  }

  /** `MUResultParser`: the records found so far, by key, and the start line of every block that raised. */
  class MUResultParser {
    var students: map<string, StudentRecord>
    var errors: seq<nat>

    predicate Valid()
      reads this
    {
      Keyed(students)
    }

    constructor()
      ensures Valid() && students == map[] && errors == []
    {
      students := map[];
      errors := [];
    }

    /**
     * `parse`, given the text of each page (none for a page without text):
     * the lines of all pages as one stream, parsed by `ParseAllLines`.
     */
    method Parse(pages: seq<Option<string>>) returns (result: map<string, StudentRecord>)
      requires Valid()
      modifies this
      ensures Valid() && result == students
      ensures var lines := AllLines(pages, |pages|);
              var starts := BlockStarts(lines);
              var ernFor := AssignErns(FloatingErns(lines), starts, 0, map[]);
              (students, errors) == StoreFrom(starts, Outcomes(lines, starts, ernFor), 0, old(students), old(errors))
    {
      var all := CollectLines(pages);
      ParseAllLines(all);
      result := students;
    }

    /** `_parse_all_lines`: the three steps over the whole line stream. */
    method ParseAllLines(lines: seq<string>)
      requires Valid()
      modifies this
      ensures Valid()
      ensures var starts := BlockStarts(lines);
              var ernFor := AssignErns(FloatingErns(lines), starts, 0, map[]);
              (students, errors) == StoreFrom(starts, Outcomes(lines, starts, ernFor), 0, old(students), old(errors))
    {
      var starts := FindBlockStarts(lines);
      var floating := FindFloatingErns(lines);
      var ernFor := ErnForBlock(floating, starts);
      ghost var outcomes := Outcomes(lines, starts, ernFor);
      var idx := 0;
      while idx < |starts|
        invariant idx <= |starts|
        invariant Valid()
        invariant StoreFrom(starts, outcomes, idx, students, errors)
                  == StoreFrom(starts, outcomes, 0, old(students), old(errors))
        decreases |starts| - idx
      {
        var outcome := ReadBlock(lines, starts, ernFor, idx);
        StoreOutcome(starts[idx], outcome);
        idx := idx + 1;
      }
    }

    /** The store at the end of step 3: a record goes under its key, a raising block's start into the errors. */
    method StoreOutcome(start: nat, outcome: Option<BlockOutcome>)
      requires Valid()
      modifies this
      ensures Valid()
      ensures (students, errors) == Store(old(students), old(errors), start, outcome)
    {
      match outcome
      case Some(Parsed(s)) =>
        students := students[KeyOf(s) := s];
      case Some(Raised) =>
        errors := errors + [start];
      case _ =>
    }
  }

  /** Step 3 for one block, up to the store: clean it, skip it if empty or a repeater, else parse it. */
  method ReadBlock(lines: seq<string>, starts: seq<nat>, ernFor: map<nat, string>, idx: nat) returns (outcome: Option<BlockOutcome>)
    requires idx < |starts|
    ensures outcome == BlockAt(lines, starts, ernFor, idx)
  {
    var start := starts[idx];
    var end := BlockEnd(starts, idx, |lines|);
    var kept := FilterBlock(Cleaned(Slice(lines, start, end)));
    if kept == [] {
      return None;
    }
    var pending := if start in ernFor then Some(ernFor[start]) else None;
    if IsRepeaterHeader(kept[0]) {
      return None;
    }
    var parsed := ParseStudentBlock(kept, pending);
    outcome := Some(parsed);
  }

  // Properties of the store

  /** Storing keeps every record under its own key. */
  lemma StoreKeyed(students: map<string, StudentRecord>, errors: seq<nat>, start: nat, outcome: Option<BlockOutcome>)
    requires Keyed(students)
    ensures Keyed(Store(students, errors, start, outcome).0)
  {
  }

  /** A parsed record replaces whatever was stored under its key, and the other keys keep their records. */
  lemma StoreReplaces(students: map<string, StudentRecord>, errors: seq<nat>, start: nat, s: StudentRecord)
    ensures var r := Store(students, errors, start, Some(Parsed(s))).0;
            KeyOf(s) in r && r[KeyOf(s)] == s
            && r.Keys == students.Keys + {KeyOf(s)}
            && forall k :: k in students && k != KeyOf(s) ==> r[k] == students[k]
  {
  }

  /** A block whose first kept line names the status `Repeater` gives no record and no error. */
  lemma RepeaterSkipped(lines: seq<string>, starts: seq<nat>, ernFor: map<nat, string>, idx: nat)
    requires idx < |starts|
    requires var kept := FilterFrom(Cleaned(Slice(lines, starts[idx], BlockEnd(starts, idx, |lines|))), 0);
             kept != [] && IsRepeaterHeader(kept[0])
    ensures BlockAt(lines, starts, ernFor, idx).None?
  {
  }

  /** The errors only grow: what was recorded before stays, in front. */
  lemma {:induction false} ErrorsGrow(starts: seq<nat>, outcomes: seq<Option<BlockOutcome>>, idx: nat,
                                      students: map<string, StudentRecord>, errors: seq<nat>)
    requires idx <= |starts| == |outcomes|
    ensures |errors| <= |StoreFrom(starts, outcomes, idx, students, errors).1|
    ensures StoreFrom(starts, outcomes, idx, students, errors).1[..|errors|] == errors
    decreases |starts| - idx
  {
    if idx < |starts| {
      var (st, er) := Store(students, errors, starts[idx], outcomes[idx]);
      ErrorsGrow(starts, outcomes, idx + 1, st, er);
      var fin := StoreFrom(starts, outcomes, idx + 1, st, er).1;
      assert fin[..|errors|] == fin[..|er|][..|errors|];
    }
  }

  /** The start lines of the blocks from `idx` on whose parse raised, in order. */
  function RaisingStarts(starts: seq<nat>, outcomes: seq<Option<BlockOutcome>>, idx: nat): seq<nat>
    requires idx <= |starts| == |outcomes|
    decreases |starts| - idx
  {
    if idx == |starts| then []
    else (if outcomes[idx] == Some(Raised) then [starts[idx]] else []) + RaisingStarts(starts, outcomes, idx + 1)
  }

  /**
   * A block that raises does not stop the run: its start line is appended to
   * the errors, so the errors afterwards are the old ones followed by the
   * start of every raising block, in the order of the blocks.
   */
  lemma {:induction false} ErrorsAreRaisingStarts(starts: seq<nat>, outcomes: seq<Option<BlockOutcome>>, idx: nat,
                                                  students: map<string, StudentRecord>, errors: seq<nat>)
    requires idx <= |starts| == |outcomes|
    ensures StoreFrom(starts, outcomes, idx, students, errors).1 == errors + RaisingStarts(starts, outcomes, idx)
    decreases |starts| - idx
  {
    if idx < |starts| {
      var (st, er) := Store(students, errors, starts[idx], outcomes[idx]);
      ErrorsAreRaisingStarts(starts, outcomes, idx + 1, st, er);
      var head := if outcomes[idx] == Some(Raised) then [starts[idx]] else [];
      assert er == errors + head;
      assert errors + head + RaisingStarts(starts, outcomes, idx + 1) == errors + (head + RaisingStarts(starts, outcomes, idx + 1));
    }
  }

  /** Every raising block from `idx` on has its start line among the starts collected. */
  lemma {:induction false} RaisingStartListed(starts: seq<nat>, outcomes: seq<Option<BlockOutcome>>, idx: nat, q: nat)
    requires idx <= q < |starts| == |outcomes| && outcomes[q] == Some(Raised)
    ensures starts[q] in RaisingStarts(starts, outcomes, idx)
    decreases q - idx
  {
    if idx < q {
      RaisingStartListed(starts, outcomes, idx + 1, q);
    }
  }

  /** A block that raises is recorded: its start line is among the errors after the run. */
  lemma RaisingBlockRecorded(starts: seq<nat>, outcomes: seq<Option<BlockOutcome>>, idx: nat,
                             students: map<string, StudentRecord>, errors: seq<nat>, q: nat)
    requires idx <= q < |starts| == |outcomes| && outcomes[q] == Some(Raised)
    ensures starts[q] in StoreFrom(starts, outcomes, idx, students, errors).1
  {
    ErrorsAreRaisingStarts(starts, outcomes, idx, students, errors);
    RaisingStartListed(starts, outcomes, idx, q);
  }

  /** Each new error is the start line of a block from `idx` on that raised. */
  lemma {:induction false} ErrorsAreRaisingBlocks(starts: seq<nat>, outcomes: seq<Option<BlockOutcome>>, idx: nat,
                                                  students: map<string, StudentRecord>, errors: seq<nat>, k: nat)
    requires idx <= |starts| == |outcomes|
    requires |errors| <= k < |StoreFrom(starts, outcomes, idx, students, errors).1|
    ensures exists q :: idx <= q < |starts| && StoreFrom(starts, outcomes, idx, students, errors).1[k] == starts[q]
                        && outcomes[q] == Some(Raised)
    decreases |starts| - idx
  {
    var (st, er) := Store(students, errors, starts[idx], outcomes[idx]);
    ErrorsGrow(starts, outcomes, idx + 1, st, er);
    var fin := StoreFrom(starts, outcomes, idx + 1, st, er).1;
    if k < |er| {
      assert er == errors + [starts[idx]] && outcomes[idx] == Some(Raised);
      assert fin[k] == fin[..|er|][k];
    } else {
      ErrorsAreRaisingBlocks(starts, outcomes, idx + 1, st, er, k);
    }
  }

  /** Storing keeps every record under its own key, block after block. */
  lemma {:induction false} StoreFromKeyed(starts: seq<nat>, outcomes: seq<Option<BlockOutcome>>, idx: nat,
                                          students: map<string, StudentRecord>, errors: seq<nat>)
    requires idx <= |starts| == |outcomes|
    requires Keyed(students)
    ensures Keyed(StoreFrom(starts, outcomes, idx, students, errors).0)
    decreases |starts| - idx
  {
    if idx < |starts| {
      var (st, er) := Store(students, errors, starts[idx], outcomes[idx]);
      StoreKeyed(students, errors, starts[idx], outcomes[idx]);
      StoreFromKeyed(starts, outcomes, idx + 1, st, er);
    }
  }

  /** The outcome at `q` is a record stored under `key`. */
  predicate ParsedUnder(outcomes: seq<Option<BlockOutcome>>, q: nat, key: string)
    requires q < |outcomes|
  {
    outcomes[q].Some? && outcomes[q].value.Parsed? && KeyOf(outcomes[q].value.student) == key
  }

  /** A key that no block from `idx` on parses a record for keeps what it had. */
  lemma {:induction false} UntouchedKeyKept(starts: seq<nat>, outcomes: seq<Option<BlockOutcome>>, idx: nat,
                                            students: map<string, StudentRecord>, errors: seq<nat>, key: string)
    requires idx <= |starts| == |outcomes|
    requires forall q :: idx <= q < |starts| ==> !ParsedUnder(outcomes, q, key)
    ensures key in StoreFrom(starts, outcomes, idx, students, errors).0 <==> key in students
    ensures key in students ==> StoreFrom(starts, outcomes, idx, students, errors).0[key] == students[key]
    decreases |starts| - idx
  {
    if idx < |starts| {
      var (st, er) := Store(students, errors, starts[idx], outcomes[idx]);
      assert !ParsedUnder(outcomes, idx, key);
      assert (key in st <==> key in students) && (key in students ==> st[key] == students[key]);
      UntouchedKeyKept(starts, outcomes, idx + 1, st, er, key);
    }
  }

  /**
   * Last write wins: under a key, the final map holds the record of the last
   * block that parsed a record with that key.
   */
  lemma {:induction false} LastWriteWins(starts: seq<nat>, outcomes: seq<Option<BlockOutcome>>, idx: nat,
                                         students: map<string, StudentRecord>, errors: seq<nat>, key: string, q: nat)
    requires idx <= q < |starts| == |outcomes|
    requires ParsedUnder(outcomes, q, key)
    requires forall q' :: q < q' < |starts| ==> !ParsedUnder(outcomes, q', key)
    ensures key in StoreFrom(starts, outcomes, idx, students, errors).0
    ensures StoreFrom(starts, outcomes, idx, students, errors).0[key] == outcomes[q].value.student
    decreases |starts| - idx
  {
    var (st, er) := Store(students, errors, starts[idx], outcomes[idx]);
    if idx < q {
      LastWriteWins(starts, outcomes, idx + 1, st, er, key, q);
    } else {
      UntouchedKeyKept(starts, outcomes, idx + 1, st, er, key);
    }
  }
}
