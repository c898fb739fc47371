/**
 * The student header line: a seven-digit seat number, then the name, the
 * status (`Regular`, `Repeater` or `ATKT`), the gender, the ERN in
 * parentheses and the college after `MU-<code>:`. Every field but the seat
 * number is searched for leniently, and the name is cleaned down to its
 * alphabetic words.
 */
module HeaderLine {
  import opened Wrappers
  import opened Text
  import opened Validation

  /** The fields `parse_header_line` returns. */
  datatype HeaderInfo = HeaderInfo(
    seatNumber: string,
    name: string,
    gender: Option<string>,
    ern: Option<string>,
    college: string,
    status: string)

  /** The alternatives of `\b(Regular|Repeater|ATKT)\b`, in the order they are tried. */
  const StatusWords: seq<string> := ["Regular", "Repeater", "ATKT"]

  /** The alternatives of `\b(MALE|FEMALE)\b`. */
  const GenderWords: seq<string> := ["MALE", "FEMALE"]

  /** The status when the line names none. */
  const DefaultStatus: string := "Regular"

  /** Character comparison, optionally ignoring ASCII case. */
  predicate CharMatches(c: char, w: char, ignoreCase: bool) {
    if ignoreCase then UpperChar(c) == UpperChar(w) else c == w
  }

  /**
   * The word `w` occurs in `s` at `p` between word boundaries. The searched
   * words begin and end with a letter, so `\b` on either side means that the
   * neighbouring character, if there is one, is not a word character.
   */
  predicate WordAt(s: string, p: nat, w: string, ignoreCase: bool) {
    p + |w| <= |s|
    && (p == 0 || !IsWordChar(s[p - 1]))
    && (forall k :: 0 <= k < |w| ==> CharMatches(s[p + k], w[k], ignoreCase))
    && (p + |w| == |s| || !IsWordChar(s[p + |w|]))
  }

  /** The first of the alternatives `words[a..]` that matches at `p`. */
  function FirstAlternative(s: string, p: nat, words: seq<string>, ignoreCase: bool, a: nat): (r: Option<nat>)
    requires a <= |words|
    ensures r.Some? ==> a <= r.value < |words| && WordAt(s, p, words[r.value], ignoreCase)
    ensures forall b :: a <= b < |words| && (r.None? || b < r.value) ==> !WordAt(s, p, words[b], ignoreCase)
    decreases |words| - a
  {
    if a == |words| then None
    else if WordAt(s, p, words[a], ignoreCase) then Some(a)
    else FirstAlternative(s, p, words, ignoreCase, a + 1)
  }

  /**
   * `re.search` of a word-bounded alternation from index `i`: the leftmost
   * position where some alternative matches, with the first alternative that
   * matches there.
   */
  function SearchWords(s: string, words: seq<string>, ignoreCase: bool, i: nat): (r: Option<(nat, nat)>)
    requires i <= |s|
    ensures r.Some? ==> i <= r.value.0 && r.value.1 < |words|
                        && WordAt(s, r.value.0, words[r.value.1], ignoreCase)
                        && forall b :: 0 <= b < r.value.1 ==> !WordAt(s, r.value.0, words[b], ignoreCase)
    ensures forall p, b :: i <= p && (r.None? || p < r.value.0) && 0 <= b < |words|
                           ==> !WordAt(s, p, words[b], ignoreCase)
    decreases |s| - i
  {
    match FirstAlternative(s, i, words, ignoreCase, 0)
    case Some(a) => Some((i, a))
    case None => if i == |s| then None else SearchWords(s, words, ignoreCase, i + 1)
  }

  /**
   * `re.sub` of a word-bounded alternation by the empty string, from index
   * `i` on: every whole-word occurrence, found left to right, is cut out.
   */
  function RemoveWords(s: string, words: seq<string>, i: nat): (r: string)
    requires i <= |s|
    requires forall b :: 0 <= b < |words| ==> |words[b]| > 0
    ensures |r| <= |s| - i
    decreases |s| - i
  {
    if i == |s| then []
    else match FirstAlternative(s, i, words, false, 0)
      case Some(a) => RemoveWords(s, words, i + |words[a]|)
      case None => [s[i]] + RemoveWords(s, words, i + 1)
  }

  /** `s.split(sep)[0]`: the text before the first occurrence of `sep`, or all of `s`. */
  function BeforeText(s: string, sep: string): (r: string)
    requires |sep| > 0
    ensures |r| <= |s| && r == s[..|r|]
    ensures |r| < |s| ==> StartsWith(s[|r|..], sep)
    ensures forall k :: 0 <= k < |r| ==> !StartsWith(s[k..], sep)
  {
    if |s| < |sep| then s
    else if StartsWith(s, sep) then []
    else
      var t := BeforeText(s[1..], sep);
      assert forall k :: 1 <= k <= |s| ==> s[k..] == s[1..][k - 1..];
      [s[0]] + t
  }

  /** The regex `^(\d{7})\s+`: a seven-digit seat number and whitespace after it. */
  predicate HasSeatPrefix(t: string) {
    |t| > 7 && IsDigits(t[..7]) && IsSpace(t[7])
  }

  /** The header after the seat number and the whitespace following it. */
  function HeaderRest(t: string): (rest: string)
    requires HasSeatPrefix(t)
    ensures |rest| < |t| && rest == t[|t| - |rest|..]
  {
    t[SkipSpaces(t, 8)..]
  }

  /** The index of the first character that is not a digit, at or after `i`. */
  function SkipDigits(s: string, i: nat): (k: nat)
    requires i <= |s|
    ensures i <= k <= |s|
    ensures forall j :: i <= j < k ==> IsDigit(s[j])
    ensures k < |s| ==> !IsDigit(s[k])
    decreases |s| - i
  {
    if i == |s| || !IsDigit(s[i]) then i else SkipDigits(s, i + 1)
  }

  /** `MU-\d+:` starts at `p`; the result is the index just after the colon. */
  function CollegeCodeAt(s: string, p: nat): (r: Option<nat>)
    ensures r.Some? ==> p + 5 <= r.value <= |s|
  {
    if p + 3 <= |s| && s[p..p + 3] == "MU-" then
      var e := SkipDigits(s, p + 3);
      if p + 3 < e < |s| && s[e] == ':' then Some(e + 1) else None
    else None
  }

  /** Where the leftmost college code at or after `i` starts. */
  function FirstCollegeCode(s: string, i: nat): (r: Option<nat>)
    requires i <= |s|
    ensures r.Some? ==> i <= r.value && CollegeCodeAt(s, r.value).Some?
    ensures forall p :: i <= p && (r.None? || p < r.value) ==> CollegeCodeAt(s, p).None?
    decreases |s| - i
  {
    if i == |s| then None
    else if CollegeCodeAt(s, i).Some? then Some(i)
    else FirstCollegeCode(s, i + 1)
  }

  /**
   * `MU-\d+:\s*(.+?)(?:\s*$)` on text that ends in a non-space character: the
   * stripped text after the first college code, or nothing when no code has
   * text after it.
   */
  function College(rest: string): (r: string)
  {
    match FirstCollegeCode(rest, 0)
    case Some(p) =>
      var e := CollegeCodeAt(rest, p).value;
      if e < |rest| then Strip(rest[e..]) else []
    case None => []
  }

  /** The ERN on the line, or else the pending one when it is valid. */
  function ChooseErn(found: Option<string>, pending: Option<string>): Option<string>
  {
    if found.Some? then found
    else if pending.Some? && pending.value != [] && IsValidErn(pending.value) then pending
    else None
  }

  /** A word the name keeps: alphabetic and not a gender word in any case. */
  predicate KeepsNameWord(w: string) {
    IsAlphaWord(w) && Upper(w) != "MALE" && Upper(w) != "FEMALE"
  }

  /** The kept words, each capitalized. */
  function NameWords(ws: seq<string>): seq<string>
  {
    if ws == [] then []
    else (if KeepsNameWord(ws[0]) then [Capitalize(ws[0])] else []) + NameWords(ws[1..])
  }

  /** The text the name is read from. */
  function NamePart(rest: string, statusMatch: Option<(nat, nat)>): string
    requires statusMatch.Some? ==> statusMatch.value.0 <= |rest|
  {
    match statusMatch
    case Some((p, _)) => Strip(rest[..p])
    case None => Strip(RemoveWords(Strip(BeforeText(BeforeText(rest, "("), "MU-")), GenderWords, 0))
  }

  /** The status: the leftmost whole-word status in any case, as written, else `Regular`. */
  function StatusOf(rest: string): string
  {
    match SearchWords(rest, StatusWords, true, 0)
    case Some((p, a)) => rest[p..p + |StatusWords[a]|]
    case None => DefaultStatus
  }

  /** The gender: the leftmost whole-word `MALE` or `FEMALE` in any case, upper-cased. */
  function GenderOf(rest: string): Option<string>
  {
    match SearchWords(rest, GenderWords, true, 0)
    case Some((p, a)) => Some(Upper(rest[p..p + |GenderWords[a]|]))
    case None => None
  }

  /** The cleaned name: the kept words of the name part, capitalized and joined by single spaces. */
  function NameOf(rest: string): string
  {
    Join(NameWords(Split(NamePart(rest, SearchWords(rest, StatusWords, true, 0)))), " ")
  }

  /** `parse_header_line`: `None` unless the stripped line starts with a seat number. */
  function ParseHeaderLine(line: string, pendingErn: Option<string>): Option<HeaderInfo>
  {
    var t := Strip(line);
    if !HasSeatPrefix(t) then None
    else
      var rest := HeaderRest(t);
      Some(HeaderInfo(t[..7], NameOf(rest), GenderOf(rest), ChooseErn(ExtractErn(rest), pendingErn),
                      College(rest), StatusOf(rest)))
  }

  // Properties

  /** What a case-insensitive match reads, upper-cased, is the word it matched, upper-cased. */
  lemma UpperOfMatch(s: string, p: nat, w: string)
    requires WordAt(s, p, w, true)
    ensures Upper(s[p..p + |w|]) == Upper(w)
  {
    var m := s[p..p + |w|];
    assert forall k :: 0 <= k < |w| ==> m[k] == s[p + k];
  }

  /** A header is read exactly when the stripped line starts with seven digits and whitespace; the seat number is those digits. */
  lemma HeaderSeatNumber(line: string, pendingErn: Option<string>)
    ensures ParseHeaderLine(line, pendingErn).Some? <==> HasSeatPrefix(Strip(line))
    ensures ParseHeaderLine(line, pendingErn).Some? ==>
              var h := ParseHeaderLine(line, pendingErn).value;
              |h.seatNumber| == 7 && IsDigits(h.seatNumber) && StartsWith(Strip(line), h.seatNumber)
  {
  }

  /** Every seat-number line, as the block splitter recognises it, yields a header. */
  lemma SeatLineHasHeader(line: string, pendingErn: Option<string>)
    requires IsSeatNumberLine(line)
    ensures ParseHeaderLine(line, pendingErn).Some?
  {
    var t := Strip(line);
    var k :| 7 < k < |t| && IsDigits(t[..7]) && (forall j :: 7 <= j < k ==> IsSpace(t[j])) && IsUpper(t[k]);
    assert IsSpace(t[7]);
  }

  /**
   * The status is `Regular`, `Repeater` or `ATKT` in some case, and it is
   * `Regular` when none of them occurs as a whole word.
   */
  lemma StatusOfShape(rest: string)
    ensures Upper(StatusOf(rest)) == "REGULAR" || Upper(StatusOf(rest)) == "REPEATER" || Upper(StatusOf(rest)) == "ATKT"
    ensures (forall p: nat, b :: 0 <= b < |StatusWords| ==> !WordAt(rest, p, StatusWords[b], true))
            ==> StatusOf(rest) == DefaultStatus
  {
    match SearchWords(rest, StatusWords, true, 0)
    case Some((p, a)) =>
      UpperOfMatch(rest, p, StatusWords[a]);
      assert Upper(StatusWords[a]) == ["REGULAR", "REPEATER", "ATKT"][a];
    case None =>
      assert Upper(DefaultStatus) == "REGULAR";
  }

  /** The gender is `MALE` or `FEMALE`, and it is missing exactly when neither occurs as a whole word in any case. */
  lemma GenderOfShape(rest: string)
    ensures GenderOf(rest) == None || GenderOf(rest) == Some("MALE") || GenderOf(rest) == Some("FEMALE")
    ensures GenderOf(rest).None? <==> forall p: nat, b :: 0 <= b < |GenderWords| ==> !WordAt(rest, p, GenderWords[b], true)
  {
    match SearchWords(rest, GenderWords, true, 0)
    case Some((p, a)) =>
      UpperOfMatch(rest, p, GenderWords[a]);
      assert Upper(GenderWords[a]) == GenderWords[a];
    case None =>
  }

  /**
   * The ERN is the one found on the line when there is one, else the pending
   * ERN carried over from an earlier line when that one is valid; whatever is
   * chosen is a valid ERN.
   */
  lemma ChosenErn(rest: string, pendingErn: Option<string>)
    ensures var ern := ChooseErn(ExtractErn(rest), pendingErn);
            (ExtractErn(rest).Some? ==> ern == ExtractErn(rest))
            && (ExtractErn(rest).None? && pendingErn.Some? && IsValidErn(pendingErn.value) ==> ern == pendingErn)
            && (ern.None? <==> ExtractErn(rest).None? && (pendingErn.None? || !IsValidErn(pendingErn.value)))
            && (ern.Some? ==> IsValidErn(ern.value))
  {
    ExtractedErnIsValid(rest);
  }

  /** A word the cleaned name is made of: alphabetic, capitalized and not a gender word. */
  predicate IsNameWord(w: string) {
    IsAlphaWord(w) && IsUpper(w[0]) && (forall k :: 1 <= k < |w| ==> IsLower(w[k]))
    && Upper(w) != "MALE" && Upper(w) != "FEMALE"
  }

  /** Every kept word, once capitalized, is a name word. */
  lemma {:induction false} NameWordsShape(ws: seq<string>)
    ensures forall k :: 0 <= k < |NameWords(ws)| ==> IsNameWord(NameWords(ws)[k])
  {
    if ws != [] {
      NameWordsShape(ws[1..]);
      if KeepsNameWord(ws[0]) {
        UpperCapitalize(ws[0]);
        assert IsNameWord(Capitalize(ws[0]));
      }
    }
  }

  /** The name words are chosen word by word, so the choice can be made piece by piece, in order. */
  lemma {:induction false} NameWordsAppend(a: seq<string>, b: seq<string>)
    ensures NameWords(a + b) == NameWords(a) + NameWords(b)
  {
    if a != [] {
      assert (a + b)[1..] == a[1..] + b;
      NameWordsAppend(a[1..], b);
    } else {
      assert a + b == b;
    }
  }

  /** One word is kept, capitalized, exactly when it is alphabetic and not a gender word. */
  lemma {:induction false} NameWordsOne(w: string)
    ensures NameWords([w]) == if KeepsNameWord(w) then [Capitalize(w)] else []
  {
    assert [w][1..] == [];
  }

  /**
   * With a status word in the line, the name is read from the stripped text
   * before the leftmost one: its alphabetic words other than `MALE` and
   * `FEMALE`, capitalized, in order, joined by single spaces.
   */
  lemma NameBeforeStatus(rest: string, p: nat, a: nat)
    requires a < |StatusWords| && WordAt(rest, p, StatusWords[a], true)
    requires forall q: nat, b :: q < p && 0 <= b < |StatusWords| ==> !WordAt(rest, q, StatusWords[b], true)
    requires forall b :: 0 <= b < a ==> !WordAt(rest, p, StatusWords[b], true)
    ensures NameOf(rest) == Join(NameWords(Split(Strip(rest[..p]))), " ")
  {
    SearchWordsFinds(rest, StatusWords, true, p, a);
  }

  /**
   * Without a status word, the name is read from the text before the first
   * `(` and before the first `MU-`, with the whole words `MALE` and `FEMALE`
   * cut out.
   */
  lemma NameWithoutStatus(rest: string)
    requires forall q: nat, b :: 0 <= b < |StatusWords| ==> !WordAt(rest, q, StatusWords[b], true)
    ensures NameOf(rest) == Join(NameWords(Split(Strip(RemoveWords(Strip(BeforeText(BeforeText(rest, "("), "MU-")), GenderWords, 0)))), " ")
  {
    assert SearchWords(rest, StatusWords, true, 0).None?;
  }

  /**
   * The name is the words of a list joined by single spaces, each of them
   * alphabetic, capitalized and not a gender word.
   */
  lemma NameOfShape(rest: string)
    ensures exists ws :: NameOf(rest) == Join(ws, " ") && forall k :: 0 <= k < |ws| ==> IsNameWord(ws[k])
  {
    var ws := NameWords(Split(NamePart(rest, SearchWords(rest, StatusWords, true, 0))));
    NameWordsShape(Split(NamePart(rest, SearchWords(rest, StatusWords, true, 0))));
    assert NameOf(rest) == Join(ws, " ");
  }

  /** When there is no whole-word gender left, the removal changes nothing. */
  lemma {:induction false} RemoveWordsNone(s: string, words: seq<string>, i: nat)
    requires i <= |s|
    requires forall b :: 0 <= b < |words| ==> |words[b]| > 0
    requires forall p, b :: i <= p && 0 <= b < |words| ==> !WordAt(s, p, words[b], false)
    ensures RemoveWords(s, words, i) == s[i..]
    decreases |s| - i
  {
    if i < |s| {
      RemoveWordsNone(s, words, i + 1);
      assert s[i..] == [s[i]] + s[i + 1..];
    }
  }

  /**
   * The college has no surrounding whitespace; it is empty when no
   * `MU-<digits>:` code occurs, and otherwise it is the stripped text after
   * the first such code.
   */
  lemma CollegeShape(rest: string)
    ensures var c := College(rest);
            (c == [] || (!IsSpace(c[0]) && !IsSpace(c[|c| - 1])))
            && ((forall p: nat :: CollegeCodeAt(rest, p).None?) ==> c == [])
            && (c != [] ==> exists p: nat :: CollegeCodeAt(rest, p).Some? && CollegeCodeAt(rest, p).value < |rest|
                                             && (forall q :: 0 <= q < p ==> CollegeCodeAt(rest, q).None?)
                                             && c == Strip(rest[CollegeCodeAt(rest, p).value..]))
  {
    match FirstCollegeCode(rest, 0)
    case None =>
    case Some(p) =>
      var e := CollegeCodeAt(rest, p).value;
      if e < |rest| {
        assert College(rest) == Strip(rest[e..]);
      }
  }

  /** A college code at `p` with none between `i` and `p` is the one found from `i`. */
  lemma {:induction false} FirstCollegeCodeIs(s: string, i: nat, p: nat)
    requires i <= p && CollegeCodeAt(s, p).Some?
    requires forall q :: i <= q < p ==> CollegeCodeAt(s, q).None?
    ensures FirstCollegeCode(s, i) == Some(p)
    decreases p - i
  {
    if i < p {
      FirstCollegeCodeIs(s, i + 1, p);
    }
  }

  /**
   * The college is read after the first `MU-<digits>:` code of the text: the
   * stripped text after it, or nothing when the code ends the text.
   */
  lemma CollegeAtFirstCode(rest: string, p: nat)
    requires CollegeCodeAt(rest, p).Some?
    requires forall q :: 0 <= q < p ==> CollegeCodeAt(rest, q).None?
    ensures CollegeCodeAt(rest, p).value < |rest| ==> College(rest) == Strip(rest[CollegeCodeAt(rest, p).value..])
    ensures CollegeCodeAt(rest, p).value == |rest| ==> College(rest) == []
  {
    FirstCollegeCodeIs(rest, 0, p);
  }

  /**
   * `re.search` finds the word `words[a]` at `p` when no alternative occurs as
   * a whole word before `p` and no earlier alternative occurs at `p`.
   */
  lemma SearchWordsFinds(s: string, words: seq<string>, ignoreCase: bool, p: nat, a: nat)
    requires a < |words| && WordAt(s, p, words[a], ignoreCase)
    requires forall q: nat, b :: q < p && 0 <= b < |words| ==> !WordAt(s, q, words[b], ignoreCase)
    requires forall b :: 0 <= b < a ==> !WordAt(s, p, words[b], ignoreCase)
    ensures SearchWords(s, words, ignoreCase, 0) == Some((p, a))
  {
    var r := SearchWords(s, words, ignoreCase, 0);
    assert r.Some?;
    assert r.value.0 == p;
  }

  /**
   * The status is the leftmost whole-word `Regular`, `Repeater` or `ATKT` in
   * any case, as it is written in the line.
   */
  lemma StatusIsLeftmostWord(rest: string, p: nat, a: nat)
    requires a < |StatusWords| && WordAt(rest, p, StatusWords[a], true)
    requires forall q: nat, b :: q < p && 0 <= b < |StatusWords| ==> !WordAt(rest, q, StatusWords[b], true)
    requires forall b :: 0 <= b < a ==> !WordAt(rest, p, StatusWords[b], true)
    ensures StatusOf(rest) == rest[p..p + |StatusWords[a]|]
    ensures Upper(StatusOf(rest)) == Upper(StatusWords[a])
  {
    SearchWordsFinds(rest, StatusWords, true, p, a);
    UpperOfMatch(rest, p, StatusWords[a]);
  }

  /** The gender is the leftmost whole-word `MALE` or `FEMALE` in any case, upper-cased. */
  lemma GenderIsLeftmostWord(rest: string, p: nat, a: nat)
    requires a < |GenderWords| && WordAt(rest, p, GenderWords[a], true)
    requires forall q: nat, b :: q < p && 0 <= b < |GenderWords| ==> !WordAt(rest, q, GenderWords[b], true)
    requires forall b :: 0 <= b < a ==> !WordAt(rest, p, GenderWords[b], true)
    ensures GenderOf(rest) == Some(GenderWords[a])
  {
    SearchWordsFinds(rest, GenderWords, true, p, a);
    UpperOfMatch(rest, p, GenderWords[a]);
    assert Upper(GenderWords[a]) == GenderWords[a];
  }

  /**
   * What a parsed header holds: a seven-digit seat number, a name made of
   * capitalized alphabetic words, a gender that is `MALE`, `FEMALE` or
   * missing, a valid ERN when there is one, and a status that is one of the
   * three known words.
   */
  lemma HeaderFields(line: string, pendingErn: Option<string>)
    requires ParseHeaderLine(line, pendingErn).Some?
    ensures var h := ParseHeaderLine(line, pendingErn).value;
            |h.seatNumber| == 7 && IsDigits(h.seatNumber)
            && (exists ws :: h.name == Join(ws, " ") && forall k :: 0 <= k < |ws| ==> IsNameWord(ws[k]))
            && (h.gender == None || h.gender == Some("MALE") || h.gender == Some("FEMALE"))
            && (h.ern.Some? ==> IsValidErn(h.ern.value))
            && (Upper(h.status) == "REGULAR" || Upper(h.status) == "REPEATER" || Upper(h.status) == "ATKT")
  {
    var rest := HeaderRest(Strip(line));
    NameOfShape(rest);
    GenderOfShape(rest);
    ChosenErn(rest, pendingErn);
    StatusOfShape(rest);
  }
}
