# Mumbai University result parser, modelled in Dafny

This project models the text-to-record engine of a Mumbai University (MU)
result-sheet parser. The engine reads the text lines of a result document.
It cuts them into student blocks. A block begins at a header line that starts
with a 7-digit seat number. The engine parses each block's rows:

- the `T1`, `O1`, `E1` and `I1` component rows: term work, oral, external and internal marks;
- the `TOT` row: per-subject total, grade point, grade, credits and credit points, followed by the SGPA;
- the `(N) PASS` or `(N) FAILED` summary.

It then stores one student record per block, keyed by the student's ERN
(enrollment number, `MU` followed by 16 digits) or, failing that, by seat number.

The modules follow the structure of the program:

| module | file | models |
|---|---|---|
| `Wrappers` | wrappers.dfy | `Option` |
| `Text` | text.dfy | `str.strip`, `str.split()`, `startswith`, `upper`, `capitalize`, ASCII character classes |
| `Numbers` | numbers.dfy | `int()` on digit strings (with CPython's 4300-digit limit), `float()` on decimal tokens as an exact `Decimal`, exact sums |
| `Validation` | validation.dfy | `is_valid_ern`, `extract_ern`, `is_seat_number_line` |
| `TotLine` | tot_line.dfy | `parse_tot_line`: a while-loop method proved equal to a step function over the token index |
| `ComponentLine` | component_line.dfy | `parse_component_line`: the same shape |
| `HeaderLine` | header_line.dfy | `parse_header_line` as pure functions |
| `Summary` | summary.dfy | `parse_summary_from_lines` (a first-match loop) |
| `Subjects` | subjects.dfy | the subject tables, the four index maps, `detect_subject_kt_type`, `detect_kt` |
| `StudentBlock` | student_block.dfy | `_parse_student_block`: the row loop, subject building and the record |
| `ResultParser` | result_parser.dfy | the `MUResultParser` class: `parse` given page texts, and `_parse_all_lines` (block starts, floating ERNs, ERN assignment, block filter, store) |

Regular expressions are written out as explicit character predicates and
scans. Where a step is a `while` loop in the program, it is a Dafny `method` with a loop.
That method is proved equal to a recursive specification function, and the
properties are proved about that function. `MUResultParser` is a class whose
`students` map and `errors` list are updated in place by its methods.

How the model represents some Python behaviour:

- **Exceptions.** Python exceptions inside the TOT scan are modelled as the skip and resync steps the `except` clause takes.
- **`int()` on digits.** The only `int()` on digits that can raise is one longer than CPython's default limit of 4300 digits. In a component row or the summary, this makes the block raise (`BlockOutcome.Raised`). The parser then records the block's start line in `errors` and goes on.
- **Dictionary order.** `floating_erns` is filled and then iterated in line order, so it is a sequence of `(line, ERN)` pairs in line order. `ern_for_block` is never iterated: it is written in the floating ERNs' line order, so a later write to the same start replaces an earlier one, and it is read with `.get(start)`. It is a `map` from block start to ERN.

## Model

| member | source | states |
|---|---|---|
| `Validation.IsValidErn` | api/mu_parser.py:102-106 | a valid ERN text is never shorter than the 18 characters of `MU` and sixteen digits |
| `Validation.ValidErnDecorated` | api/mu_parser.py:102-106 | an ERN in any letter case, with text that holds no letters or digits before and after it (spaces, brackets, punctuation), is valid |
| `Validation.CleanErnAppend` | api/mu_parser.py:105 | cleaning a concatenation is the concatenation of the cleaned parts |
| `Validation.CleanErn` | api/mu_parser.py:105 | the cleaned text is no longer than the input and holds only upper-case letters and digits |
| `Validation.CleanKeepsUpperAndDigits` | api/mu_parser.py:105 | cleaning leaves a text of upper-case letters and digits unchanged |
| `Validation.FirstErnFrom` | api/mu_parser.py:110 | finds the leftmost position from `i` where `MU` and 16 digits begin, and there is none before it |
| `Validation.ExtractErn` | api/mu_parser.py:109-111 | `None` exactly when no `MU`+16 digits occurs anywhere; otherwise the 18 characters at the leftmost occurrence |
| `Validation.ExtractedErnIsValid` | api/mu_parser.py:102-111 | every extracted ERN passes `is_valid_ern` |
| `Validation.IsSeatNumberLine` | api/mu_parser.py:114-117 | true exactly when the stripped line is 7 digits, then at least one whitespace character, then an upper-case letter |
| `Text.Strip` | api/mu_parser.py:132 | the result is a contiguous slice of the input, only whitespace was cut at both ends, and it neither starts nor ends with whitespace |
| `Text.Split` | api/mu_parser.py:135 | every token of `str.split()` is non-empty and holds no whitespace |
| `Text.RowTokens` | api/mu_parser.py:132-135 | the tokens after removing a leading row marker are non-empty and hold no whitespace |
| `Text.Upper` | api/mu_parser.py:105 | same length as the input, each character upper-cased |
| `Text.Capitalize` | api/mu_parser.py:372 | same length; first character upper-cased, the rest lower-cased |
| `Text.UpperCapitalize` | api/mu_parser.py:372-373 | upper-casing a capitalized word gives the upper-cased word, so the MALE/FEMALE test sees the same word |
| `Text.TrimmedLengthAt` | api/mu_parser.py:395 | the trimmed length is the unique cut point after which only whitespace follows |
| `Numbers.ParseDigitsShowNat` | api/mu_parser.py:278-280 | `int()` of the decimal digits of `n` gives `n` back whenever the digits are within the 4300-digit limit |
| `Numbers.ParseIntSigned` | api/mu_parser.py:182-183 | `int()` accepts an optional `+` or `-` sign in front of the digits and negates for `-` |
| `Numbers.ParseIntShape` | api/mu_parser.py:186-188 | a string `int()` accepts is digits, or a `+` or `-` sign followed by digits |
| `Numbers.ParseFloatDigits` | api/mu_parser.py:213-222 | `float()` of a digit string is that whole number |
| `Numbers.ParseFloatDecimalToken` | api/mu_parser.py:272-275 | every `\d+\.\d+` token parses as a non-negative decimal |
| `Numbers.DigitTokenIsNoMarker` | api/mu_parser.py:267-278 | a digit-only token is never a decimal, a grace token, `...`, `P`, `F` or `+` |
| `Numbers.AddValue` | api/mu_parser.py:660-661 | the exact sum of two decimals has the value of the sum of their values |
| `Numbers.SumValue` | api/mu_parser.py:660-661 | the exact sum of a list of decimals has the value of the sum of their values |
| `TotLine.PeelSummary` | api/mu_parser.py:138-165 | tokens are peeled off the end exactly when the last token is a number in [0,10], and the SGPA is then that number; otherwise the SGPA is 0 and nothing is removed; what remains is a prefix of the tokens, at most 3 shorter |
| `TotLine.PeelThreeNumbers` | api/mu_parser.py:143-165 | a body followed by three numbers, the last in [0,10], peels to the body and that SGPA |
| `TotLine.StepAt` | api/mu_parser.py:169-235 | one pass of the scan: a skip always moves the index forward; a recorded group consumes at least 5 tokens and has a grade matching `[ABCDFO]\+?` |
| `TotLine.ParseTotLine` | api/mu_parser.py:122-237 | the method's groups and SGPA are those of the scan specification; the SGPA is in [0,10]; 5 x (number of groups) <= number of tokens; every grade matches `[ABCDFO]\+?` |
| `TotLine.PeelSummaryTokens` | api/mu_parser.py:138-165 | the peeling code computes `PeelSummary` |
| `TotLine.ScanTotGroups` | api/mu_parser.py:168-235 | the while loop computes the scan specification |
| `TotLine.ScanStep` | api/mu_parser.py:169-235 | one loop pass computes `StepAt` |
| `TotLine.ScanGradePoint` | api/mu_parser.py:192-211 | the grade-point and grade part of a pass computes its step |
| `TotLine.ScanCredits` | api/mu_parser.py:213-231 | the credits part of a pass computes its step |
| `TotLine.ScanGroupsGrows` | api/mu_parser.py:168-237 | the scan only appends; each new group has a valid grade and there are at most (remaining tokens)/5 new groups |
| `TotLine.WellFormedGroupStep` | api/mu_parser.py:180-231 | a well-formed `total gp grade credits creditPoints` group is recorded with its own values and the scan moves past it |
| `TotLine.ScanWellFormedGroups` | api/mu_parser.py:168-237 | a token list made of well-formed groups scans to exactly those groups, in order |
| `TotLine.TotRowRoundTrip` | api/mu_parser.py:122-237 | a TOT row built from well-formed groups and three trailing numbers parses back to those groups and that SGPA |
| `TotLine.GraceGroupStep` | api/mu_parser.py:182-190 | an `@g` grace token after the total is added to the total |
| `TotLine.MalformedGradeSkipped` | api/mu_parser.py:210-211 | when the grade does not match, the scan resumes after the grade token and records nothing |
| `TotLine.DigitTokenFacts` | api/mu_parser.py:175-183 | a digit token is a valid total whose value `int()` gives when within the digit limit |
| `ComponentLine.ComponentTokens` | api/mu_parser.py:252-258 | the tokens left after removing the prefix and the trailing summary are no more than the row's tokens |
| `ComponentLine.DropTrailing` | api/mu_parser.py:255-258 | removing a trailing `MARKS` or `...` leaves a prefix, one token shorter only when that token was the word and another token precedes it |
| `ComponentLine.DropResult` | api/mu_parser.py:256 | removing a trailing `(N) PASS/FAILED/FAIL` leaves a prefix |
| `ComponentLine.DropPlaceholderPass` | api/mu_parser.py:257 | removing a trailing `... P` leaves a prefix |
| `ComponentLine.SummaryIsCutOff` | api/mu_parser.py:254-258 | a row body followed by `(N) PASS` is cut back to exactly the body |
| `ComponentLine.MarkStepAt` | api/mu_parser.py:264-315 | standalone `P`, `F`, `...` and decimals are skipped and give no mark; a mark comes only from a digit-only token and its value is that number plus a parsable `@g` grace; the step raises only on an over-long digit token |
| `ComponentLine.AfterGradeNotation` | api/mu_parser.py:300-313 | skipping the grade notation after a mark never moves backwards or past the end |
| `ComponentLine.ParseComponentLine` | api/mu_parser.py:242-317 | the method's marks are those of the scan specification over the row's tokens |
| `ComponentLine.ScanMarkStep` | api/mu_parser.py:264-315 | one loop pass computes `MarkStepAt` |
| `ComponentLine.SkipGradeNotation` | api/mu_parser.py:300-313 | the skipping code computes `AfterGradeNotation` |
| `ComponentLine.ScanMarksBound` | api/mu_parser.py:263-317 | the scan only appends, and adds at most one mark per digit-only token |
| `ComponentLine.ComponentMarksBound` | api/mu_parser.py:242-317 | number of marks <= digit-only tokens <= tokens |
| `ComponentLine.DigitTokenCountMonotone` | api/mu_parser.py:263-317 | fewer tokens ahead never means more digit tokens ahead |
| `ComponentLine.MarkGroupStep` | api/mu_parser.py:278-313 | a `mark [@g]` followed by `P`/`F` and an optional decimal, or by a grade point, `P`/`F` and an optional decimal, group gives exactly one mark and the scan moves past the whole group |
| `ComponentLine.ScanMarkGroups` | api/mu_parser.py:263-317 | a row made of mark groups gives exactly one mark per group, in order |
| `ComponentLine.SkipsGradeNotation` | api/mu_parser.py:300-313 | the grade notation after a mark is skipped exactly |
| `ComponentLine.ScanBareMarks` | api/mu_parser.py:278-293 | a row of bare digit tokens gives their values, in order |
| `ComponentLine.BareMarkBeforeGradedMark` | api/mu_parser.py:306-313 | `mark GP P` or `mark GP F`: the grade-point integer is not taken as a second mark |
| `ComponentLine.ResultWordShape` | api/mu_parser.py:256 | a result word (`PASS`, `FAIL` or `FAILED` in any case) is four or six characters long, does not start with `(`, and is neither a `(N)` count nor a `(N)WORD` token |
| `HeaderLine.SearchWords` | api/mu_parser.py:341-346 | `re.search` for whole-word alternatives: the leftmost position where one matches, the first alternative there, and no match before it |
| `HeaderLine.FirstAlternative` | api/mu_parser.py:341-346 | the first alternative that matches as a whole word at a position, and none before it |
| `HeaderLine.BeforeText` | api/mu_parser.py:366 | `s.split(sep)[0]`: the longest prefix not containing `sep` |
| `HeaderLine.HeaderRest` | api/mu_parser.py:333-338 | the rest of the line after the seat number and its whitespace is a proper suffix |
| `HeaderLine.RemoveWords` | api/mu_parser.py:368 | removing whole words never lengthens the text |
| `HeaderLine.RemoveWordsNone` | api/mu_parser.py:368 | with no whole-word match, nothing is removed |
| `HeaderLine.FirstCollegeCode` | api/mu_parser.py:357 | the position of the leftmost `MU-<digits>:` at or after `i`, with none between `i` and it; `None` exactly when no code occurs from `i` |
| `HeaderLine.FirstCollegeCodeIs` | api/mu_parser.py:357 | a code with no code before it, from `i`, is the one found |
| `HeaderLine.HeaderSeatNumber` | api/mu_parser.py:331-337 | the result is `None` exactly when the stripped line does not begin with 7 digits and whitespace; the seat number is those 7 digits |
| `HeaderLine.SeatLineHasHeader` | api/mu_parser.py:331-337 | every line `is_seat_number_line` accepts gives a header |
| `HeaderLine.StatusIsLeftmostWord` | api/mu_parser.py:341-342 | when the leftmost whole-word status is `StatusWords[a]` at `p`, the status is the text at `p`, as written, and it upper-cases to that word |
| `HeaderLine.StatusOfShape` | api/mu_parser.py:341-342 | the status is Regular, Repeater or ATKT, in the line's case, and `Regular` when none occurs as a word |
| `HeaderLine.GenderIsLeftmostWord` | api/mu_parser.py:345-346 | when the leftmost whole-word gender is `MALE` or `FEMALE` at `p`, in any case, the gender is that word in upper case |
| `HeaderLine.SearchWordsFinds` | api/mu_parser.py:341 | a word-bounded search finds the leftmost position where an alternative occurs, with the first alternative that occurs there |
| `HeaderLine.GenderOfShape` | api/mu_parser.py:345-346 | the gender is `MALE`, `FEMALE` or `None`, and `None` exactly when neither occurs as a word |
| `HeaderLine.ChosenErn` | api/mu_parser.py:349-353 | the ERN is the inline match, else the pending ERN when it is valid, else `None`; a chosen ERN is always valid |
| `HeaderLine.CollegeShape` | api/mu_parser.py:356-359 | the college has no surrounding whitespace, is empty without an `MU-<digits>:` code, and when not empty is the stripped text after the first code |
| `HeaderLine.CollegeAtFirstCode` | api/mu_parser.py:356-359 | with the first code at `p`, the college is the stripped text after it, or empty when the code ends the text |
| `HeaderLine.NameWordsShape` | api/mu_parser.py:371-374 | every kept name word is alphabetic, capitalized, and not MALE/FEMALE |
| `HeaderLine.NameWordsAppend` | api/mu_parser.py:371-374 | the words are chosen one at a time and in order: the choice over a concatenation is the concatenation of the choices |
| `HeaderLine.NameWordsOne` | api/mu_parser.py:371-374 | a single word is kept, capitalized, exactly when it is alphabetic and does not upper-case to MALE or FEMALE |
| `HeaderLine.NameBeforeStatus` | api/mu_parser.py:362-374 | with a status word at the leftmost match `p`, the name is the kept words of the stripped text before `p`, capitalized and joined by single spaces |
| `HeaderLine.NameWithoutStatus` | api/mu_parser.py:362-374 | with no status word, the name is the kept words of the text before the first `(` and the first `MU-`, with whole-word MALE and FEMALE cut out |
| `HeaderLine.NameOfShape` | api/mu_parser.py:362-374 | the name is a space-joined list of such words; `NameBeforeStatus` and `NameWithoutStatus` say which words |
| `HeaderLine.HeaderFields` | api/mu_parser.py:322-383 | all the header fields at once: a 7-digit seat number, a name of valid words, a valid gender, a valid ERN or none, a known status |
| `HeaderLine.UpperOfMatch` | api/mu_parser.py:341-346 | a case-insensitive whole-word match is the word up to case |
| `Summary.DigitRunStart` | api/mu_parser.py:395 | the start of the digit run before a position is not after it |
| `Summary.DigitRun` | api/mu_parser.py:395 | the `\d+` run ends at the position and cannot be extended to the left |
| `Summary.ResultWordShape` | api/mu_parser.py:395 | a matched result word is PASS, FAILED or FAIL and ends the text as a word |
| `Summary.MatchShape` | api/mu_parser.py:395 | a summary match has a digit-only count and a result word |
| `Summary.MatchCountDigits` | api/mu_parser.py:395 | the `(\d+)` group is digits, next to the matched word |
| `Summary.MatchCountOf` | api/mu_parser.py:395 | `pre(N) ` before the word matches with count `N` |
| `Summary.WordAtEnd` | api/mu_parser.py:395 | a line ending in PASS, FAILED or FAIL ends in that result word |
| `Summary.SummaryLineRoundTrip` | api/mu_parser.py:395 | a line `pre(N) WORD` matches with the digits of `N` and that word |
| `Summary.ParseSummary` | api/mu_parser.py:388-406 | the first-match loop computes the summary specification |
| `Summary.SummaryResult` | api/mu_parser.py:390-405 | the result is always PASS or FAILED, and the SGPA is the TOT line's |
| `Summary.SummaryWithoutSummaryLine` | api/mu_parser.py:388-406 | with no `(N) PASS/FAILED/FAIL` line the summary is 0 marks, FAILED |
| `Summary.FirstSummaryLineDecides` | api/mu_parser.py:393-399 | the first matching line decides the marks and the result; later lines are ignored |
| `Summary.SummaryOfOneLine` | api/mu_parser.py:388-406 | a block with the single line `pre(N) WORD` gives `N` marks and PASS only for PASS |
| `Summary.VerdictOfResultWords` | api/mu_parser.py:398 | for every word: the verdict is `PASS` exactly when the word upper-cases to `PASS`, and a word that upper-cases to `FAILED` or `FAIL` gives `FAILED` |
| `Summary.SameWordIsUpper` | api/mu_parser.py:395 | matching a word while ignoring case is comparing its upper-cased form |
| `Subjects.CodesDistinct` | api/mu_parser.py:24-42 | there are 14 subject codes and 14 titles, and the codes are distinct |
| `Subjects.TermWorkPlaces` | api/mu_parser.py:64-73 | the term-work map is a bijection from the 8 listed ordinals onto positions 0..7 |
| `Subjects.OralPlaces` | api/mu_parser.py:55-59 | the oral map is a bijection from ordinals 7, 8, 12 onto positions 0..2 |
| `Subjects.ExternalPlaces` | api/mu_parser.py:78-85 | the external map is a bijection from the 6 listed ordinals onto positions 0..5 |
| `Subjects.InternalPlaces` | api/mu_parser.py:89-97 | the internal map is a bijection from the 7 listed ordinals onto positions 0..6 |
| `Subjects.PlacesOneToOne` | api/mu_parser.py:55-97 | two ordinals of one table never share a position |
| `Subjects.ComponentMark` | api/mu_parser.py:616-627 | a component is present exactly when the ordinal is in the table and its position is inside the mark list |
| `Subjects.OralOnlyForLabs` | api/mu_parser.py:618-621 | oral is `None` for every ordinal but 7, 8 and 12, and present for those when the O1 row has 3 marks |
| `Subjects.TableGaps` | api/mu_parser.py:61-85 | theory ordinals 1-4, 9, 13 have no term work; lab ordinals have no external mark |
| `Subjects.SubjectKtType` | api/mu_parser.py:411-413 | the KT kind is `None` exactly when the subject is not a KT (grade not F and grade point above 0) |
| `Subjects.KtPriority` | api/mu_parser.py:414-422 | the KT kind follows the priority external=0, internal=0, term work=0, oral=0, else overall, in both directions |
| `Subjects.DetectKt` | api/mu_parser.py:425-435 | `hasKT` holds exactly when `totalKT > 0` |
| `Subjects.KindsSplitKts` | api/mu_parser.py:428-432 | internal + external (with overall) + term work + oral counts add up to the KT count |
| `Subjects.KtSummaryConsistent` | api/mu_parser.py:425-435 | the same for the `detect_kt` record |
| `Subjects.FailedNamesOfKts` | api/mu_parser.py:425-435 | the failed-subject list has one name per KT subject, each the name of a KT subject |
| `Subjects.KtCountPositive` | api/mu_parser.py:426-434 | the KT count is positive exactly when some subject is a KT |
| `StudentBlock.Take` | api/mu_parser.py:587-602 | `marks[:n]`: the first `min(n, len)` marks |
| `StudentBlock.ReadRow` | api/mu_parser.py:586-604 | one pass of the row loop computes the row step |
| `StudentBlock.ScanRows` | api/mu_parser.py:578-604 | the row loop computes the row specification over all lines |
| `StudentBlock.RowsWithinCuts` | api/mu_parser.py:588-602 | after the row loop the T1, O1, E1, I1 lists hold at most 8, 3, 6, 7 marks |
| `StudentBlock.RowStepWithinCuts` | api/mu_parser.py:587-602 | one row keeps the component lists within 8, 3, 6, 7 marks |
| `StudentBlock.WithMarksWithinCuts` | api/mu_parser.py:588-602 | replacing one component list with a truncated one keeps all within their limits |
| `StudentBlock.RowStepTot` | api/mu_parser.py:603-604 | a row either leaves the TOT groups and SGPA as they were or, for a `TOT ` line, sets them to that line's |
| `StudentBlock.TotalsStep` | api/mu_parser.py:603-604 | a `TOT ` line replaces the groups and the SGPA with its own |
| `StudentBlock.ComponentStepKeepsTot` | api/mu_parser.py:587-602 | a component row leaves the TOT groups and SGPA alone |
| `StudentBlock.TotFromTotLine` | api/mu_parser.py:585-604 | the final groups and SGPA are the initial ones or those of some `TOT ` line of the block |
| `StudentBlock.BuildSubjects` | api/mu_parser.py:610-654 | the subject loop computes the subject list specification |
| `StudentBlock.SubjectsOfShape` | api/mu_parser.py:611-654 | there are min(TOT groups, 14) subjects, each classified consistently |
| `StudentBlock.SubjectAtShape` | api/mu_parser.py:612-639 | subject `i` has code `SUBJECT_CODES[i]` and that code's title |
| `StudentBlock.TitleOfCode` | api/mu_parser.py:639 | the lookup of each code gives its title |
| `StudentBlock.TitleFrom` | api/mu_parser.py:639 | the title lookup from any earlier table position finds the code's title |
| `StudentBlock.ParseStudentBlock` | api/mu_parser.py:567-679 | the method computes the block specification |
| `StudentBlock.BlockOutcomeCases` | api/mu_parser.py:567-607 | no record exactly when there are fewer than 2 lines, no header or no TOT groups; a raise comes only from a row or the summary |
| `StudentBlock.ParsedRecord` | api/mu_parser.py:569-679 | a parsed record is the assembly of the header, the subjects and the summary; it has subjects; its marks follow the fallback |
| `StudentBlock.AssembleShape` | api/mu_parser.py:657-679 | the record carries the header's fields, 800 max marks, the summary's result and SGPA, the total-marks fallback and consistent KT counts |
| `StudentBlock.NoSummaryLineFallback` | api/mu_parser.py:656-659 | with no summary line the result is FAILED and the total marks are the sum of the subject totals |
| `StudentBlock.CreditsAdd` | api/mu_parser.py:660-661 | the credit sum has the value of the sum of the subjects' credits |
| `StudentBlock.CreditsLength` | api/mu_parser.py:660 | one credit entry per subject |
| `ResultParser.SplitLinesJoin` | api/mu_parser.py:464 | `text.split('\n')` joined back with newlines is the text, and no piece holds a newline |
| `ResultParser.SplitLines` | api/mu_parser.py:464 | the split always has at least one piece |
| `ResultParser.CollectLines` | api/mu_parser.py:455-465 | the page loop lays the lines of every page with text end to end, in page order |
| `ResultParser.MUResultParser.Parse` | api/mu_parser.py:448-481 | `parse` runs `_parse_all_lines` on the collected lines and returns the student map |
| `ResultParser.FindBlockStarts` | api/mu_parser.py:489-493 | the loop computes the indices of the block-opening lines |
| `ResultParser.BlockStartsShape` | api/mu_parser.py:489-493 | the starts increase strictly, each is a seat-number line, and every seat-number line is a start |
| `ResultParser.MarkedShape` | api/mu_parser.py:490-493 | the marked indices increase strictly, are all marked, and include every marked index |
| `ResultParser.BlocksDisjoint` | api/mu_parser.py:522-523 | each block is non-empty, lies within the lines, and ends no later than any later block starts |
| `ResultParser.FloatingErnAt` | api/mu_parser.py:500-508 | a floating ERN is on a line that is not a block start and is valid |
| `ResultParser.FindFloatingErns` | api/mu_parser.py:499-508 | the loop computes the floating ERNs, in line order |
| `ResultParser.FloatingErnsShape` | api/mu_parser.py:499-508 | each floating ERN is on a non-start line and is valid, and their lines increase |
| `ResultParser.PresentShape` | api/mu_parser.py:499-508 | each collected pair is the value present at its index, and the indices increase |
| `ResultParser.ErnAtLine` | api/mu_parser.py:500-508 | a line's entry is a valid ERN on a non-start line |
| `ResultParser.FirstStartAfterShape` | api/mu_parser.py:514-519 | the inner loop finds the first start after the ERN line in the list, or there is none |
| `ResultParser.FindStartAfter` | api/mu_parser.py:514-519 | the inner loop computes that first start |
| `ResultParser.TargetBlockShape` | api/mu_parser.py:514-519 | an ERN goes only to the first start after its line, and only when that start is at most 5 lines on; otherwise it goes nowhere |
| `ResultParser.ErnForBlock` | api/mu_parser.py:511-519 | the loop computes the ERN assignment |
| `ResultParser.AssignErnsOnlyTargets` | api/mu_parser.py:511-519 | a block gets an ERN only from a floating ERN that targets it |
| `ResultParser.AssignErnsUntargeted` | api/mu_parser.py:511-519 | a block no floating ERN targets keeps what it had |
| `ResultParser.AssignErnsLastWins` | api/mu_parser.py:511-519 | a block gets the ERN of the last floating ERN, in line order, that targets it |
| `ResultParser.NonEmptyShape` | api/mu_parser.py:526 | every kept line is a non-empty stripped line, and every non-empty stripped line is kept |
| `ResultParser.NonEmptyCounts` | api/mu_parser.py:526 | each non-empty line is kept as often as it occurs and the empty line never: the multiset is the input's with the empty string removed |
| `ResultParser.NonEmptyAppend` | api/mu_parser.py:526 | the filter keeps the order: filtering a concatenation concatenates the filtered parts |
| `ResultParser.FilterBlock` | api/mu_parser.py:529-546 | the filter loop with its `break`s computes the filter specification |
| `ResultParser.FirstPageHeaderShape` | api/mu_parser.py:531-543 | the cut point is the first page-header line, and no line before it is one |
| `ResultParser.FilterIsCutThenDrop` | api/mu_parser.py:529-546 | the kept lines are those before the first page header, with the lone `)` lines removed |
| `ResultParser.FilteredLines` | api/mu_parser.py:529-546 | no kept line is a lone `)` or a page header |
| `ResultParser.Slice` | api/mu_parser.py:526 | `s[a:b]` is the plain slice when the bounds are in range |
| `ResultParser.ReadBlock` | api/mu_parser.py:522-560 | one block: empty after filtering or a repeater gives nothing, else the parsed outcome with the block's pending ERN |
| `ResultParser.RepeaterSkipped` | api/mu_parser.py:554-557 | a block whose first kept line names `Repeater` as a word, in any case, gives no record and no error |
| `ResultParser.MUResultParser.StoreOutcome` | api/mu_parser.py:559-565 | a record is stored under its key; a raising block's start line goes to the errors |
| `ResultParser.MUResultParser.ParseAllLines` | api/mu_parser.py:483-565 | the students and errors are the result of storing every block's outcome, in block order, with the ERNs assigned to the blocks |
| `ResultParser.MUResultParser.constructor` | api/mu_parser.py:443-446 | a new parser has no students and no errors |
| `ResultParser.StoreKeyed` | api/mu_parser.py:561-563 | storing keeps every record under its own key (ERN if non-empty, else seat number) |
| `ResultParser.StoreReplaces` | api/mu_parser.py:562-563 | a new record replaces what was under its key wholesale; other keys keep their records |
| `ResultParser.StoreFromKeyed` | api/mu_parser.py:522-565 | block after block, every record stays under its own key |
| `ResultParser.ErrorsGrow` | api/mu_parser.py:564-565 | the errors only grow; earlier ones stay in front |
| `ResultParser.ErrorsAreRaisingBlocks` | api/mu_parser.py:559-565 | every new error is the start line of a block that raised |
| `ResultParser.ErrorsAreRaisingStarts` | api/mu_parser.py:559-565 | a raising block does not stop the run: the errors afterwards are the old errors followed by the start lines of the raising blocks, in block order |
| `ResultParser.RaisingStartListed` | api/mu_parser.py:564-565 | every raising block's start line is among the raising starts |
| `ResultParser.RaisingBlockRecorded` | api/mu_parser.py:564-565 | the start line of every block that raises ends up among the errors |
| `ResultParser.UntouchedKeyKept` | api/mu_parser.py:561-563 | a key that no later block parses a record for keeps its record, or stays absent |
| `ResultParser.LastWriteWins` | api/mu_parser.py:561-563 | under each key the final map holds the record of the last block that parsed a record with that key |

## Left out

- PDF text extraction: `pdfplumber` (api/mu_parser.py:455-460) is a foreign library. `Parse` takes the text of each page, `None` for a page without text.
- The progress and summary `print`s in `parse`, `save_json`, `compare_with` and `main` (api/mu_parser.py:681-828) are output and file I/O.
- api/index.py (the HTTP endpoint and the batch statistics) and debug_parser.py are not part of this model.
- `pdf_path` is not a field: the model never opens a file.
- Exception messages: `errors` holds the start line of each raising block. The model does not build the text `Block at line N: <message>` around it.
- `float()`: a decimal token is read as an exact `Decimal` (mantissa and scale). IEEE rounding is not modelled. Neither are exponents, `inf`/`nan` and underscores in number tokens. Credit sums are exact sums of those decimals.
- `int()`: the only error modelled is CPython's 4300-digit limit. Underscores and Unicode digits are not modelled.
- Text: character classes are ASCII, plus Python's whitespace characters. Unicode letters, digits and case mapping beyond ASCII are not modelled. So `isalpha`, `upper` and `capitalize` act on ASCII letters only.
- `cgpa` is always `None` in the source, and the record does not carry it.
- Dictionary iteration order of `self.students` is not modelled. The store is a map; which record a key holds is what the lemmas state.
- `Text.Split`: there is no lemma that joining the tokens back gives the stripped line, because the tokens do not record how much whitespace separated them; only the single-space join of a line already split on single spaces would round-trip, and that lemma is not part of this model.
