/**
 * The line and identifier predicates: a student header starts with a seven
 * digit seat number, and an enrollment reference (ERN) is `MU` followed by
 * sixteen digits.
 */
module Validation {
  import opened Wrappers
  import opened Text

  /** Length of an ERN: the two letters `MU` and sixteen digits. */
  const ErnLength: nat := 18

  /** The regex `^MU\d{16}$`. */
  predicate IsErnShaped(e: string) {
    |e| == ErnLength && e[..2] == "MU" && IsDigits(e[2..])
  }

  /** An ERN starts at position `i` of `s`: the regex `MU\d{16}` matches there. */
  predicate ErnAt(s: string, i: nat) {
    i + ErnLength <= |s| && IsErnShaped(s[i..i + ErnLength])
  }

  /** `text.upper()` with every character outside `[A-Z0-9]` removed. */
  function CleanErn(text: string): (r: string)
    ensures |r| <= |text|
    ensures forall k :: 0 <= k < |r| ==> IsUpper(r[k]) || IsDigit(r[k])
  {
    if text == [] then []
    else
      var c := UpperChar(text[0]);
      (if IsUpper(c) || IsDigit(c) then [c] else []) + CleanErn(text[1..])
  }

  /** `is_valid_ern`: after cleaning, the text is exactly an ERN; it is never shorter than one. */
  function IsValidErn(text: string): (b: bool)
    ensures b ==> |text| >= ErnLength
  {
    text != [] && IsErnShaped(CleanErn(text))
  }

  /** Leftmost position at or after `i` where an ERN starts. */
  function FirstErnFrom(s: string, i: nat): (r: Option<nat>)
    requires i <= |s|
    ensures r.Some? ==> i <= r.value && ErnAt(s, r.value)
    ensures forall j: nat :: i <= j && (r.None? || j < r.value) ==> !ErnAt(s, j)
    decreases |s| - i
  {
    if i + ErnLength > |s| then None
    else if ErnAt(s, i) then Some(i)
    else FirstErnFrom(s, i + 1)
  }

  /** `extract_ern`: the leftmost match of `MU\d{16}` in `text`, if any. */
  function ExtractErn(text: string): (r: Option<string>)
    ensures r.None? <==> forall i: nat :: !ErnAt(text, i)
    ensures r.Some? ==> exists i: nat :: ErnAt(text, i) && r.value == text[i..i + ErnLength]
                          && forall j: nat :: j < i ==> !ErnAt(text, j)
  {
    match FirstErnFrom(text, 0)
    case None => None
    case Some(i) => Some(text[i..i + ErnLength])
  }

  /** `is_seat_number_line`: the stripped line is seven digits, whitespace, then an upper-case letter. */
  function IsSeatNumberLine(text: string): (b: bool)
    ensures b <==> var t := Strip(text);
                   exists k :: 7 < k < |t| && IsDigits(t[..7])
                     && (forall j :: 7 <= j < k ==> IsSpace(t[j])) && IsUpper(t[k])
  {
    var t := Strip(text);
    var b := |t| > 7 && IsDigits(t[..7]) && IsSpace(t[7]) && SkipSpaces(t, 8) < |t| && IsUpper(t[SkipSpaces(t, 8)]);
    assert b ==> var k := SkipSpaces(t, 8); 7 < k < |t| && (forall j :: 7 <= j < k ==> IsSpace(t[j]));
    b
  }

  lemma {:induction false} CleanKeepsUpperAndDigits(e: string)
    requires forall k :: 0 <= k < |e| ==> IsUpper(e[k]) || IsDigit(e[k])
    ensures CleanErn(e) == e
  {
    if e != [] {
      CleanKeepsUpperAndDigits(e[1..]);
    }
  }

  /** Whatever `extract_ern` finds passes `is_valid_ern`. */
  lemma ExtractedErnIsValid(text: string)
    ensures ExtractErn(text).Some? ==> IsValidErn(ExtractErn(text).value)
  {
    if ExtractErn(text).Some? {
      var e := ExtractErn(text).value;
      assert IsErnShaped(e);
      assert forall k :: 2 <= k < |e| ==> e[k] == e[2..][k - 2];
      CleanKeepsUpperAndDigits(e);
    }
  }

  /** Cleaning works character by character, so it can be done piece by piece. */
  lemma {:induction false} CleanErnAppend(a: string, b: string)
    ensures CleanErn(a + b) == CleanErn(a) + CleanErn(b)
  {
    if a != [] {
      assert (a + b)[1..] == a[1..] + b;
      CleanErnAppend(a[1..], b);
    } else {
      assert a + b == b;
    }
  }

  /** Text without letters or digits, in any case: spaces, brackets, punctuation. */
  predicate NoErnChars(s: string) {
    forall k :: 0 <= k < |s| ==> !IsUpper(UpperChar(s[k])) && !IsDigit(UpperChar(s[k]))
  }

  lemma {:induction false} CleanNoErnChars(s: string)
    requires NoErnChars(s)
    ensures CleanErn(s) == []
  {
    if s != [] {
      CleanNoErnChars(s[1..]);
    }
  }

  /** Text whose upper-cased form is all capitals and digits is cleaned to that form. */
  lemma {:induction false} CleanIsUpper(e: string)
    requires forall k :: 0 <= k < |e| ==> IsUpper(UpperChar(e[k])) || IsDigit(UpperChar(e[k]))
    ensures CleanErn(e) == Upper(e)
  {
    if e != [] {
      CleanIsUpper(e[1..]);
      assert Upper(e) == [UpperChar(e[0])] + Upper(e[1..]);
    }
  }

  /**
   * `is_valid_ern` tolerates case and decoration: an ERN written in any case,
   * with spaces, brackets or other characters that are neither letters nor
   * digits before and after it, is valid.
   */
  lemma ValidErnDecorated(pre: string, e: string, post: string)
    requires IsErnShaped(Upper(e))
    requires NoErnChars(pre) && NoErnChars(post)
    ensures IsValidErn(pre + e + post)
  {
    var u := Upper(e);
    assert forall k :: 2 <= k < |u| ==> u[k] == u[2..][k - 2];
    assert forall k :: 0 <= k < |e| ==> UpperChar(e[k]) == u[k];
    CleanIsUpper(e);
    CleanErnAppend(pre + e, post);
    CleanErnAppend(pre, e);
    CleanNoErnChars(pre);
    CleanNoErnChars(post);
    assert CleanErn(pre + e + post) == u;
  }
}
