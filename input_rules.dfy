/** The rules the widget applies to its two text inputs: the letter filter and capitalisation of the
    subject name, JavaScript's whitespace trim behind the add button, the grade clamp, and the rule that
    shows a draft grade of "0" as an empty box. */
module InputRules {

  /** The highest grade the clamp lets through (grades are on a 0 to 20 scale). */
  const MaxGrade: real := 20.0

  /** One character of the class [A-Za-z]. */
  predicate IsLetter(c: char)
  {
    'A' <= c <= 'Z' || 'a' <= c <= 'z'
  }

  predicate IsUpper(c: char)
  {
    'A' <= c <= 'Z'
  }

  /** The whole string matches /^[A-Za-z]*$/, read as the regular expression's star: the empty
      string, or one letter followed by a match. It holds exactly when every character is a letter. */
  predicate AllLetters(s: string)
    ensures AllLetters(s) <==> forall i :: 0 <= i < |s| ==> IsLetter(s[i])
  {
    s == "" || (IsLetter(s[0]) && AllLetters(s[1..]))
  }

  /** What the name input may hold: letters only, and a capital first letter when there is one. */
  predicate IsNameDraft(s: string)
  {
    AllLetters(s) && (s != "" ==> IsUpper(s[0]))
  }

  /** toUpperCase on one character, over the ASCII range the name filter lets through. */
  function UpperAscii(c: char): (u: char)
    ensures IsLetter(c) ==> IsUpper(u)
    ensures 'a' <= c <= 'z' ==> u as int == c as int - 32
    ensures !('a' <= c <= 'z') ==> u == c
  {
    if 'a' <= c <= 'z' then (c as int - 32) as char else c
  }

  /** charAt(0).toUpperCase() + slice(1): the first character upper-cased, the rest as typed. */
  function Capitalize(s: string): (r: string)
    ensures |r| == |s|
    ensures s != "" ==> r[1..] == s[1..]
    ensures s != "" && 'a' <= s[0] <= 'z' ==> r[0] as int == s[0] as int - 32
    ensures s != "" && !('a' <= s[0] <= 'z') ==> r[0] == s[0]
    ensures AllLetters(s) ==> IsNameDraft(r)
  {
    if s == "" then "" else [UpperAscii(s[0])] + s[1..]
  }

  /** The subject-name change handler: a value made only of letters (or empty) is accepted and
      capitalised; any other value leaves the current draft as it was. */
  function FilterName(raw: string, current: string): (r: string)
    ensures AllLetters(raw) ==> r == Capitalize(raw)
    ensures !AllLetters(raw) ==> r == current
    ensures AllLetters(raw) || IsNameDraft(current) ==> IsNameDraft(r)
  {
    if AllLetters(raw) || raw == "" then Capitalize(raw) else current
  }

  /** What the filter leaves in the draft is a fixed point of it: an accepted value, or the old
      draft after a rejected keystroke, comes back unchanged when typed again. */
  lemma FilterNameIdempotent(raw: string, current: string, other: string)
    requires AllLetters(raw) || IsNameDraft(current)
    ensures FilterName(FilterName(raw, current), other) == FilterName(raw, current)
  {
  }

  /** ECMAScript's WhiteSpace and LineTerminator characters, the ones String.prototype.trim strips. */
  predicate IsJsWhitespace(c: char)
  {
    c == '\t' || c == '\n' || c == '\U{000B}' || c == '\U{000C}' || c == '\r' || c == ' '
    || c == '\U{00A0}' || c == '\U{1680}' || '\U{2000}' <= c <= '\U{200A}'
    || c == '\U{2028}' || c == '\U{2029}' || c == '\U{202F}' || c == '\U{205F}'
    || c == '\U{3000}' || c == '\U{FEFF}'
  }

  predicate AllWhitespace(s: string)
  {
    forall i :: 0 <= i < |s| ==> IsJsWhitespace(s[i])
  }

  /** `s` without its leading whitespace. */
  function TrimStart(s: string): (r: string)
    ensures |r| <= |s| && r == s[|s| - |r|..]
    ensures AllWhitespace(s[..|s| - |r|])
    ensures r == "" || !IsJsWhitespace(r[0])
  {
    if s != "" && IsJsWhitespace(s[0]) then TrimStart(s[1..]) else s
  }

  /** `s` without its trailing whitespace. */
  function TrimEnd(s: string): (r: string)
    ensures |r| <= |s| && r == s[..|r|]
    ensures AllWhitespace(s[|r|..])
    ensures r == "" || !IsJsWhitespace(r[|r| - 1])
  {
    if s != "" && IsJsWhitespace(s[|s| - 1]) then TrimEnd(s[..|s| - 1]) else s
  }

  /** String.prototype.trim: what is left neither starts nor ends with whitespace. */
  function Trim(s: string): (r: string)
    ensures |r| <= |s|
    ensures r == "" || (!IsJsWhitespace(r[0]) && !IsJsWhitespace(r[|r| - 1]))
  {
    TrimEnd(TrimStart(s))
  }

  /** What trim leaves is a slice of the input with only whitespace cut before and after it. */
  lemma TrimIsMiddleSlice(s: string)
    ensures exists i :: TrimmedAt(s, Trim(s), i)
  {
    var t := TrimStart(s);
    var r := TrimEnd(t);
    var i := |s| - |t|;
    assert t == s[i..];
    assert r == t[..|r|];
    assert s[i + |r|..] == t[|r|..];
    assert Trim(s) == r && TrimmedAt(s, r, i);
  }

  /** `r` is the slice of `s` that starts at `i`, with only whitespace before and after it. */
  predicate TrimmedAt(s: string, r: string, i: int)
  {
    0 <= i <= |s| - |r| && r == s[i..i + |r|] && AllWhitespace(s[..i]) && AllWhitespace(s[i + |r|..])
  }

  /** `s.trim() === ""`: it holds exactly when every character of `s` is whitespace. */
  predicate IsBlank(s: string)
    ensures IsBlank(s) <==> AllWhitespace(s)
  {
    Trim(s) == ""
  }

  /** A name draft has no whitespace, so it is blank only when it is empty. */
  lemma NameDraftBlankIffEmpty(s: string)
    requires IsNameDraft(s)
    ensures IsBlank(s) <==> s == ""
  {
  }

  /** The add button is disabled when either trimmed draft is empty. */
  function ButtonDisabled(name: string, grade: string): (disabled: bool)
    ensures disabled <==> AllWhitespace(name) || AllWhitespace(grade)
  {
    IsBlank(name) || IsBlank(grade)
  }

  /** Math.min(x, 20): the input, cut down to the top of the scale. */
  function Clamp(x: real): (r: real)
    ensures r <= x && r <= MaxGrade
    ensures r == x || r == MaxGrade
  {
    if x < MaxGrade then x else MaxGrade
  }

  /** The grade change handler: the typed text read as a number (`toNumber` stands for JavaScript's
      Number), clamped, and written back as text (`toText` stands for the number's toString). */
  function GradeDraft(raw: string, toNumber: string -> real, toText: real -> string): (r: string)
    ensures toNumber(raw) <= MaxGrade ==> r == toText(toNumber(raw))
    ensures toNumber(raw) > MaxGrade ==> r == toText(MaxGrade)
  {
    toText(Clamp(toNumber(raw)))
  }

  /** When writing a number out and reading it back gives the same number, the stored grade reads as
      at most 20, and as the typed value whenever that was at most 20. */
  lemma GradeDraftClamped(raw: string, toNumber: string -> real, toText: real -> string)
    requires toNumber(toText(Clamp(toNumber(raw)))) == Clamp(toNumber(raw))
    ensures toNumber(GradeDraft(raw, toNumber, toText)) <= MaxGrade
    ensures toNumber(raw) <= MaxGrade ==> toNumber(GradeDraft(raw, toNumber, toText)) == toNumber(raw)
    ensures toNumber(raw) > MaxGrade ==> toNumber(GradeDraft(raw, toNumber, toText)) == MaxGrade
  {
  }

  /** What the grade box shows for a draft: a draft of "0" shows as an empty box, any other draft
      as itself. */
  function DisplayGrade(draft: string): (shown: string)
    ensures shown == "" <==> draft == "0" || draft == ""
    ensures draft != "0" ==> shown == draft
  {
    if draft == "0" then "" else draft
  }

  /** Emptying the grade box reads as the number 0 and is stored as "0", which the box then shows as
      empty again, while the stored draft stays "0" (so the add button counts it as filled in). */
  lemma ClearedGradeShowsEmpty(toNumber: string -> real, toText: real -> string)
    requires toNumber("") == 0.0 && toText(0.0) == "0"
    ensures GradeDraft("", toNumber, toText) == "0"
    ensures DisplayGrade(GradeDraft("", toNumber, toText)) == ""
    ensures !IsBlank(GradeDraft("", toNumber, toText))
  {
  }
}
