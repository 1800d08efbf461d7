# mygrades in Dafny

A model of the grade-tracking widget of the mygrades repository, a single React component
(`src/App.tsx`). The user types a subject name and a grade, adds the pair to a list, can delete rows,
and sees the arithmetic mean of the grades (the "final grade"), coloured by whether it is above 10.

The model has four modules:

- `Subjects` (subjects.dfy): the `Subject` record `{id, name, grade}` and `WithoutId`, the filter
  behind removing a subject, with its lemmas. These cover removal of every match, order, length,
  idempotence and the id-versus-position invariant.
- `InputRules` (input_rules.dfy): the name filter (letters only, first letter upper-cased) and
  JavaScript's `trim`. It also holds the add-button predicate, the `Math.min(x, 20)` clamp, the grade
  change handler and the rule that shows a draft grade of `"0"` as an empty box.
- `Grading` (grading.dfy): the left-fold sum and the mean, with the empty list mapped to 0, and the
  `> 10` colour rule. Lemmas show that the mean lies between the lowest and the highest grade, and on
  the 0 to 20 scale when every grade is.
- `MyGrades` (my_grades.dfy): class `App` with the component's three state slots `subjectList`,
  `newSubject` and `newGrade`. Its methods are the add and remove handlers and the two input handlers.
  Its invariant `Valid()` holds three facts:
  - the name draft is always capitalised letters;
  - every committed name is a non-empty run of capitalised letters;
  - no entry's id is below its position in the list.

  `DuplicateIdScenario` replays add, add, remove 0, add from an empty widget. It shows that two entries
  end up with id 1, and that removing id 1 then deletes both.

JavaScript's `Number(...)` and a number's `toString()` are passed in as the function parameters
`toNumber: string -> real` and `toText: real -> string`. Every property about grades is stated in terms
of them. Grades are `real`, so sums and divisions are exact.

Two behaviours of the code are worth knowing:

- Removing a subject keeps every entry whose id differs (`filter`), so it deletes *all* entries with
  that id. Ids are the list length at the time of adding and are never renumbered. So after a removal,
  duplicates can arise: an add duplicates an id exactly when a remaining entry already carries the
  current list length, the id the new entry receives, as its id (`NewIdDuplicatesIff`). One click
  on a row's delete button then deletes several rows.
- The grade handler has no special case for non-numeric text. `Number("abc")` is `NaN`, and the draft
  becomes `"NaN"`. That value is outside what `toNumber: string -> real` can express (see Left out).
- The clamp has no lower bound. `Number("-5")` is stored as `"-5"`, and a negative grade can be
  committed. So the lists the program builds need not meet the [0, 20] premise of `FinalGradeOnScale`.

## Model

| member | source | states |
|---|---|---|
| `Subjects.WithoutId` | src/App.tsx:42 | the result holds exactly the entries of the list whose id differs from the argument: none with that id is left, none with another id is lost, and it is no longer than the input |
| `Subjects.WithoutIdConcat` | src/App.tsx:42 | the filter distributes over concatenation |
| `Subjects.WithoutIdLength` | src/App.tsx:42 | the length drops by exactly the number of entries that carried the id |
| `Subjects.WithoutIdKeepsOrder` | src/App.tsx:42 | each entry with another id survives and lands right after the survivors that preceded it, so relative order is kept |
| `Subjects.WithoutAbsentId` | src/App.tsx:42 | removing an id that no entry carries leaves the list unchanged |
| `Subjects.WithoutIdIdempotent` | src/App.tsx:42 | removing the same id twice equals removing it once |
| `Subjects.AppendKeepsIdsFrom` | src/App.tsx:35 | appending an entry whose id is the list length keeps every id at or above its position |
| `Subjects.NewIdDuplicatesIff` | src/App.tsx:35 | appending with id equal to the length yields two entries with that id exactly when some entry already carries it |
| `Subjects.WithoutIdKeepsIdsFrom` | src/App.tsx:35-42 | ids are assigned from the length and never renumbered; the filter keeps every id at or above its position |
| `InputRules.AllLetters` | src/App.tsx:55 | the regular expression `/^[A-Za-z]*$/`, read as its star (empty, or a letter followed by a match), holds exactly when every character is an ASCII letter |
| `InputRules.UpperAscii` | src/App.tsx:56 | a lower-case ASCII letter moves down by 32 to its capital; every other character is unchanged |
| `InputRules.Capitalize` | src/App.tsx:56 | same length and the same characters after the first; a lower-case first letter becomes its capital and any other first character is unchanged; a letters-only string becomes a valid name draft |
| `InputRules.FilterName` | src/App.tsx:53-59 | a letters-only value (the empty string included) is accepted and capitalised; any other value leaves the current draft unchanged; the result is a valid name draft whenever the input or the old draft was |
| `InputRules.FilterNameIdempotent` | src/App.tsx:55-57 | whatever the filter leaves in the draft (an accepted value, or the old draft after a rejected keystroke) comes back unchanged when filtered again |
| `InputRules.TrimStart` | src/App.tsx:34 | the result is a suffix of the input, everything cut was whitespace, and the result does not start with whitespace |
| `InputRules.TrimEnd` | src/App.tsx:51 | the result is a prefix of the input, everything cut was whitespace, and the result does not end with whitespace |
| `InputRules.Trim` | src/App.tsx:34 | the trimmed string is no longer than the input and neither starts nor ends with whitespace |
| `InputRules.TrimIsMiddleSlice` | src/App.tsx:51 | the trimmed string is a slice of the input with only whitespace before and after it |
| `InputRules.IsBlank` | src/App.tsx:34 | `s.trim() === ""` holds exactly when every character of `s` is JavaScript whitespace |
| `InputRules.NameDraftBlankIffEmpty` | src/App.tsx:34 | for a name draft (letters only), the trim test of addSubject fails exactly on the empty draft |
| `InputRules.ButtonDisabled` | src/App.tsx:51 | the add button is disabled exactly when the name or the grade draft is all whitespace |
| `InputRules.Clamp` | src/App.tsx:63 | the result is at most the input and at most 20, and equals one of them (it is their minimum) |
| `InputRules.GradeDraft` | src/App.tsx:62-64 | a typed value of at most 20 is written back as itself; a larger one is written back as 20 |
| `InputRules.GradeDraftClamped` | src/App.tsx:61-65 | when the number survives being written out and read back, the stored grade reads as at most 20, as the typed value when that was at most 20, and as 20 otherwise |
| `InputRules.DisplayGrade` | src/App.tsx:80 | the grade box is empty exactly when the draft is `"0"` or empty; any other draft is shown as it is |
| `InputRules.ClearedGradeShowsEmpty` | src/App.tsx:61-80 | clearing the grade box stores `"0"`, the box shows it as empty, and the stored draft is not blank |
| `Grading.Total` | src/App.tsx:46 | the left fold of `reduce` equals the sum of the grades taken from the front |
| `Grading.FinalGrade` | src/App.tsx:45-48 | 0 for the empty list; otherwise the value that, multiplied by the number of entries, gives the sum of the grades |
| `Grading.TotalBounds` | src/App.tsx:46 | when every grade lies in [lo, hi], the sum lies between n times lo and n times hi |
| `Grading.FinalGradeWithin` | src/App.tsx:45-48 | when every grade of a non-empty list lies in [lo, hi], so does the final grade |
| `Grading.FinalGradeBetweenExtremes` | src/App.tsx:45-48 | the final grade lies between the lowest and the highest grade of the list |
| `Grading.FinalGradeOnScale` | src/App.tsx:45-48 | when every grade is in [0, 20], so is the final grade, the empty list included |
| `Grading.MidpointColourFollowsGrades` | src/App.tsx:113 | the `> 10` colour test is met when every grade of a non-empty list is above 10, and not met when none is |
| `Grading.FinalGradeExamples` | src/App.tsx:113 | grades 10 and 20 give 15, shown in the above-midpoint colour; grades 5 and 5 give 5, shown in the other colour |
| `MyGrades.App.constructor` | src/App.tsx:12-14 | the widget starts with an empty list and two empty drafts |
| `MyGrades.App.AddSubject` | src/App.tsx:33-39 | a non-blank name appends exactly one entry `{id: old length, name, grade}` at the end, leaves earlier entries alone and clears both drafts; a blank name changes nothing; the invariant is kept |
| `MyGrades.App.RemoveSubject` | src/App.tsx:41-43 | the list becomes the filter of the old list, the drafts are untouched and the invariant is kept |
| `MyGrades.App.HandleNewSubjectChange` | src/App.tsx:53-59 | the name draft becomes the filtered value and stays capitalised letters |
| `MyGrades.App.HandleNewGradeChange` | src/App.tsx:61-65 | the grade draft becomes the clamped number written as text; nothing else changes |
| `MyGrades.DuplicateIdScenario` | src/App.tsx:35-42 | add, add, remove 0, add gives two entries that both have id 1, and removing id 1 then empties the list |

## Left out

- Loading the list from `localStorage` at start-up and saving it on every change, with the
  `JSON.parse`/`JSON.stringify` round trip and the `console.error` on a parse failure
  (src/App.tsx:16-30). These are browser storage and library serialisation.
- React's hooks and effect scheduling, and all rendering (src/App.tsx:67-116). This covers the table
  and summary shown only for a non-empty list, the CSS class strings and the row keys. These are UI
  plumbing. Of the rendering, the model keeps only the `"0"` display rule and the `> 10` colour test.
- The exact behaviour of JavaScript's `Number(...)` and `toString()` on numbers: these are the
  `toNumber`/`toText` parameters. `NaN` and the infinities are not representable as `real`, so the
  model does not show how non-numeric grade text becomes the stored draft `"NaN"`.
- Floating-point arithmetic in the sum and the division: the mean is computed over exact reals.
- FinalGradeWithin, FinalGradeBetweenExtremes: these hold of the model but not of the program under
  IEEE doubles. Three grades of 0.1 have a program mean of 0.10000000000000002, above the highest grade.
- A committed grade of `"NaN"`: `"NaN".trim()` is not empty, so the button stays enabled and the entry
  can be added. The program's final grade is then NaN, which no lemma of `Grading` covers.
- `toFixed(2)` formatting of the final grade (src/App.tsx:113). This is decimal formatting of floats.
- The lists a stored value restores at start-up: `Valid()` assumes each entry has a capitalised
  letter name and an id at or above its position. The program does not check either fact for a list
  it parses from storage.
- The icon components from `react-icons` (src/App.tsx:2). These are foreign UI components.
- UpperAscii, Capitalize: upper-case ASCII letters only, not the full Unicode `toUpperCase`, which
  would turn `"élan"` into `"Élan"`. The name filter only lets letters from [A-Za-z] through, so the
  call site never passes any other first character.
