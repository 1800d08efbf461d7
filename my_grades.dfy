/** The state of the grade widget: the list of subjects and the two drafts, and the operations the
    user drives through the form. */
module MyGrades {
  import opened Subjects
  import opened InputRules

  /** A committed entry's name: a non-empty, capitalised run of letters. */
  predicate IsEntryName(name: string)
  {
    name != "" && IsNameDraft(name)
  }

  /** The component's three state slots. */
  class App {
    var subjectList: seq<Subject>
    var newSubject: string
    var newGrade: string

    /** The name draft only ever holds capitalised letters, and every entry has such a name. The
        last conjunct records how ids relate to positions (no id is below its entry's position,
        since ids are never renumbered); no other contract depends on it. */
    ghost predicate Valid()
      reads this
    {
      && IsNameDraft(newSubject)
      && (forall k :: 0 <= k < |subjectList| ==> IsEntryName(subjectList[k].name))
      && IdsFrom(subjectList, 0)
    }

    /** The widget starts with an empty list and empty drafts. */
    constructor ()
      ensures Valid()
      ensures subjectList == [] && newSubject == "" && newGrade == ""
    {
      subjectList := [];
      newSubject := "";
      newGrade := "";
    }

    /** Appends the drafts as a new entry whose id is the current length, and clears both drafts;
        does nothing when the trimmed name is empty. The grade draft is not checked here. */
    method AddSubject()
      requires Valid()
      modifies this
      ensures Valid()
      ensures !IsBlank(old(newSubject)) ==>
        && subjectList == old(subjectList) + [Subject(|old(subjectList)|, old(newSubject), old(newGrade))]
        && newSubject == "" && newGrade == ""
      ensures IsBlank(old(newSubject)) ==>
        subjectList == old(subjectList) && newSubject == old(newSubject) && newGrade == old(newGrade)
    {
      if !IsBlank(newSubject) {
        NameDraftBlankIffEmpty(newSubject);
        var entry := Subject(|subjectList|, newSubject, newGrade);
        var added := subjectList + [entry];
        assert forall k :: 0 <= k < |subjectList| ==> added[k] == subjectList[k];
        AppendKeepsIdsFrom(subjectList, entry);
        subjectList := added;
        newSubject := "";
        newGrade := "";
      }
    }

    /** Keeps every entry whose id differs from `id`; the drafts are untouched. */
    method RemoveSubject(id: int)
      requires Valid()
      modifies this`subjectList
      ensures Valid()
      ensures subjectList == WithoutId(old(subjectList), id)
    {
      WithoutIdKeepsIdsFrom(subjectList, id, 0);
      var kept := WithoutId(subjectList, id);
      forall k | 0 <= k < |kept| ensures IsEntryName(kept[k].name) {
        assert kept[k] in kept;
      }
      subjectList := kept;
    }

    /** The name input's change handler. */
    method HandleNewSubjectChange(raw: string)
      requires Valid()
      modifies this`newSubject
      ensures Valid()
      ensures newSubject == FilterName(raw, old(newSubject))
    {
      newSubject := FilterName(raw, newSubject);
    }

    /** The grade input's change handler; `toNumber` and `toText` stand for JavaScript's Number and
        the number's toString. */
    method HandleNewGradeChange(raw: string, toNumber: string -> real, toText: real -> string)
      requires Valid()
      modifies this`newGrade
      ensures Valid()
      ensures newGrade == GradeDraft(raw, toNumber, toText)
    {
      newGrade := GradeDraft(raw, toNumber, toText);
    }
  }

  /** Types a lower-case name and a grade into the form and presses the add button. */
  method AddScenarioEntry(app: App, typed: string, name: string, grade: string,
                          toNumber: string -> real, toText: real -> string)
    requires app.Valid() && AllLetters(typed) && typed != "" && name == Capitalize(typed)
    modifies app
    ensures app.Valid()
    ensures app.subjectList
      == old(app.subjectList) + [Subject(|old(app.subjectList)|, name, GradeDraft(grade, toNumber, toText))]
  {
    app.HandleNewSubjectChange(typed);
    app.HandleNewGradeChange(grade, toNumber, toText);
    NameDraftBlankIffEmpty(app.newSubject);
    app.AddSubject();
  }

  /** Ids are not unique. From an empty widget: add Math, add Art, remove id 0, add Bio. Art kept id 1
      and Bio gets id 1 as well (the list length), so removing id 1 removes both. */
  method DuplicateIdScenario(toNumber: string -> real, toText: real -> string)
    returns (before: seq<Subject>, after: seq<Subject>)
    ensures |before| == 2
    ensures before[0] == Subject(1, "Art", GradeDraft("12", toNumber, toText))
    ensures before[1] == Subject(1, "Bio", GradeDraft("15", toNumber, toText))
    ensures after == []
  {
    var art := Subject(1, "Art", GradeDraft("12", toNumber, toText));
    var bio := Subject(1, "Bio", GradeDraft("15", toNumber, toText));
    var app := new App();
    AddScenarioEntry(app, "math", "Math", "18", toNumber, toText);
    assert app.subjectList == [Subject(0, "Math", GradeDraft("18", toNumber, toText))];
    AddScenarioEntry(app, "art", "Art", "12", toNumber, toText);
    assert app.subjectList == [Subject(0, "Math", GradeDraft("18", toNumber, toText)), art];
    app.RemoveSubject(0);
    assert app.subjectList == [art];
    AddScenarioEntry(app, "bio", "Bio", "15", toNumber, toText);
    assert app.subjectList == [art, bio];
    before := app.subjectList;
    app.RemoveSubject(1);
    after := app.subjectList;
  }
}
