/** The final grade: the arithmetic mean of the grades in the list, and the colour rule for it. */
module Grading {
  import opened Subjects
  import opened InputRules

  /** The grade of one entry read as a number (`toNumber` stands for JavaScript's Number). */
  function Value(s: Subject, toNumber: string -> real): real
  {
    toNumber(s.grade)
  }

  /** The sum of the grades taken from the front: the first grade plus the sum of the rest. */
  function SumFromFront(l: seq<Subject>, toNumber: string -> real): real
  {
    if l == [] then 0.0 else Value(l[0], toNumber) + SumFromFront(l[1..], toNumber)
  }

  /** Adding one more grade at the back of a front-to-back sum adds its value. */
  lemma {:induction false} SumFromFrontAppend(l: seq<Subject>, s: Subject, toNumber: string -> real)
    ensures SumFromFront(l + [s], toNumber) == SumFromFront(l, toNumber) + Value(s, toNumber)
  {
    if l == [] {
      assert [s][1..] == [];
    } else {
      assert (l + [s])[0] == l[0] && (l + [s])[1..] == l[1..] + [s];
      SumFromFrontAppend(l[1..], s, toNumber);
    }
  }

  /** The sum of the grades, folded from the left as reduce((sum, subject) => ..., 0) does. Over
      exact reals the fold order does not matter: it equals the sum taken from the front. */
  function Total(l: seq<Subject>, toNumber: string -> real): (t: real)
    ensures t == SumFromFront(l, toNumber)
  {
    if l == [] then 0.0
    else
      var init := l[..|l| - 1];
      assert l == init + [l[|l| - 1]];
      SumFromFrontAppend(init, l[|l| - 1], toNumber);
      Total(init, toNumber) + Value(l[|l| - 1], toNumber)
  }

  /** The final grade: the total over the number of entries, and 0 for the empty list. */
  function FinalGrade(l: seq<Subject>, toNumber: string -> real): (g: real)
    ensures l == [] ==> g == 0.0
    ensures l != [] ==> g * (|l| as real) == Total(l, toNumber)
  {
    if |l| > 0 then Total(l, toNumber) / (|l| as real) else 0.0
  }

  /** The final grade is shown in the above-midpoint colour when it is strictly above 10. */
  predicate IsAboveMidpoint(finalGrade: real)
  {
    finalGrade > MaxGrade / 2.0
  }

  /** The lowest grade value of a non-empty list. */
  function LowestValue(l: seq<Subject>, toNumber: string -> real): (lo: real)
    requires l != []
    ensures forall k :: 0 <= k < |l| ==> lo <= Value(l[k], toNumber)
    ensures exists k :: 0 <= k < |l| && lo == Value(l[k], toNumber)
  {
    if |l| == 1 then Value(l[0], toNumber)
    else
      var rest := LowestValue(l[1..], toNumber);
      assert forall k :: 1 <= k < |l| ==> l[k] == l[1..][k - 1];
      if Value(l[0], toNumber) <= rest then Value(l[0], toNumber) else rest
  }

  /** The highest grade value of a non-empty list. */
  function HighestValue(l: seq<Subject>, toNumber: string -> real): (hi: real)
    requires l != []
    ensures forall k :: 0 <= k < |l| ==> Value(l[k], toNumber) <= hi
    ensures exists k :: 0 <= k < |l| && hi == Value(l[k], toNumber)
  {
    if |l| == 1 then Value(l[0], toNumber)
    else
      var rest := HighestValue(l[1..], toNumber);
      assert forall k :: 1 <= k < |l| ==> l[k] == l[1..][k - 1];
      if Value(l[0], toNumber) >= rest then Value(l[0], toNumber) else rest
  }

  /** When every grade lies in [lo, hi], the total lies between |l| * lo and |l| * hi. */
  lemma {:induction false} TotalBounds(l: seq<Subject>, toNumber: string -> real, lo: real, hi: real)
    requires forall k :: 0 <= k < |l| ==> lo <= Value(l[k], toNumber) <= hi
    ensures (|l| as real) * lo <= Total(l, toNumber) <= (|l| as real) * hi
  {
    if l != [] {
      var init := l[..|l| - 1];
      assert forall k :: 0 <= k < |init| ==> init[k] == l[k];
      TotalBounds(init, toNumber, lo, hi);
      assert lo <= Value(l[|l| - 1], toNumber) <= hi;
      assert (|l| as real) * lo == (|init| as real) * lo + lo;
      assert (|l| as real) * hi == (|init| as real) * hi + hi;
    }
  }

  /** When every grade lies in [lo, hi], so does the final grade of a non-empty list. */
  lemma FinalGradeWithin(l: seq<Subject>, toNumber: string -> real, lo: real, hi: real)
    requires l != []
    requires forall k :: 0 <= k < |l| ==> lo <= Value(l[k], toNumber) <= hi
    ensures lo <= FinalGrade(l, toNumber) <= hi
  {
    TotalBounds(l, toNumber, lo, hi);
    var n := |l| as real;
    var g := FinalGrade(l, toNumber);
    assert g * n == Total(l, toNumber);
    assert (g - lo) * n >= 0.0;
    assert (hi - g) * n >= 0.0;
  }

  /** The final grade of a non-empty list lies between its lowest and its highest grade. */
  lemma FinalGradeBetweenExtremes(l: seq<Subject>, toNumber: string -> real)
    requires l != []
    ensures LowestValue(l, toNumber) <= FinalGrade(l, toNumber) <= HighestValue(l, toNumber)
  {
    FinalGradeWithin(l, toNumber, LowestValue(l, toNumber), HighestValue(l, toNumber));
  }

  /** When every grade is on the 0 to 20 scale, so is the final grade (the empty list included). */
  lemma FinalGradeOnScale(l: seq<Subject>, toNumber: string -> real)
    requires forall k :: 0 <= k < |l| ==> 0.0 <= Value(l[k], toNumber) <= MaxGrade
    ensures 0.0 <= FinalGrade(l, toNumber) <= MaxGrade
  {
    if l != [] {
      FinalGradeWithin(l, toNumber, 0.0, MaxGrade);
    }
  }

  /** The colour follows the grades: when every grade is above 10, the final grade of a non-empty
      list is shown in the above-midpoint colour; when none is, it is not (the empty list included). */
  lemma MidpointColourFollowsGrades(l: seq<Subject>, toNumber: string -> real)
    ensures l != [] && (forall k :: 0 <= k < |l| ==> Value(l[k], toNumber) > MaxGrade / 2.0)
      ==> IsAboveMidpoint(FinalGrade(l, toNumber))
    ensures (forall k :: 0 <= k < |l| ==> Value(l[k], toNumber) <= MaxGrade / 2.0)
      ==> !IsAboveMidpoint(FinalGrade(l, toNumber))
  {
    if l != [] {
      FinalGradeBetweenExtremes(l, toNumber);
    }
  }

  /** Grades 10 and 20 average to 15, shown above the midpoint; grades 5 and 5 average to 5, shown
      at or below it. */
  lemma FinalGradeExamples(toNumber: string -> real)
    requires toNumber("10") == 10.0 && toNumber("20") == 20.0 && toNumber("5") == 5.0
    ensures FinalGrade([Subject(0, "Math", "10"), Subject(1, "Art", "20")], toNumber) == 15.0
    ensures IsAboveMidpoint(FinalGrade([Subject(0, "Math", "10"), Subject(1, "Art", "20")], toNumber))
    ensures FinalGrade([Subject(0, "Math", "5"), Subject(1, "Art", "5")], toNumber) == 5.0
    ensures !IsAboveMidpoint(FinalGrade([Subject(0, "Math", "5"), Subject(1, "Art", "5")], toNumber))
  {
    var a := [Subject(0, "Math", "10"), Subject(1, "Art", "20")];
    assert a[..1] == [a[0]] && [a[0]][..0] == [];
    assert Total([a[0]], toNumber) == 10.0;
    assert Total(a, toNumber) == 30.0;
    var b := [Subject(0, "Math", "5"), Subject(1, "Art", "5")];
    assert b[..1] == [b[0]] && [b[0]][..0] == [];
    assert Total([b[0]], toNumber) == 5.0;
    assert Total(b, toNumber) == 10.0;
  }
}
