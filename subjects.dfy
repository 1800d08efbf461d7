/** The subject entries of the grade widget and the filter that removes them by id. */
module Subjects {

  /** One row of the list: the id given at creation, the subject name and the grade as typed. */
  datatype Subject = Subject(id: int, name: string, grade: string)

  /** The list without every entry whose id equals `id` (a filter: all matches go, not only the first). */
  function WithoutId(l: seq<Subject>, id: int): (r: seq<Subject>)
    ensures |r| <= |l|
    ensures forall s :: s in r ==> s in l && s.id != id
    ensures forall s :: s in l && s.id != id ==> s in r
  {
    if l == [] then []
    else (if l[0].id != id then [l[0]] else []) + WithoutId(l[1..], id)
  }

  /** How many entries of `l` carry the id `id`. */
  function CountId(l: seq<Subject>, id: int): nat
  {
    if l == [] then 0
    else (if l[0].id == id then 1 else 0) + CountId(l[1..], id)
  }

  /** Counting distributes over concatenation. */
  lemma {:induction false} CountIdConcat(a: seq<Subject>, b: seq<Subject>, id: int)
    ensures CountId(a + b, id) == CountId(a, id) + CountId(b, id)
  {
    if a == [] {
      assert a + b == b;
    } else {
      assert (a + b)[0] == a[0] && (a + b)[1..] == a[1..] + b;
      CountIdConcat(a[1..], b, id);
    }
  }

  /** The count is positive exactly when some entry carries the id. */
  lemma {:induction false} CountIdPositive(l: seq<Subject>, id: int)
    ensures CountId(l, id) > 0 <==> exists k :: 0 <= k < |l| && l[k].id == id
  {
    if l != [] {
      CountIdPositive(l[1..], id);
      if CountId(l[1..], id) > 0 {
        var k :| 0 <= k < |l[1..]| && l[1..][k].id == id;
        assert l[k + 1].id == id;
      }
      if exists k :: 0 <= k < |l| && l[k].id == id {
        var k :| 0 <= k < |l| && l[k].id == id;
        if k > 0 {
          assert l[1..][k - 1].id == id;
        }
      }
    }
  }

  /** Appending an entry whose id is the current length (as addSubject does) creates a duplicate id
      exactly when some entry already carries that id, which can only be one left behind by a removal. */
  lemma NewIdDuplicatesIff(l: seq<Subject>, name: string, grade: string)
    ensures CountId(l + [Subject(|l|, name, grade)], |l|) >= 2
      <==> exists k :: 0 <= k < |l| && l[k].id == |l|
  {
    CountIdConcat(l, [Subject(|l|, name, grade)], |l|);
    assert [Subject(|l|, name, grade)][1..] == [];
    CountIdPositive(l, |l|);
  }

  /** The filter distributes over concatenation: what it keeps of `a + b` is what it keeps of `a`
      followed by what it keeps of `b`. */
  lemma {:induction false} WithoutIdConcat(a: seq<Subject>, b: seq<Subject>, id: int)
    ensures WithoutId(a + b, id) == WithoutId(a, id) + WithoutId(b, id)
  {
    if a == [] {
      assert a + b == b;
    } else {
      assert (a + b)[0] == a[0] && (a + b)[1..] == a[1..] + b;
      WithoutIdConcat(a[1..], b, id);
    }
  }

  /** The length drops by exactly the number of entries that carried the id. */
  lemma {:induction false} WithoutIdLength(l: seq<Subject>, id: int)
    ensures |WithoutId(l, id)| == |l| - CountId(l, id)
  {
    if l != [] {
      WithoutIdLength(l[1..], id);
    }
  }

  /** Every entry with another id survives, and it lands right after the survivors that preceded it:
      the kept entries keep their relative order. */
  lemma WithoutIdKeepsOrder(l: seq<Subject>, id: int, i: int)
    requires 0 <= i < |l| && l[i].id != id
    ensures |WithoutId(l[..i], id)| < |WithoutId(l, id)|
    ensures WithoutId(l, id)[|WithoutId(l[..i], id)|] == l[i]
  {
    assert l == l[..i] + ([l[i]] + l[i + 1..]);
    WithoutIdConcat(l[..i], [l[i]] + l[i + 1..], id);
    WithoutIdConcat([l[i]], l[i + 1..], id);
  }

  /** Removing an id no entry carries leaves the list as it was. */
  lemma {:induction false} WithoutAbsentId(l: seq<Subject>, id: int)
    requires forall k :: 0 <= k < |l| ==> l[k].id != id
    ensures WithoutId(l, id) == l
  {
    if l != [] {
      WithoutAbsentId(l[1..], id);
    }
  }

  /** Removing the same id twice is the same as removing it once. */
  lemma WithoutIdIdempotent(l: seq<Subject>, id: int)
    ensures WithoutId(WithoutId(l, id), id) == WithoutId(l, id)
  {
    var r := WithoutId(l, id);
    forall k | 0 <= k < |r| ensures r[k].id != id {
      assert r[k] in r;
    }
    WithoutAbsentId(r, id);
  }

  /** Every entry's id is at least its position plus `offset`. */
  ghost predicate IdsFrom(l: seq<Subject>, offset: int)
  {
    forall k :: 0 <= k < |l| ==> l[k].id >= k + offset
  }

  /** An entry appended with an id no smaller than the list length keeps every id at or above its
      position; addSubject appends with exactly the length. */
  lemma AppendKeepsIdsFrom(l: seq<Subject>, entry: Subject)
    requires IdsFrom(l, 0) && entry.id >= |l|
    ensures IdsFrom(l + [entry], 0)
  {
  }

  /** Ids are never renumbered and the filter only moves entries towards the front, so an entry's id is
      never below its position. */
  lemma {:induction false} WithoutIdKeepsIdsFrom(l: seq<Subject>, id: int, offset: int)
    requires IdsFrom(l, offset)
    ensures IdsFrom(WithoutId(l, id), offset)
  {
    if l != [] {
      var rest := l[1..];
      assert IdsFrom(rest, offset + 1) by {
        forall k | 0 <= k < |rest| ensures rest[k].id >= k + offset + 1 {
          assert rest[k] == l[k + 1];
        }
      }
      WithoutIdKeepsIdsFrom(rest, id, offset + 1);
      var tail := WithoutId(rest, id);
      if l[0].id != id {
        var r := [l[0]] + tail;
        forall k | 0 <= k < |r| ensures r[k].id >= k + offset {
          if k > 0 {
            assert r[k] == tail[k - 1];
          }
        }
      } else {
        forall k | 0 <= k < |tail| ensures tail[k].id >= k + offset {
          assert tail[k].id >= k + offset + 1;
        }
      }
    }
  }
}
