/** The compatibility score and top-N selection of backend/matching.py (`MatchingEngine`).
    The great-circle distance is an input here (a non-negative number of kilometres per
    student) and scores are exact reals, not rounded floats. */
module Matching {
  import opened Common

  datatype Senior = Senior(needs: seq<string>, languages: seq<string>)

  /** A student record; a missing `first_name`/`last_name` is `None`, which Python's
      f-string renders as the text "None". */
  datatype Student = Student(
    studentId: int,
    firstName: Option<string>,
    lastName: Option<string>,
    skills: seq<string>,
    languages: seq<string>)

  /** The dictionary `calculate_score` returns. */
  datatype ScoreData = ScoreData(
    studentId: int,
    name: string,
    totalScore: real,
    distanceKm: real,
    commonSkills: set<string>)

  const WeightProximity: real := 0.5
  const WeightSkills: real := 0.3
  const WeightLanguage: real := 0.2

  /** `set(list)`. */
  function ToSet(list: seq<string>): (s: set<string>)
    ensures forall x :: x in s <==> x in list
  {
    set x | x in list
  }

  /** Start at 100 and lose 10 points per kilometre, never going below 0. */
  function ProximityScore(dist: real): (p: real)
    ensures p >= 0.0
    ensures dist >= 0.0 ==> p <= 100.0
    ensures dist >= 10.0 ==> p == 0.0
    ensures p == 100.0 <==> dist == 0.0
  {
    if 100.0 - dist * 10.0 > 0.0 then 100.0 - dist * 10.0 else 0.0
  }

  lemma ProximityAntitone(d1: real, d2: real)
    requires d1 <= d2
    ensures ProximityScore(d1) >= ProximityScore(d2)
  {
  }

  lemma {:induction false} SubsetCardinality(a: set<string>, b: set<string>)
    requires a <= b
    ensures |a| <= |b|
    decreases |b|
  {
    if a != {} {
      var x :| x in a;
      SubsetCardinality(a - {x}, b - {x});
    }
  }

  /** The needs a student covers are at most all of them, and all of them exactly when
      every need is among the skills. */
  lemma CommonNeedsBound(needs: set<string>, skills: set<string>)
    ensures |needs * skills| <= |needs|
    ensures |needs * skills| == |needs| <==> needs <= skills
  {
    var common := needs * skills;
    SubsetCardinality(common, needs);
    if needs <= skills {
      assert common == needs;
    } else {
      var x :| x in needs && x !in skills;
      SubsetCardinality(common, needs - {x});
      assert |needs - {x}| == |needs| - 1;
    }
  }

  /** The percentage of the senior's needs the student covers; 100 when nothing is needed. */
  function SkillsScore(needs: set<string>, skills: set<string>): (s: real)
    ensures 0.0 <= s <= 100.0
    ensures needs == {} ==> s == 100.0
    ensures needs != {} ==> s * (|needs| as real) == 100.0 * (|needs * skills| as real)
    ensures s == 100.0 <==> needs <= skills
    ensures s == 0.0 <==> needs != {} && needs * skills == {}
  {
    if needs == {} then 100.0
    else
      var common := needs * skills;
      CommonNeedsBound(needs, skills);
      (|common| as real / |needs| as real) * 100.0
  }

  /** 100 when the two speak a common language, else 0. */
  function LanguageScore(seniorLanguages: set<string>, studentLanguages: set<string>): (l: real)
    ensures l == 100.0 <==> seniorLanguages * studentLanguages != {}
    ensures l == 0.0 <==> seniorLanguages * studentLanguages == {}
  {
    if seniorLanguages * studentLanguages != {} then 100.0 else 0.0
  }

  /** The weighted total: a convex combination, so it stays between 0 and 100. */
  function WeightedTotal(proximity: real, skills: real, language: real): (t: real)
    requires 0.0 <= proximity <= 100.0 && 0.0 <= skills <= 100.0 && 0.0 <= language <= 100.0
    ensures 0.0 <= t <= 100.0
    ensures t == 100.0 <==> proximity == 100.0 && skills == 100.0 && language == 100.0
    ensures t == 0.0 <==> proximity == 0.0 && skills == 0.0 && language == 0.0
  {
    proximity * WeightProximity + skills * WeightSkills + language * WeightLanguage
  }

  function NameText(part: Option<string>): string {
    match part
    case None => "None"
    case Some(s) => s
  }

  /** `calculate_score(senior, student)` for a student `dist` kilometres away. */
  function CalculateScore(senior: Senior, student: Student, dist: real): (r: ScoreData)
    requires dist >= 0.0
    ensures 0.0 <= r.totalScore <= 100.0
    ensures r.studentId == student.studentId && r.distanceKm == dist
    ensures r.name == NameText(student.firstName) + " " + NameText(student.lastName)
    ensures r.commonSkills == ToSet(senior.needs) * ToSet(student.skills)
    ensures forall x :: x in r.commonSkills <==> x in senior.needs && x in student.skills
  {
    var needs, skills := ToSet(senior.needs), ToSet(student.skills);
    var total := WeightedTotal(
      ProximityScore(dist),
      SkillsScore(needs, skills),
      LanguageScore(ToSet(senior.languages), ToSet(student.languages)));
    ScoreData(
      student.studentId,
      NameText(student.firstName) + " " + NameText(student.lastName),
      total,
      dist,
      needs * skills)
  }

  /** A perfect score needs a student on the spot who covers every need and shares a language. */
  lemma PerfectScore(senior: Senior, student: Student, dist: real)
    requires dist >= 0.0
    ensures CalculateScore(senior, student, dist).totalScore == 100.0 <==>
            dist == 0.0
            && ToSet(senior.needs) <= ToSet(student.skills)
            && ToSet(senior.languages) * ToSet(student.languages) != {}
  {
  }

  predicate NonNegative(distances: seq<real>) {
    forall i :: 0 <= i < |distances| ==> distances[i] >= 0.0
  }

  /** The scores of all students, in input order: what the loop of `find_matches` appends. */
  function Scored(senior: Senior, students: seq<Student>, distances: seq<real>): (r: seq<ScoreData>)
    requires |distances| == |students| && NonNegative(distances)
    ensures |r| == |students|
    ensures forall i :: 0 <= i < |r| ==> r[i] == CalculateScore(senior, students[i], distances[i])
  {
    seq(|students|, i requires 0 <= i < |students| => CalculateScore(senior, students[i], distances[i]))
  }

  /** The length of Python's `xs[:limit]` for a list of length `n`. */
  function SliceLength(limit: int, n: nat): (k: nat)
    ensures k <= n
    ensures limit >= 0 ==> k == if limit < n then limit else n
    ensures limit < 0 ==> k == if n + limit > 0 then n + limit else 0
  {
    if limit >= 0 then (if limit < n then limit else n)
    else if n + limit > 0 then n + limit else 0
  }

  predicate SortedDescending(s: seq<ScoreData>) {
    forall k, l :: 0 <= k < l < |s| ==> s[k].totalScore >= s[l].totalScore
  }

  /** `find_matches(senior, all_students, limit)`: score every student, sort by total score,
      highest first, and keep the first `limit` (Python slice semantics). */
  method FindMatches(senior: Senior, students: seq<Student>, distances: seq<real>, limit: int)
    returns (matches: seq<ScoreData>)
    requires |distances| == |students| && NonNegative(distances)
    ensures |matches| == SliceLength(limit, |students|)
    ensures SortedDescending(matches)
    ensures multiset(matches) <= multiset(Scored(senior, students, distances))
    ensures forall m :: m in matches ==>
              exists i :: 0 <= i < |students| && m == CalculateScore(senior, students[i], distances[i])
    ensures forall x, m ::
              x in multiset(Scored(senior, students, distances)) - multiset(matches) && m in matches ==>
              x.totalScore <= m.totalScore
  {
    var scored: seq<ScoreData> := [];
    for i := 0 to |students|
      invariant scored == Scored(senior, students[..i], distances[..i])
    {
      var scoreData := CalculateScore(senior, students[i], distances[i]);
      scored := scored + [scoreData];
    }
    assert students[..|students|] == students && distances[..|distances|] == distances;
    var a := new ScoreData[|scored|](i requires 0 <= i < |scored| => scored[i]);
    assert a[..] == scored;
    SortByScoreDescending(a);
    var k := SliceLength(limit, a.Length);
    matches := a[..k];
    TopOfSorted(a[..], k);
    forall m | m in matches
      ensures exists i :: 0 <= i < |students| && m == CalculateScore(senior, students[i], distances[i])
    {
      assert m in multiset(scored);
      var i :| 0 <= i < |scored| && scored[i] == m;
    }
  }

  /** The first `k` of a sorted list are a sub-multiset that beats everything left out. */
  lemma TopOfSorted(s: seq<ScoreData>, k: nat)
    requires SortedDescending(s) && k <= |s|
    ensures SortedDescending(s[..k])
    ensures multiset(s[..k]) <= multiset(s)
    ensures forall x, m :: x in multiset(s) - multiset(s[..k]) && m in s[..k] ==> x.totalScore <= m.totalScore
  {
    assert s == s[..k] + s[k..];
    assert multiset(s) == multiset(s[..k]) + multiset(s[k..]);
    forall x, m | x in multiset(s) - multiset(s[..k]) && m in s[..k]
      ensures x.totalScore <= m.totalScore
    {
      assert x in multiset(s[k..]);
      assert x in s[k..];
      var l :| k <= l < |s| && s[l] == x;
      var j :| 0 <= j < k && s[j] == m;
    }
  }

  /** `scored_students.sort(key=lambda x: x['total_score'], reverse=True)`, in place:
      an insertion sort that moves an entry left only past strictly smaller scores. */
  method SortByScoreDescending(a: array<ScoreData>)
    modifies a
    ensures SortedDescending(a[..])
    ensures multiset(a[..]) == old(multiset(a[..]))
  {
    for i := 0 to a.Length
      invariant forall k, l :: 0 <= k < l < i ==> a[k].totalScore >= a[l].totalScore
      invariant multiset(a[..]) == old(multiset(a[..]))
    {
      var j := i;
      while j > 0 && a[j - 1].totalScore < a[j].totalScore
        invariant 0 <= j <= i
        invariant multiset(a[..]) == old(multiset(a[..]))
        invariant forall k, l :: 0 <= k < l <= i && k != j && l != j ==> a[k].totalScore >= a[l].totalScore
        invariant forall l :: j < l <= i ==> a[j].totalScore >= a[l].totalScore
      {
        SwapAdjacent(a, j - 1);
        j := j - 1;
      }
    }
  }

  /** Exchanges `a[i]` and `a[i + 1]`. */
  method SwapAdjacent(a: array<ScoreData>, i: nat)
    requires i + 1 < a.Length
    modifies a
    ensures a[i] == old(a[i + 1]) && a[i + 1] == old(a[i])
    ensures forall k :: 0 <= k < a.Length && k != i && k != i + 1 ==> a[k] == old(a[k])
    ensures multiset(a[..]) == old(multiset(a[..]))
  {
    a[i], a[i + 1] := a[i + 1], a[i];
  }
}
