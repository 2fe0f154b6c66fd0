/**
 * The main page's own logic: the syllabus filter, chapter ids, the
 * expanded-chapter set, the understanding label and colour, and the update
 * payloads the chapter buttons send.
 */
module Syllabus {
  import opened Wrappers
  import opened Text
  import opened Progress
  import opened Metrics

  /** A syllabus chapter (display-only fields such as weightage are not modelled). */
  datatype Chapter = Chapter(id: nat, name: string, subtopics: seq<string>, priority: string)

  datatype ClassData = ClassData(classNumber: nat, chapters: seq<Chapter>)

  datatype Subject = Subject(name: string, classes: seq<ClassData>)

  /** The search box and the three selects; each select holds `"all"` or a value. */
  datatype Filters = Filters(search: string, subject: string, classSel: string, tag: string)

  const NoFilters := Filters("", "all", "all", "all")

  /** The chapter's name or one of its subtopics contains the search term, ignoring case. */
  predicate MatchesSearch(ch: Chapter, search: string) {
    Contains(Lower(ch.name), Lower(search)) ||
    exists st :: st in ch.subtopics && Contains(Lower(st), Lower(search))
  }

  predicate MatchesTag(ch: Chapter, tag: string) {
    tag == "all" || Lower(ch.priority) == tag
  }

  predicate ChapterShown(ch: Chapter, f: Filters) {
    MatchesSearch(ch, f.search) && MatchesTag(ch, f.tag)
  }

  /** The class select compares `Number.parseInt(selectedClass)` with the class number. */
  predicate ClassShown(c: ClassData, f: Filters) {
    (f.classSel == "all" || ParseNat(f.classSel) == Some(c.classNumber)) &&
    exists ch :: ch in c.chapters && ChapterShown(ch, f)
  }

  /** The `filteredData` predicate: the subject's lower-cased name is the selection, and some class shows a chapter. */
  predicate SubjectShown(s: Subject, f: Filters) {
    (f.subject == "all" || Lower(s.name) == f.subject) &&
    exists c :: c in s.classes && ClassShown(c, f)
  }

  /** `a` is `b` with some elements dropped, order kept. */
  predicate IsSubsequence<T(==)>(a: seq<T>, b: seq<T>)
    decreases |b|
  {
    if a == [] then true
    else if b == [] then false
    else (a[0] == b[0] && IsSubsequence(a[1..], b[1..])) || IsSubsequence(a, b[1..])
  }

  /** `syllabusData.filter(...)`. */
  function FilterSubjects(subjects: seq<Subject>, f: Filters): (r: seq<Subject>)
    ensures |r| <= |subjects|
    ensures forall s :: s in r <==> s in subjects && SubjectShown(s, f)
  {
    if subjects == [] then []
    else (if SubjectShown(subjects[0], f) then [subjects[0]] else []) + FilterSubjects(subjects[1..], f)
  }

  /** The filtered list keeps the order of the syllabus. */
  lemma {:induction false} FilterIsSubsequence(subjects: seq<Subject>, f: Filters)
    ensures IsSubsequence(FilterSubjects(subjects, f), subjects)
  {
    if subjects != [] {
      var rest := FilterSubjects(subjects[1..], f);
      FilterIsSubsequence(subjects[1..], f);
      if SubjectShown(subjects[0], f) {
        assert FilterSubjects(subjects, f) == [subjects[0]] + rest;
        assert ([subjects[0]] + rest)[1..] == rest;
      } else {
        assert FilterSubjects(subjects, f) == rest;
        if rest != [] {
          assert IsSubsequence(rest, subjects[1..]);
        }
      }
    }
  }

  /** Every string contains the empty string. */
  lemma {:induction false} ContainsEmpty(s: string)
    ensures Contains(s, "")
  {
    assert StartsWith(s, "");
  }

  /** With no search and every select on "all", exactly the subjects that have a chapter are kept. */
  lemma NoFiltersKeepsNonEmpty(subjects: seq<Subject>)
    ensures forall s :: s in FilterSubjects(subjects, NoFilters) <==>
      s in subjects && exists c :: c in s.classes && c.chapters != []
  {
    assert Lower("") == "";
    forall ch: Chapter ensures ChapterShown(ch, NoFilters) {
      ContainsEmpty(Lower(ch.name));
    }
    forall s | s in subjects && (exists c :: c in s.classes && c.chapters != [])
      ensures SubjectShown(s, NoFilters)
    {
      var c :| c in s.classes && c.chapters != [];
      assert c.chapters[0] in c.chapters;
      assert ClassShown(c, NoFilters);
    }
  }

  /** `${subject.name}-${classData.class}-${chapter.id}`. */
  function ChapterId(subject: string, classNumber: nat, id: nat): (r: string)
    ensures StartsWith(r, subject)
  {
    subject + "-" + NatToString(classNumber) + "-" + NatToString(id)
  }

  /** A chapter's id counts towards its own subject's progress. */
  lemma ChapterIdInSubject(subject: string, classNumber: nat, id: nat)
    ensures StartsWith(Lower(ChapterId(subject, classNumber, id)), Lower(subject))
  {
    LowerKeepsPrefix(ChapterId(subject, classNumber, id), subject);
  }

  /** A digit string contains no dash. */
  lemma DigitsHaveNoDash(s: string)
    requires AllDigits(s)
    ensures '-' !in s
  {
    assert forall i :: 0 <= i < |s| ==> IsDigit(s[i]);
  }

  /** Splitting `a-b` at its first dash, when `a` has none, gives back both parts. */
  lemma DashJoin(a: string, b: string)
    requires '-' !in a
    ensures BeforeFirst(a + "-" + b, '-') == a
    ensures (a + "-" + b)[|a| + 1..] == b
  {
    BeforeFirstOfJoin(a, '-', b);
  }

  /** For subject names without a dash, different chapters get different ids. */
  lemma ChapterIdInjective(s1: string, c1: nat, i1: nat, s2: string, c2: nat, i2: nat)
    requires '-' !in s1 && '-' !in s2
    requires ChapterId(s1, c1, i1) == ChapterId(s2, c2, i2)
    ensures s1 == s2 && c1 == c2 && i1 == i2
  {
    var rest1 := NatToString(c1) + "-" + NatToString(i1);
    var rest2 := NatToString(c2) + "-" + NatToString(i2);
    assert ChapterId(s1, c1, i1) == s1 + "-" + rest1;
    assert ChapterId(s2, c2, i2) == s2 + "-" + rest2;
    DashJoin(s1, rest1);
    DashJoin(s2, rest2);
    DigitsHaveNoDash(NatToString(c1));
    DigitsHaveNoDash(NatToString(c2));
    DashJoin(NatToString(c1), NatToString(i1));
    DashJoin(NatToString(c2), NatToString(i2));
    NatToStringInjective(c1, c2);
    NatToStringInjective(i1, i2);
  }

  /** `toggleChapter` on the set of expanded chapter ids: only `id`'s membership flips. */
  function Toggled(expanded: set<string>, id: string): (r: set<string>)
    ensures id in r <==> id !in expanded
    ensures forall k :: k != id ==> (k in r <==> k in expanded)
  {
    if id in expanded then expanded - {id} else expanded + {id}
  }

  lemma ToggleTwice(expanded: set<string>, id: string)
    ensures Toggled(Toggled(expanded, id), id) == expanded
  {
  }

  /** The page's expanded-chapter state. */
  class ExpandedChapters {
    var expanded: set<string>

    constructor ()
      ensures expanded == {}
    {
      expanded := {};
    }

    /** Copy the set, then delete or add the id. */
    method Toggle(chapterId: string)
      modifies this
      ensures expanded == Toggled(old(expanded), chapterId)
    {
      var next := expanded;
      if chapterId in next {
        next := next - {chapterId};
      } else {
        next := next + {chapterId};
      }
      expanded := next;
    }
  }

  const UnderstandingColors := ["#EF4444", "#F97316", "#EAB308", "#22C55E", "#3B82F6"]
  const UnderstandingLabels := ["Bad", "Moderate", "Good", "Genius", "PhD-level"]

  /** `colors[level - 1] || "#6B7280"`. */
  function UnderstandingColor(level: int): (r: string)
    ensures 1 <= level <= 5 ==> r == UnderstandingColors[level - 1]
    ensures r == "#6B7280" <==> !(1 <= level <= 5)
  {
    if 1 <= level <= 5 then UnderstandingColors[level - 1] else "#6B7280"
  }

  /** `labels[level - 1] || "Not Set"`. */
  function UnderstandingLabel(level: int): (r: string)
    ensures 1 <= level <= 5 ==> r == UnderstandingLabels[level - 1]
    ensures r == "Not Set" <==> !(1 <= level <= 5)
  {
    if 1 <= level <= 5 then UnderstandingLabels[level - 1] else "Not Set"
  }

  /** Distinct levels 1 to 5 get distinct labels. */
  lemma UnderstandingLabelsDistinct(a: int, b: int)
    requires 1 <= a <= 5 && 1 <= b <= 5 && a != b
    ensures UnderstandingLabel(a) != UnderstandingLabel(b)
  {
    assert |UnderstandingLabels[0]| == 3 && |UnderstandingLabels[1]| == 8 && |UnderstandingLabels[2]| == 4;
    assert |UnderstandingLabels[3]| == 6 && |UnderstandingLabels[4]| == 9;
  }

  /** `subtopic-${index}`. */
  function SubtopicKey(index: nat): string {
    "subtopic-" + NatToString(index)
  }

  /** The payload of a subtopic's button: its flag negated (absent reads false), the rest copied. */
  function SubtopicToggle(current: ChapterProgress, index: nat): (u: Patch)
    ensures u.subtopics.Some? && u.completed.None? && u.revised.None?
    ensures u.understanding.None? && u.important.None?
    ensures u.subtopics.value.Keys == current.subtopics.Keys + {SubtopicKey(index)}
    ensures u.subtopics.value[SubtopicKey(index)] ==
      !(SubtopicKey(index) in current.subtopics && current.subtopics[SubtopicKey(index)])
    ensures forall k :: k in current.subtopics && k != SubtopicKey(index) ==>
      u.subtopics.value[k] == current.subtopics[k]
  {
    var key := SubtopicKey(index);
    var done := key in current.subtopics && current.subtopics[key];
    NoChange.(subtopics := Some(current.subtopics[key := !done]))
  }

  datatype Flag = Important | Revised | Completed

  /** The payload of the star, revised and completed buttons: the current flag negated. */
  function FlagToggle(current: ChapterProgress, flag: Flag): (u: Patch)
    ensures flag == Important ==> u == NoChange.(important := Some(!current.important))
    ensures flag == Revised ==> u == NoChange.(revised := Some(!current.revised))
    ensures flag == Completed ==> u == NoChange.(completed := Some(!current.completed))
  {
    match flag
    case Important => NoChange.(important := Some(!current.important))
    case Revised => NoChange.(revised := Some(!current.revised))
    case Completed => NoChange.(completed := Some(!current.completed))
  }

  /** Pressing a flag button flips that flag of that chapter and changes nothing else. */
  lemma FlagToggleFlips(m: ProgressMap, id: string, flag: Flag)
    ensures var r := Upsert(m, id, FlagToggle(ProgressOf(m, id), flag));
      var before := ProgressOf(m, id);
      (flag == Important ==> r[id] == before.(important := !before.important)) &&
      (flag == Revised ==> r[id] == before.(revised := !before.revised)) &&
      (flag == Completed ==> r[id] == before.(completed := !before.completed)) &&
      (forall k :: k in m && k != id ==> r[k] == m[k])
  {
  }

  /** Pressing a flag button twice restores the chapter's record. */
  lemma FlagToggleTwice(m: ProgressMap, id: string, flag: Flag)
    ensures var once := Upsert(m, id, FlagToggle(ProgressOf(m, id), flag));
      Upsert(once, id, FlagToggle(ProgressOf(once, id), flag))[id] == ProgressOf(m, id)
  {
  }

  /** Pressing a subtopic button flips that subtopic only; the other fields stay. */
  lemma SubtopicToggleFlips(m: ProgressMap, id: string, index: nat)
    ensures var before := ProgressOf(m, id);
      var after := Upsert(m, id, SubtopicToggle(before, index))[id];
      var key := SubtopicKey(index);
      after.completed == before.completed && after.revised == before.revised &&
      after.understanding == before.understanding && after.important == before.important &&
      key in after.subtopics &&
      after.subtopics[key] == !(key in before.subtopics && before.subtopics[key]) &&
      (forall k :: k in before.subtopics && k != key ==> after.subtopics[k] == before.subtopics[k])
  {
  }

  /** The understanding buttons send the chosen level alone. */
  function UnderstandingSet(level: int): (u: Patch)
    ensures u.understanding == Some(level)
    ensures u.(understanding := None) == NoChange
  {
    NoChange.(understanding := Some(level))
  }
}
