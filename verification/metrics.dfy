/**
 * The derived metrics of the progress hooks: overall and per-subject
 * percentages (exact reals), the chapter counts and the important chapters.
 */
module Metrics {
  import opened Text
  import opened Progress

  /** `(part / whole) * 100`, and 0 when there is nothing to divide by. */
  function Percent(part: nat, whole: nat): (r: real)
    requires part <= whole
    ensures 0.0 <= r <= 100.0
    ensures part == 0 ==> r == 0.0
    ensures whole > 0 ==> r * (whole as real) == 100.0 * (part as real)
    ensures r == 100.0 <==> whole > 0 && part == whole
  {
    if whole == 0 then 0.0 else (part as real / whole as real) * 100.0
  }

  /** The ids of the completed chapters. */
  function CompletedIds(m: ProgressMap): (r: set<string>)
    ensures r <= m.Keys
    ensures forall k :: k in r <==> k in m && m[k].completed
  {
    set k | k in m && m[k].completed
  }

  /** A subset as large as its superset is the whole superset. */
  lemma SubsetOfSameSize<T>(a: set<T>, b: set<T>)
    requires a <= b
    ensures |a| <= |b|
    ensures |a| == |b| ==> a == b
  {
    assert b == a + (b - a);
    assert |b| == |a| + |b - a|;
    if |a| == |b| {
      assert |b - a| == 0;
    }
  }

  /** `getTotalChapters`: `Object.keys(progress).length`. */
  function TotalChapters(m: ProgressMap): (r: nat)
    ensures r == |m.Keys|
  {
    |m|
  }

  /** `getCompletedChapters`: the number of completed entries, never more than the total. */
  function CompletedChapters(m: ProgressMap): (r: nat)
    ensures r <= TotalChapters(m)
    ensures r == TotalChapters(m) <==> forall k :: k in m ==> m[k].completed
  {
    SubsetOfSameSize(CompletedIds(m), m.Keys);
    assert (forall k :: k in m ==> m[k].completed) ==> CompletedIds(m) == m.Keys;
    |CompletedIds(m)|
  }

  /** `getOverallProgress`: completed entries as a percentage of all entries. */
  function OverallProgress(m: ProgressMap): (r: real)
    ensures 0.0 <= r <= 100.0
    ensures m == map[] ==> r == 0.0
    ensures CompletedChapters(m) == 0 ==> r == 0.0
    ensures m != map[] ==> r * (TotalChapters(m) as real) == 100.0 * (CompletedChapters(m) as real)
    ensures r == 100.0 <==> m != map[] && forall k :: k in m ==> m[k].completed
  {
    Percent(CompletedChapters(m), TotalChapters(m))
  }

  /** The entries whose id, lower-cased, starts with the lower-cased subject name. */
  function SubjectChapters(m: ProgressMap, subject: string): (r: ProgressMap)
    ensures r.Keys <= m.Keys
    ensures forall k :: k in r <==> k in m && StartsWith(Lower(k), Lower(subject))
    ensures forall k :: k in r ==> r[k] == m[k]
  {
    map k | k in m && StartsWith(Lower(k), Lower(subject)) :: m[k]
  }

  /**
   * `getSubjectProgress`: the overall formula restricted to the entries whose
   * id starts with the subject name (a raw, case-insensitive prefix test).
   */
  function SubjectProgress(m: ProgressMap, subject: string): (r: real)
    ensures 0.0 <= r <= 100.0
    ensures SubjectChapters(m, subject) == map[] ==> r == 0.0
    ensures r == 100.0 <==>
      SubjectChapters(m, subject) != map[] &&
      forall k :: k in m && StartsWith(Lower(k), Lower(subject)) ==> m[k].completed
  {
    OverallProgress(SubjectChapters(m, subject))
  }

  /** A single chapter counts 100% when completed and 0% otherwise. */
  lemma OverallOfOne(id: string, c: ChapterProgress)
    ensures OverallProgress(map[id := c]) == if c.completed then 100.0 else 0.0
  {
    if !c.completed {
      assert CompletedIds(map[id := c]) == {};
    }
  }

  /** When exactly one entry matches a subject, the subject's chapters are that entry alone. */
  lemma SubjectOfOne(m: ProgressMap, subject: string, id: string)
    requires id in m && StartsWith(Lower(id), Lower(subject))
    requires forall k :: k in m && k != id ==> !StartsWith(Lower(k), Lower(subject))
    ensures SubjectChapters(m, subject) == map[id := m[id]]
  {
  }

  /** A subject with a single matching entry is at 100% when that entry is completed, else at 0%. */
  lemma SubjectProgressOfOne(m: ProgressMap, subject: string, id: string)
    requires id in m && StartsWith(Lower(id), Lower(subject))
    requires forall k :: k in m && k != id ==> !StartsWith(Lower(k), Lower(subject))
    ensures SubjectProgress(m, subject) == if m[id].completed then 100.0 else 0.0
  {
    SubjectOfOne(m, subject, id);
    OverallOfOne(id, m[id]);
  }

  /** Of a completed and an open chapter, the subject matching only the completed one is at 100%. */
  lemma SubjectOfCompletedAlone(done: string, open: string, subject: string)
    requires StartsWith(Lower(done), Lower(subject)) && !StartsWith(Lower(open), Lower(subject))
    ensures SubjectProgress(map[done := Zero.(completed := true), open := Zero], subject) == 100.0
  {
    assert done != open;
    var m := map[done := Zero.(completed := true), open := Zero];
    assert m[done].completed;
    SubjectProgressOfOne(m, subject, done);
  }

  /** Of a completed and an open chapter, the subject matching only the open one is at 0%. */
  lemma SubjectOfOpenAlone(done: string, open: string, subject: string)
    requires StartsWith(Lower(open), Lower(subject)) && !StartsWith(Lower(done), Lower(subject))
    ensures SubjectProgress(map[done := Zero.(completed := true), open := Zero], subject) == 0.0
  {
    assert done != open;
    var m := map[done := Zero.(completed := true), open := Zero];
    assert m[open] == Zero;
    SubjectProgressOfOne(m, subject, open);
  }

  /** Entries of other subjects do not affect a subject's progress. */
  lemma SubjectProgressIgnoresOthers(m: ProgressMap, subject: string, id: string, c: ChapterProgress)
    requires !StartsWith(Lower(id), Lower(subject))
    ensures SubjectProgress(m[id := c], subject) == SubjectProgress(m, subject)
  {
    assert SubjectChapters(m[id := c], subject) == SubjectChapters(m, subject);
  }

  /** `order` lists every key of `m` exactly once: the order of `Object.entries`. */
  predicate IsKeyOrder(order: seq<string>, m: ProgressMap) {
    (forall i, j :: 0 <= i < j < |order| ==> order[i] != order[j]) &&
    (forall k :: k in order ==> k in m) && (forall k :: k in m ==> k in order)
  }

  /** The ids in `order` whose entry is flagged important, kept in that order. */
  function ImportantIn(order: seq<string>, m: ProgressMap): seq<string>
    requires forall k :: k in order ==> k in m
  {
    if order == [] then []
    else (if m[order[0]].important then [order[0]] else []) + ImportantIn(order[1..], m)
  }

  lemma {:induction false} ImportantInProperties(order: seq<string>, m: ProgressMap)
    requires forall k :: k in order ==> k in m
    requires forall i, j :: 0 <= i < j < |order| ==> order[i] != order[j]
    ensures forall k :: k in ImportantIn(order, m) <==> k in order && m[k].important
    ensures forall i, j :: 0 <= i < j < |ImportantIn(order, m)| ==>
      ImportantIn(order, m)[i] != ImportantIn(order, m)[j]
  {
    if order != [] {
      var rest := order[1..];
      assert forall k :: k in order <==> k == order[0] || k in rest;
      ImportantInProperties(rest, m);
      assert order[0] !in rest;
    }
  }

  /**
   * `getImportantChapters`: the ids flagged important, each once, in entry
   * order; `order` stands for the order of `Object.entries`.
   */
  function ImportantChapters(m: ProgressMap, order: seq<string>): (r: seq<string>)
    requires IsKeyOrder(order, m)
    ensures forall k :: k in r <==> k in m && m[k].important
    ensures forall i, j :: 0 <= i < j < |r| ==> r[i] != r[j]
  {
    ImportantInProperties(order, m);
    ImportantIn(order, m)
  }
}
