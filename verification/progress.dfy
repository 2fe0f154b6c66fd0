/**
 * Chapter progress records, partial updates of them, and the upsert that the
 * progress hooks perform: `{...(prev[id] || zero), ...updates}`.
 */
module Progress {
  import opened Wrappers

  /** Subtopic completion flags, keyed `subtopic-<index>`. */
  type Subtopics = map<string, bool>

  datatype ChapterProgress = ChapterProgress(
    completed: bool,
    revised: bool,
    understanding: int,
    important: bool,
    subtopics: Subtopics)

  /** `Partial<ChapterProgress>`: each field either present or absent. */
  datatype Patch = Patch(
    completed: Option<bool>,
    revised: Option<bool>,
    understanding: Option<int>,
    important: Option<bool>,
    subtopics: Option<Subtopics>)

  /** The progress map: chapter id to its record. */
  type ProgressMap = map<string, ChapterProgress>

  /** The record a chapter without an entry reads as. */
  const Zero := ChapterProgress(false, false, 0, false, map[])

  /** The update that sets nothing (spreading `undefined` adds no field). */
  const NoChange := Patch(None, None, None, None, None)

  /** A complete record seen as an update that sets every field. */
  function Full(c: ChapterProgress): Patch {
    Patch(Some(c.completed), Some(c.revised), Some(c.understanding), Some(c.important), Some(c.subtopics))
  }

  /**
   * Object spread `{...base, ...u}`: each field present in `u` takes the
   * value from `u`, each absent one keeps the value from `base`.
   */
  function Overlay(base: ChapterProgress, u: Patch): (r: ChapterProgress)
    ensures r.completed == if u.completed.Some? then u.completed.value else base.completed
    ensures r.revised == if u.revised.Some? then u.revised.value else base.revised
    ensures r.understanding == if u.understanding.Some? then u.understanding.value else base.understanding
    ensures r.important == if u.important.Some? then u.important.value else base.important
    ensures r.subtopics == if u.subtopics.Some? then u.subtopics.value else base.subtopics
  {
    ChapterProgress(
      u.completed.GetOr(base.completed),
      u.revised.GetOr(base.revised),
      u.understanding.GetOr(base.understanding),
      u.important.GetOr(base.important),
      u.subtopics.GetOr(base.subtopics))
  }

  /** Overlaying the same update twice is overlaying it once. */
  lemma OverlayIdempotent(base: ChapterProgress, u: Patch)
    ensures Overlay(Overlay(base, u), u) == Overlay(base, u)
  {
  }

  /** Overlaying a complete record replaces everything; overlaying nothing changes nothing. */
  lemma OverlayFullAndNoChange(base: ChapterProgress, c: ChapterProgress)
    ensures Overlay(base, Full(c)) == c
    ensures Overlay(base, NoChange) == base
  {
  }

  /** `progress[id] || zero`: the entry, or the zero record when there is none. */
  function ProgressOf(m: ProgressMap, id: string): (r: ChapterProgress)
    ensures id in m ==> r == m[id]
    ensures id !in m ==> r == Zero
  {
    if id in m then m[id] else Zero
  }

  /**
   * `{...prev, [id]: {...(prev[id] || zero), ...u}}`: the upsert of
   * `updateProgress` in the simple and the database-backed hooks.
   */
  function Upsert(m: ProgressMap, id: string, u: Patch): (r: ProgressMap)
    ensures r.Keys == m.Keys + {id}
    ensures r[id] == Overlay(ProgressOf(m, id), u)
    ensures forall k :: k in m && k != id ==> r[k] == m[k]
  {
    m[id := Overlay(ProgressOf(m, id), u)]
  }

  /** A chapter without an entry starts from the zero record. */
  lemma UpsertNewStartsFromZero(m: ProgressMap, id: string, u: Patch)
    requires id !in m
    ensures Upsert(m, id, u)[id] == Overlay(Zero, u)
    ensures |Upsert(m, id, u)| == |m| + 1
  {
  }

  /** Applying the same update twice gives the same map as applying it once. */
  lemma UpsertIdempotent(m: ProgressMap, id: string, u: Patch)
    ensures Upsert(Upsert(m, id, u), id, u) == Upsert(m, id, u)
  {
    OverlayIdempotent(ProgressOf(m, id), u);
  }

  /** Updates to different chapters commute. */
  lemma UpsertCommutes(m: ProgressMap, a: string, u: Patch, b: string, v: Patch)
    requires a != b
    ensures Upsert(Upsert(m, a, u), b, v) == Upsert(Upsert(m, b, v), a, u)
  {
  }
}
