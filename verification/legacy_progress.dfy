/**
 * The older local-storage progress hook. Its stored records may lack fields
 * (they come back from JSON as they were written), so the map holds partial
 * records, and an update builds `{...defaults, ...prev[id], ...updates}` and
 * writes the map to storage in the same step.
 */
module LegacyProgress {
  import opened Wrappers
  import opened Storage
  import opened Progress
  import opened Metrics

  /** Chapter id to a record whose fields may each be missing. */
  type LegacyMap = map<string, Patch>

  /** `prev[id]`: a missing entry spreads no field at all. */
  function Stored(m: LegacyMap, id: string): (r: Patch)
    ensures id in m ==> r == m[id]
    ensures id !in m ==> r == NoChange
  {
    if id in m then m[id] else NoChange
  }

  /** `{completed: false, ..., subtopics: {}, ...prev[id], ...updates}`. */
  function LegacyRecord(m: LegacyMap, id: string, u: Patch): (r: ChapterProgress)
    ensures r.completed == u.completed.GetOr(Stored(m, id).completed.GetOr(false))
    ensures r.revised == u.revised.GetOr(Stored(m, id).revised.GetOr(false))
    ensures r.understanding == u.understanding.GetOr(Stored(m, id).understanding.GetOr(0))
    ensures r.important == u.important.GetOr(Stored(m, id).important.GetOr(false))
    ensures r.subtopics == u.subtopics.GetOr(Stored(m, id).subtopics.GetOr(map[]))
  {
    Overlay(Overlay(Zero, Stored(m, id)), u)
  }

  /** The map `updateProgress` computes: the chapter gets the complete merged record. */
  function LegacyUpsert(m: LegacyMap, id: string, u: Patch): (r: LegacyMap)
    ensures r.Keys == m.Keys + {id}
    ensures r[id] == Full(LegacyRecord(m, id, u))
    ensures forall k :: k in m && k != id ==> r[k] == m[k]
  {
    m[id := Full(LegacyRecord(m, id, u))]
  }

  /** A map of complete records seen as stored records. */
  function Lift(pm: ProgressMap): (r: LegacyMap)
    ensures r.Keys == pm.Keys
    ensures forall k :: k in pm ==> r[k] == Full(pm[k])
  {
    map k | k in pm :: Full(pm[k])
  }

  /** A stored record that has every field. */
  predicate Complete(p: Patch) {
    p.completed.Some? && p.revised.Some? && p.understanding.Some? && p.important.Some? && p.subtopics.Some?
  }

  /** On complete records the older update agrees with the upsert of the newer hooks. */
  lemma LegacyAgreesWithUpsert(pm: ProgressMap, id: string, u: Patch)
    ensures LegacyUpsert(Lift(pm), id, u) == Lift(Upsert(pm, id, u))
  {
    if id in pm {
      OverlayFullAndNoChange(Zero, pm[id]);
    } else {
      OverlayFullAndNoChange(Zero, Zero);
    }
  }

  /** Applying the same update twice stores the same map as applying it once. */
  lemma LegacyUpsertIdempotent(m: LegacyMap, id: string, u: Patch)
    ensures LegacyUpsert(LegacyUpsert(m, id, u), id, u) == LegacyUpsert(m, id, u)
  {
    var r := LegacyRecord(m, id, u);
    OverlayFullAndNoChange(Zero, r);
    assert LegacyRecord(LegacyUpsert(m, id, u), id, u) == r;
  }

  /** The ids whose stored `completed` is `true` (a missing field is falsy). */
  function LegacyCompletedIds(m: LegacyMap): (r: set<string>)
    ensures r <= m.Keys
    ensures forall k :: k in r <==> k in m && m[k].completed == Some(true)
  {
    set k | k in m && m[k].completed == Some(true)
  }

  /** `getOverallProgress` over stored records. */
  function LegacyOverall(m: LegacyMap): (r: real)
    ensures 0.0 <= r <= 100.0
    ensures m == map[] ==> r == 0.0
    ensures m != map[] ==> r * (|m| as real) == 100.0 * (|LegacyCompletedIds(m)| as real)
  {
    SubsetOfSameSize(LegacyCompletedIds(m), m.Keys);
    Percent(|LegacyCompletedIds(m)|, |m|)
  }

  /** On complete records the older overall percentage is the newer one. */
  lemma LegacyOverallOfLift(pm: ProgressMap)
    ensures LegacyOverall(Lift(pm)) == OverallProgress(pm)
  {
    assert LegacyCompletedIds(Lift(pm)) == CompletedIds(pm);
  }

  /** State of `useProgress`. */
  class LegacyProgressHook {
    var progress: LegacyMap
    var store: Store
    const codec: Codec<LegacyMap>

    constructor (store0: Store, codec: Codec<LegacyMap>)
      ensures progress == map[] && store == store0 && this.codec == codec
    {
      progress := map[];
      store := store0;
      this.codec := codec;
    }

    /**
     * The mount effect: adopt the stored map when there is one. A text that
     * does not decode throws out of the effect and leaves the map as it was.
     */
    method Load()
      modifies this
      ensures progress == Restore(old(store), ProgressKey, codec).GetOr(old(progress))
      ensures store == old(store)
    {
      var saved := Saved(store, ProgressKey);
      if saved.Some? {
        var parsed := codec.decode(saved.value);
        if parsed.Some? {
          progress := parsed.value;
        }
      }
    }

    /** `updateProgress`: merge, then write the new map to storage in the same step. */
    method Update(chapterId: string, updates: Patch)
      modifies this
      ensures progress == LegacyUpsert(old(progress), chapterId, updates)
      ensures store == old(store)[ProgressKey := codec.encode(progress)]
    {
      progress := LegacyUpsert(progress, chapterId, updates);
      store := store[ProgressKey := codec.encode(progress)];
    }

    /** `getOverallProgress` on the current map. */
    function Overall(): (r: real)
      reads this
      ensures 0.0 <= r <= 100.0
      ensures progress == map[] ==> r == 0.0
    {
      LegacyOverall(progress)
    }
  }

  /** A reload after an update sees the updated map. */
  method UpdateThenReload(store0: Store, c: Codec<LegacyMap>, chapterId: string, updates: Patch)
    returns (updated: LegacyMap, reloaded: LegacyMap)
    requires Lawful(c)
    ensures reloaded == updated
    ensures chapterId in updated && Complete(updated[chapterId])
  {
    var a := new LegacyProgressHook(store0, c);
    a.Load();
    a.Update(chapterId, updates);
    updated := a.progress;
    RestoreSaved(store0, ProgressKey, c, updated);
    var b := new LegacyProgressHook(a.store, c);
    b.Load();
    reloaded := b.progress;
  }
}
