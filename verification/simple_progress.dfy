/**
 * The local-storage progress hook used by the main page: the progress map,
 * its load and save effects, per-chapter updates, import and reset.
 */
module SimpleProgress {
  import opened Wrappers
  import opened Storage
  import opened Progress
  import opened Metrics
  import opened Text

  /** Import: a document that decodes replaces the whole map; one that does not changes nothing. */
  function Imported(current: ProgressMap, text: string, c: Codec<ProgressMap>): (r: ProgressMap)
    ensures c.decode(text).Some? ==> r == c.decode(text).value
    ensures c.decode(text).None? ==> r == current
  {
    c.decode(text).GetOr(current)
  }

  /** Exporting and importing the exported text gives back the same map. */
  lemma ExportImportRoundTrip(current: ProgressMap, m: ProgressMap, c: Codec<ProgressMap>)
    requires Lawful(c)
    ensures Imported(current, c.encode(m), c) == m
  {
  }

  /** State of `useSimpleProgress`: the map, the loaded flag and the local store. */
  class SimpleProgressHook {
    var progress: ProgressMap
    var isLoaded: bool
    var store: Store
    const codec: Codec<ProgressMap>

    constructor (store0: Store, codec: Codec<ProgressMap>)
      ensures progress == map[] && !isLoaded
      ensures store == store0 && this.codec == codec
    {
      progress := map[];
      isLoaded := false;
      store := store0;
      this.codec := codec;
    }

    /**
     * The mount effect: adopt the stored map when there is one and it decodes
     * (a decoding failure is caught and logged), then mark the hook loaded.
     */
    method Load()
      modifies this
      ensures progress == Restore(old(store), ProgressKey, codec).GetOr(old(progress))
      ensures isLoaded
      ensures store == old(store)
    {
      var saved := Saved(store, ProgressKey);
      if saved.Some? {
        var parsed := codec.decode(saved.value);
        if parsed.Some? {
          progress := parsed.value;
        }
      }
      isLoaded := true;
    }

    /** The save effect, run after each change: once loaded, the whole map is written back. */
    method Save()
      modifies this
      ensures isLoaded ==> store == old(store)[ProgressKey := codec.encode(progress)]
      ensures !isLoaded ==> store == old(store)
      ensures progress == old(progress) && isLoaded == old(isLoaded)
    {
      if isLoaded {
        store := store[ProgressKey := codec.encode(progress)];
      }
    }

    /** `updateProgress`: upsert the chapter's record; the save effect persists it. */
    method UpdateProgress(chapterId: string, updates: Patch)
      modifies this
      ensures progress == Upsert(old(progress), chapterId, updates)
      ensures store == old(store) && isLoaded == old(isLoaded)
    {
      progress := Upsert(progress, chapterId, updates);
    }

    /** `importProgress`, from the text the file reader delivers; reports whether it decoded. */
    method ImportProgress(text: string) returns (imported: bool)
      modifies this
      ensures imported <==> codec.decode(text).Some?
      ensures progress == Imported(old(progress), text, codec)
      ensures store == old(store) && isLoaded == old(isLoaded)
    {
      match codec.decode(text)
      case Some(m) =>
        progress := m;
        imported := true;
      case None =>
        imported := false;
    }

    /** `resetProgress`, with the answer of the confirmation dialog as input. */
    method ResetProgress(confirmed: bool)
      modifies this
      ensures confirmed ==> progress == map[] && store == old(store) - {ProgressKey}
      ensures !confirmed ==> progress == old(progress) && store == old(store)
      ensures isLoaded == old(isLoaded)
    {
      if confirmed {
        progress := map[];
        store := store - {ProgressKey};
      }
    }

    /** `getOverallProgress` on the current map. */
    function Overall(): (r: real)
      reads this
      ensures 0.0 <= r <= 100.0
      ensures progress == map[] ==> r == 0.0
    {
      OverallProgress(progress)
    }
  }

  /** Updating, saving and loading again restores exactly the updated map. */
  method UpdateSaveReload(store0: Store, c: Codec<ProgressMap>, chapterId: string, updates: Patch)
    returns (before: ProgressMap, after: ProgressMap)
    requires Lawful(c)
    ensures after == Upsert(before, chapterId, updates)
  {
    var hook := new SimpleProgressHook(store0, c);
    hook.Load();
    before := hook.progress;
    hook.UpdateProgress(chapterId, updates);
    hook.Save();
    RestoreSaved(store0, ProgressKey, c, hook.progress);
    var reloaded := new SimpleProgressHook(hook.store, c);
    reloaded.Load();
    after := reloaded.progress;
  }

  /** A confirmed reset followed by the save effect leaves a store that loads as the empty map. */
  method ResetSaveReload(store0: Store, c: Codec<ProgressMap>) returns (after: ProgressMap)
    requires Lawful(c)
    ensures after == map[]
  {
    var hook := new SimpleProgressHook(store0, c);
    hook.Load();
    hook.ResetProgress(true);
    hook.Save();
    RestoreSaved(store0 - {ProgressKey}, ProgressKey, c, map[]);
    var reloaded := new SimpleProgressHook(hook.store, c);
    reloaded.Load();
    after := reloaded.progress;
  }

  /** From an empty map, completing "Physics-11-1" gives 1 chapter, 1 completed, 100%. */
  lemma FirstCompletionScenario()
    ensures var m := Upsert(map[], "Physics-11-1", NoChange.(completed := Some(true)));
      TotalChapters(m) == 1 && CompletedChapters(m) == 1 && OverallProgress(m) == 100.0
  {
    var m := Upsert(map[], "Physics-11-1", NoChange.(completed := Some(true)));
    assert m.Keys == {"Physics-11-1"};
  }
}
