/**
 * The database-backed progress hook: load from the remote `progress` table
 * when a client and a user are available, fall back to local storage
 * otherwise, and write every update through to local storage whatever the
 * remote upsert does. The remote side is an abstract outcome passed in.
 */
module DatabaseProgress {
  import opened Wrappers
  import opened Storage
  import opened Progress
  import opened Metrics

  /** A row of the remote `progress` table, as the select returns it. */
  datatype Row = Row(
    chapterId: string,
    completed: bool,
    revised: bool,
    understanding: int,
    important: bool,
    subtopics: Subtopics)

  /** The payload of the remote upsert (the `updated_at` timestamp is not modelled). */
  datatype UpsertRow = UpsertRow(userId: string, chapterId: string, record: ChapterProgress)

  function RecordOf(row: Row): ChapterProgress {
    ChapterProgress(row.completed, row.revised, row.understanding, row.important, row.subtopics)
  }

  /** The chapter ids the rows mention. */
  function RowIds(rows: seq<Row>): set<string> {
    set i | 0 <= i < |rows| :: rows[i].chapterId
  }

  /** No later row has the same chapter id as row `i`. */
  predicate LastFor(rows: seq<Row>, i: int)
    requires 0 <= i < |rows|
  {
    forall j :: i < j < |rows| ==> rows[j].chapterId != rows[i].chapterId
  }

  /**
   * The dictionary the `forEach` builds: one entry per distinct chapter id,
   * taken from the last row with that id.
   */
  function RowsToMap(rows: seq<Row>): (r: ProgressMap)
    ensures r.Keys == RowIds(rows)
  {
    if rows == [] then map[]
    else
      var init := rows[..|rows| - 1];
      var last := rows[|rows| - 1];
      assert forall i :: 0 <= i < |init| ==> init[i] == rows[i];
      assert RowIds(rows) == RowIds(init) + {last.chapterId};
      RowsToMap(init)[last.chapterId := RecordOf(last)]
  }

  /** Each entry is the record of the last row with its chapter id. */
  lemma {:induction false} RowsToMapLastWins(rows: seq<Row>, i: int)
    requires 0 <= i < |rows| && LastFor(rows, i)
    ensures RowsToMap(rows)[rows[i].chapterId] == RecordOf(rows[i])
  {
    if i < |rows| - 1 {
      var init := rows[..|rows| - 1];
      assert init[i] == rows[i];
      assert rows[|rows| - 1].chapterId != rows[i].chapterId;
      assert LastFor(init, i) by {
        forall j | i < j < |init| ensures init[j].chapterId != init[i].chapterId {
          assert init[j] == rows[j];
        }
      }
      RowsToMapLastWins(init, i);
    }
  }

  /** The `forEach` loop itself, writing one entry per row. */
  method BuildProgressMap(rows: seq<Row>) returns (m: ProgressMap)
    ensures m == RowsToMap(rows)
  {
    m := map[];
    for i := 0 to |rows|
      invariant m == RowsToMap(rows[..i])
    {
      assert rows[..i + 1][..i] == rows[..i];
      m := m[rows[i].chapterId := RecordOf(rows[i])];
    }
    assert rows[..|rows|] == rows;
  }

  /** Rows with distinct ids give a map with exactly as many entries as rows. */
  lemma {:induction false} RowsToMapDistinct(rows: seq<Row>)
    requires forall i, j :: 0 <= i < j < |rows| ==> rows[i].chapterId != rows[j].chapterId
    ensures |RowsToMap(rows)| == |rows|
    ensures forall i :: 0 <= i < |rows| ==> RowsToMap(rows)[rows[i].chapterId] == RecordOf(rows[i])
  {
    if rows != [] {
      var init := rows[..|rows| - 1];
      RowsToMapDistinct(init);
      assert rows[|rows| - 1].chapterId !in RowIds(init);
    }
    forall i | 0 <= i < |rows| ensures RowsToMap(rows)[rows[i].chapterId] == RecordOf(rows[i]) {
      RowsToMapLastWins(rows, i);
    }
  }

  /** State of `useDatabaseProgress`. */
  class SyncHook {
    var progress: ProgressMap
    var isLoading: bool
    /** Whether the remote client was obtained (`hasSupabase`). */
    var hasClient: bool
    var store: Store
    const codec: Codec<ProgressMap>

    constructor (store0: Store, codec: Codec<ProgressMap>)
      ensures progress == map[] && isLoading && !hasClient
      ensures store == store0 && this.codec == codec
    {
      progress := map[];
      isLoading := true;
      hasClient := false;
      store := store0;
      this.codec := codec;
    }

    /** The local-storage fallback inside the `catch`; a text that does not decode is ignored. */
    method Fallback()
      modifies this
      ensures progress == Restore(old(store), ProgressKey, codec).GetOr(old(progress))
      ensures store == old(store) && isLoading == old(isLoading) && hasClient == old(hasClient)
    {
      var saved := Saved(store, ProgressKey);
      if saved.Some? {
        var parsed := codec.decode(saved.value);
        if parsed.Some? {
          progress := parsed.value;
        }
      }
    }

    /**
     * `loadProgress`. `clientLoaded` says whether importing the client succeeded;
     * `fetched` is the result of the select, used only when it is issued.
     */
    method Load(userId: Option<string>, clientLoaded: bool, fetched: Result<seq<Row>, string>)
      modifies this
      ensures hasClient == (old(hasClient) || clientLoaded)
      ensures clientLoaded && !Present(userId) ==> progress == old(progress)
      ensures clientLoaded && Present(userId) && fetched.Ok? ==> progress == RowsToMap(fetched.value)
      ensures !clientLoaded || (Present(userId) && fetched.Err?) ==>
        progress == Restore(old(store), ProgressKey, codec).GetOr(old(progress))
      ensures !isLoading && store == old(store)
    {
      if clientLoaded {
        hasClient := true;
        if Present(userId) {
          match fetched
          case Ok(rows) =>
            var m := BuildProgressMap(rows);
            progress := m;
          case Err(_) =>
            Fallback();
        }
      } else {
        Fallback();
      }
      isLoading := false;
    }

    /**
     * `updateProgress`. The upsert payload is returned in `sent` when one is
     * issued; `remoteFailed` only records its outcome, which `updateProgress`
     * catches and logs, so nothing here reads it and it has no effect on the
     * local state.
     */
    method Update(chapterId: string, updates: Patch, userId: Option<string>, remoteFailed: bool)
      returns (sent: Option<UpsertRow>)
      modifies this
      ensures sent.Some? <==> hasClient && Present(userId)
      ensures sent.Some? ==>
        sent.value == UpsertRow(userId.value, chapterId, Overlay(ProgressOf(old(progress), chapterId), updates))
      ensures progress == Upsert(old(progress), chapterId, updates)
      ensures store == old(store)[ProgressKey := codec.encode(progress)]
      ensures isLoading == old(isLoading) && hasClient == old(hasClient)
    {
      var newProgress := Overlay(ProgressOf(progress, chapterId), updates);
      sent := None;
      if hasClient && Present(userId) {
        sent := Some(UpsertRow(userId.value, chapterId, newProgress));
      }
      progress := progress[chapterId := newProgress];
      store := store[ProgressKey := codec.encode(progress)];
    }

    /** `getOverallProgress` on the current map. */
    function Overall(): (r: real)
      reads this
      ensures 0.0 <= r <= 100.0
      ensures progress == map[] ==> r == 0.0
    {
      OverallProgress(progress)
    }
  }

  /** With the client available but no user, loading ends with the empty map and storage unread. */
  method LoadWithoutUser(store0: Store, c: Codec<ProgressMap>, userId: Option<string>,
                         fetched: Result<seq<Row>, string>) returns (m: ProgressMap, loading: bool)
    requires !Present(userId)
    ensures m == map[] && !loading
  {
    var hook := new SyncHook(store0, c);
    hook.Load(userId, true, fetched);
    m := hook.progress;
    loading := hook.isLoading;
  }

  /**
   * The local state after an update is the same whether the remote upsert
   * succeeded or failed.
   */
  method UpdateIgnoresRemote(store0: Store, c: Codec<ProgressMap>, userId: Option<string>,
                             clientLoaded: bool, fetched: Result<seq<Row>, string>,
                             chapterId: string, updates: Patch)
    returns (ok: ProgressMap, failed: ProgressMap, okStore: Store, failedStore: Store)
    ensures ok == failed && okStore == failedStore
  {
    var a := new SyncHook(store0, c);
    a.Load(userId, clientLoaded, fetched);
    var _ := a.Update(chapterId, updates, userId, false);
    var b := new SyncHook(store0, c);
    b.Load(userId, clientLoaded, fetched);
    var _ := b.Update(chapterId, updates, userId, true);
    ok, failed, okStore, failedStore := a.progress, b.progress, a.store, b.store;
  }

  /** An update is written through: a later load that falls back to local storage restores it. */
  method UpdateThenOfflineReload(store0: Store, c: Codec<ProgressMap>, userId: Option<string>,
                                 clientLoaded: bool, fetched: Result<seq<Row>, string>,
                                 chapterId: string, updates: Patch)
    returns (updated: ProgressMap, reloaded: ProgressMap)
    requires Lawful(c)
    ensures reloaded == updated
    ensures chapterId in updated
  {
    var a := new SyncHook(store0, c);
    a.Load(userId, clientLoaded, fetched);
    var _ := a.Update(chapterId, updates, userId, true);
    updated := a.progress;
    RestoreSaved(a.store, ProgressKey, c, updated);
    var b := new SyncHook(a.store, c);
    b.Load(userId, false, fetched);
    reloaded := b.progress;
  }
}
