/**
 * The worker sagas of frontend/src/songs/songsSaga.ts. Each handler awaits
 * one API call and then `put`s a fixed sequence of actions into the store:
 * the success of a mutation is followed by a stats refresh, a failure by
 * `requestFailure` alone. The API is a parameter: the outcome of a call
 * without arguments, or a function from the request to its outcome.
 */
module SongsSaga {
  import opened Wrappers
  import opened SongsApi
  import opened SongsSlice

  class Saga {
    /** The store the sagas dispatch into. */
    const store: SongsStore
    /** Every action put so far, in order. */
    var log: seq<Action>
    /** The store's state before the first put. */
    ghost var start: SongsState

    /** The store changes only by the actions put: its state is the log replayed on the start state. */
    ghost predicate Valid()
      reads this, store
    {
      store.State() == ReduceAll(start, log)
    }

    constructor (store: SongsStore)
      ensures this.store == store && log == [] && start == store.State() && Valid()
    {
      this.store := store;
      log := [];
      start := store.State();
    }

    /** `yield put(a)`: the action reaches the store's reducer and is recorded. */
    method Put(a: Action)
      requires Valid()
      modifies this, store
      ensures Valid() && start == old(start)
      ensures log == old(log) + [a]
      ensures store.State() == Reduce(old(store.State()), a)
    {
      store.Dispatch(a);
      ReduceAllSnoc(start, log, a);
      log := log + [a];
    }

    /** `handleFetchSongs`: the list on success, the error message on failure. */
    method HandleFetchSongs(response: ApiOutcome<seq<Song>>)
      requires Valid()
      modifies this, store
      ensures Valid() && start == old(start)
      ensures response.Succeeded? ==> log == old(log) + [FetchSongsSuccess(response.data)]
      ensures response.Failed? ==> log == old(log) + [RequestFailure(response.message)]
      ensures response.Succeeded? ==>
        store.songs == response.data && !store.loading &&
        store.stats == old(store.stats) && store.error == old(store.error)
    {
      match response
      case Succeeded(data) => Put(FetchSongsSuccess(data));
      case Failed(message) => Put(RequestFailure(message));
    }

    /** `handleFetchStats`: the statistics on success, the error message on failure. */
    method HandleFetchStats(response: ApiOutcome<StatsView>)
      requires Valid()
      modifies this, store
      ensures Valid() && start == old(start)
      ensures response.Succeeded? ==> log == old(log) + [FetchStatsSuccess(response.data)]
      ensures response.Failed? ==> log == old(log) + [RequestFailure(response.message)]
      ensures response.Succeeded? ==>
        store.stats == Some(response.data) && !store.loading &&
        store.songs == old(store.songs) && store.error == old(store.error)
    {
      match response
      case Succeeded(data) => Put(FetchStatsSuccess(data));
      case Failed(message) => Put(RequestFailure(message));
    }

    /**
     * `handleAddSong`: on success the saved song (the response, not the
     * payload) is appended and a stats refresh is triggered, which leaves the
     * store loading again; on failure only the error is recorded.
     */
    method HandleAddSong(payload: Song, create: Song -> ApiOutcome<Song>)
      requires Valid()
      modifies this, store
      ensures Valid() && start == old(start)
      ensures create(payload).Succeeded? ==>
        log == old(log) + [AddSongSuccess(create(payload).data), FetchStats]
      ensures create(payload).Failed? ==> log == old(log) + [RequestFailure(create(payload).message)]
      ensures create(payload).Succeeded? ==>
        store.songs == old(store.songs) + [create(payload).data] &&
        store.loading && store.error.None? && store.stats == old(store.stats)
      ensures create(payload).Failed? ==>
        !store.loading && store.error == Some(create(payload).message) &&
        store.songs == old(store.songs) && store.stats == old(store.stats)
    {
      var response := create(payload);
      match response
      case Succeeded(saved) =>
        Put(AddSongSuccess(saved));
        Put(FetchStats);
      case Failed(message) =>
        Put(RequestFailure(message));
    }

    /** `handleUpdateSong`: on success the returned song replaces its namesakes, then stats are refreshed. */
    method HandleUpdateSong(id: string, song: Song, update: (string, Song) -> ApiOutcome<Song>)
      requires Valid()
      modifies this, store
      ensures Valid() && start == old(start)
      ensures update(id, song).Succeeded? ==>
        log == old(log) + [UpdateSongSuccess(update(id, song).data), FetchStats]
      ensures update(id, song).Failed? ==> log == old(log) + [RequestFailure(update(id, song).message)]
      ensures update(id, song).Succeeded? ==>
        store.songs == ReplaceById(old(store.songs), update(id, song).data) &&
        store.loading && store.error.None? && store.stats == old(store.stats)
      ensures update(id, song).Failed? ==>
        !store.loading && store.error == Some(update(id, song).message) &&
        store.songs == old(store.songs) && store.stats == old(store.stats)
    {
      var response := update(id, song);
      match response
      case Succeeded(updated) =>
        Put(UpdateSongSuccess(updated));
        Put(FetchStats);
      case Failed(message) =>
        Put(RequestFailure(message));
    }

    /**
     * `handleDeleteSong`: on success the song is removed by the id of the
     * request (whatever the response holds), then stats are refreshed.
     */
    method HandleDeleteSong(id: string, remove: string -> ApiOutcome<string>)
      requires Valid()
      modifies this, store
      ensures Valid() && start == old(start)
      ensures remove(id).Succeeded? ==> log == old(log) + [DeleteSongSuccess(id), FetchStats]
      ensures remove(id).Failed? ==> log == old(log) + [RequestFailure(remove(id).message)]
      ensures remove(id).Succeeded? ==>
        store.songs == RemoveById(old(store.songs), id) &&
        store.loading && store.error.None? && store.stats == old(store.stats)
      ensures remove(id).Failed? ==>
        !store.loading && store.error == Some(remove(id).message) &&
        store.songs == old(store.songs) && store.stats == old(store.stats)
    {
      var response := remove(id);
      match response
      case Succeeded(_) =>
        Put(DeleteSongSuccess(id));
        Put(FetchStats);
      case Failed(message) =>
        Put(RequestFailure(message));
    }
  }

  /**
   * The derived refresh as a property of the reducer: after a successful
   * mutation and its chained `fetchStats`, the list reflects the mutation, the
   * store is loading and no error is shown; the stats arrive with the
   * refresh's own success.
   */
  lemma MutationThenRefresh(s: SongsState, success: Action, stats: StatsView)
    requires success.AddSongSuccess? || success.UpdateSongSuccess? || success.DeleteSongSuccess?
    ensures var t := ReduceAll(s, [success, FetchStats]);
      t.loading && t.error.None? && t.songs == Reduce(s, success).songs && t.stats == s.stats
    ensures var t := ReduceAll(s, [success, FetchStats, FetchStatsSuccess(stats)]);
      !t.loading && t.stats == Some(stats) && t.songs == Reduce(s, success).songs
  {
    assert [success, FetchStats][..1] == [success];
    assert [success, FetchStats, FetchStatsSuccess(stats)][..2] == [success, FetchStats];
    assert [success][..0] == [];
    assert ReduceAll(s, [success]) == Reduce(s, success);
    assert ReduceAll(s, [success, FetchStats]) == Reduce(Reduce(s, success), FetchStats);
  }
}
