/**
 * The client state store (frontend/src/songs/songsSlice.ts): the songs, the
 * last statistics, a loading flag and the last error, changed only by the
 * eleven reducers. `Reduce` is the reducer as a function of the state and an
 * action; the class `SongsStore` holds the state and has one method per reducer.
 */
module SongsSlice {
  import opened Wrappers
  import opened Seqs
  import opened SongsApi

  /** The slice's action creators, with their payloads. */
  datatype Action =
    | FetchSongs
    | FetchStats
    | AddSong(song: Song)
    | UpdateSong(id: string, song: Song)
    | DeleteSong(id: string)
    | FetchSongsSuccess(songs: seq<Song>)
    | FetchStatsSuccess(stats: StatsView)
    | AddSongSuccess(song: Song)
    | UpdateSongSuccess(song: Song)
    | DeleteSongSuccess(id: string)
    | RequestFailure(message: string)

  /** The five actions the sagas listen for; each starts a request. */
  predicate IsRequestTrigger(a: Action) {
    a.FetchSongs? || a.FetchStats? || a.AddSong? || a.UpdateSong? || a.DeleteSong?
  }

  datatype SongsState = SongsState(songs: seq<Song>, stats: Option<StatsView>, loading: bool, error: Option<string>)

  const InitialState: SongsState := SongsState([], None, false, None)

  /**
   * `songs.map(s => s._id === payload._id ? payload : s)`: same length and
   * order, exactly the songs sharing the payload's id replaced by it.
   */
  function ReplaceById(songs: seq<Song>, payload: Song): (r: seq<Song>)
    ensures |r| == |songs|
    ensures forall i :: 0 <= i < |songs| ==> r[i] == (if songs[i].id == payload.id then payload else songs[i])
  {
    if songs == [] then []
    else [if songs[0].id == payload.id then payload else songs[0]] + ReplaceById(songs[1..], payload)
  }

  /** `songs.filter(s => s._id !== id)`: no survivor has the id, and the list never grows. */
  function RemoveById(songs: seq<Song>, id: string): (r: seq<Song>)
    ensures |r| <= |songs|
    ensures forall i :: 0 <= i < |r| ==> r[i].id != Some(id)
  {
    if songs == [] then []
    else (if songs[0].id == Some(id) then [] else [songs[0]]) + RemoveById(songs[1..], id)
  }

  /** When no song has the payload's id, updating leaves the list as it was. */
  lemma ReplaceByIdNoMatch(songs: seq<Song>, payload: Song)
    requires forall i :: 0 <= i < |songs| ==> songs[i].id != payload.id
    ensures ReplaceById(songs, payload) == songs
  {
  }

  /**
   * After removing `id` no song has it, every other song stays, and what stays
   * is in its original relative order.
   */
  lemma {:induction false} RemoveByIdSpec(songs: seq<Song>, id: string)
    ensures forall s :: s in RemoveById(songs, id) <==> s in songs && s.id != Some(id)
    ensures IsSubsequence(RemoveById(songs, id), songs)
  {
    if songs != [] {
      RemoveByIdSpec(songs[1..], id);
      var tail := RemoveById(songs[1..], id);
      SubsequenceCons(tail, songs[1..], songs[0]);
      assert [songs[0]] + songs[1..] == songs;
      assert forall s :: s in songs <==> s == songs[0] || s in songs[1..];
      if songs[0].id == Some(id) {
        assert RemoveById(songs, id) == tail;
      } else {
        assert RemoveById(songs, id) == [songs[0]] + tail;
      }
    }
  }

  /** Removing an id twice is removing it once. */
  lemma {:induction false} RemoveByIdIdempotent(songs: seq<Song>, id: string)
    ensures RemoveById(RemoveById(songs, id), id) == RemoveById(songs, id)
  {
    if songs != [] {
      RemoveByIdIdempotent(songs[1..], id);
      var tail := RemoveById(songs[1..], id);
      if songs[0].id != Some(id) {
        assert RemoveById(songs, id) == [songs[0]] + tail;
        assert ([songs[0]] + tail)[1..] == tail;
      } else {
        assert RemoveById(songs, id) == tail;
      }
    }
  }

  /**
   * The reducer: the state after one action. Loading is set exactly by the
   * request triggers; the error is cleared by a trigger, set by a failure and
   * otherwise kept; only the four list successes touch the songs and only the
   * stats success touches the stats.
   */
  function Reduce(s: SongsState, a: Action): (r: SongsState)
    ensures r.loading <==> IsRequestTrigger(a)
    ensures r.error == (if IsRequestTrigger(a) then None else if a.RequestFailure? then Some(a.message) else s.error)
    ensures !(a.FetchSongsSuccess? || a.AddSongSuccess? || a.UpdateSongSuccess? || a.DeleteSongSuccess?) ==>
      r.songs == s.songs
    ensures r.stats == (if a.FetchStatsSuccess? then Some(a.stats) else s.stats)
  {
    match a
    case FetchSongs => s.(loading := true, error := None)
    case FetchStats => s.(loading := true, error := None)
    case AddSong(_) => s.(loading := true, error := None)
    case UpdateSong(_, _) => s.(loading := true, error := None)
    case DeleteSong(_) => s.(loading := true, error := None)
    case FetchSongsSuccess(songs) => s.(songs := songs, loading := false)
    case FetchStatsSuccess(stats) => s.(stats := Some(stats), loading := false)
    case AddSongSuccess(song) => s.(songs := s.songs + [song], loading := false)
    case UpdateSongSuccess(song) => s.(songs := ReplaceById(s.songs, song), loading := false)
    case DeleteSongSuccess(id) => s.(songs := RemoveById(s.songs, id), loading := false)
    case RequestFailure(message) => s.(loading := false, error := Some(message))
  }

  /** The state after a sequence of actions, dispatched in order. */
  function ReduceAll(s: SongsState, actions: seq<Action>): SongsState
    decreases |actions|
  {
    if actions == [] then s
    else Reduce(ReduceAll(s, actions[..|actions| - 1]), actions[|actions| - 1])
  }

  lemma ReduceAllSnoc(s: SongsState, actions: seq<Action>, a: Action)
    ensures ReduceAll(s, actions + [a]) == Reduce(ReduceAll(s, actions), a)
  {
    assert (actions + [a])[..|actions|] == actions;
  }

  /** Every request trigger sets `loading`, clears `error`, and leaves songs and stats alone. */
  lemma RequestTriggerSetsLoading(s: SongsState, a: Action)
    requires IsRequestTrigger(a)
    ensures Reduce(s, a) == s.(loading := true, error := None)
  {
  }

  class SongsStore {
    var songs: seq<Song>
    var stats: Option<StatsView>
    var loading: bool
    var error: Option<string>

    function State(): SongsState
      reads this
    {
      SongsState(songs, stats, loading, error)
    }

    /** `initialState`: no songs, no stats, not loading, no error. */
    constructor ()
      ensures State() == InitialState
      ensures songs == [] && stats.None? && !loading && error.None?
    {
      songs, stats, loading, error := [], None, false, None;
    }

    /** `fetchSongs`: a request trigger; the saga listens for it. */
    method FetchSongs()
      modifies this
      ensures loading && error.None?
      ensures songs == old(songs) && stats == old(stats)
    {
      loading := true;
      error := None;
    }

    /** `fetchStats`: a request trigger. */
    method FetchStats()
      modifies this
      ensures loading && error.None?
      ensures songs == old(songs) && stats == old(stats)
    {
      loading := true;
      error := None;
    }

    /** `addSong`: a request trigger; the payload is for the saga only. */
    method AddSong(payload: Song)
      modifies this
      ensures loading && error.None?
      ensures songs == old(songs) && stats == old(stats)
    {
      loading := true;
      error := None;
    }

    /** `updateSong`: a request trigger; the payload is for the saga only. */
    method UpdateSong(id: string, song: Song)
      modifies this
      ensures loading && error.None?
      ensures songs == old(songs) && stats == old(stats)
    {
      loading := true;
      error := None;
    }

    /** `deleteSong`: a request trigger; the payload is for the saga only. */
    method DeleteSong(id: string)
      modifies this
      ensures loading && error.None?
      ensures songs == old(songs) && stats == old(stats)
    {
      loading := true;
      error := None;
    }

    method FetchSongsSuccess(payload: seq<Song>)
      modifies this
      ensures songs == payload && !loading
      ensures stats == old(stats) && error == old(error)
    {
      songs := payload;
      loading := false;
    }

    method FetchStatsSuccess(payload: StatsView)
      modifies this
      ensures stats == Some(payload) && !loading
      ensures songs == old(songs) && error == old(error)
    {
      stats := Some(payload);
      loading := false;
    }

    /** `state.songs.push(payload)`: one more song at the end, every earlier one unchanged. */
    method AddSongSuccess(payload: Song)
      modifies this
      ensures |songs| == |old(songs)| + 1 && songs[|songs| - 1] == payload
      ensures forall i :: 0 <= i < |old(songs)| ==> songs[i] == old(songs)[i]
      ensures !loading && stats == old(stats) && error == old(error)
    {
      songs := songs + [payload];
      loading := false;
    }

    method UpdateSongSuccess(payload: Song)
      modifies this
      ensures songs == ReplaceById(old(songs), payload) && !loading
      ensures stats == old(stats) && error == old(error)
    {
      songs := ReplaceById(songs, payload);
      loading := false;
    }

    method DeleteSongSuccess(id: string)
      modifies this
      ensures songs == RemoveById(old(songs), id) && !loading
      ensures forall s :: s in songs <==> s in old(songs) && s.id != Some(id)
      ensures IsSubsequence(songs, old(songs))
      ensures stats == old(stats) && error == old(error)
    {
      RemoveByIdSpec(songs, id);
      songs := RemoveById(songs, id);
      loading := false;
    }

    method RequestFailure(message: string)
      modifies this
      ensures !loading && error == Some(message)
      ensures songs == old(songs) && stats == old(stats)
    {
      loading := false;
      error := Some(message);
    }

    /** Dispatching an action runs its reducer. */
    method Dispatch(a: Action)
      modifies this
      ensures State() == Reduce(old(State()), a)
    {
      match a
      case FetchSongs => this.FetchSongs();
      case FetchStats => this.FetchStats();
      case AddSong(song) => this.AddSong(song);
      case UpdateSong(id, song) => this.UpdateSong(id, song);
      case DeleteSong(id) => this.DeleteSong(id);
      case FetchSongsSuccess(payload) => this.FetchSongsSuccess(payload);
      case FetchStatsSuccess(payload) => this.FetchStatsSuccess(payload);
      case AddSongSuccess(payload) => this.AddSongSuccess(payload);
      case UpdateSongSuccess(payload) => this.UpdateSongSuccess(payload);
      case DeleteSongSuccess(id) => this.DeleteSongSuccess(id);
      case RequestFailure(message) => this.RequestFailure(message);
    }
  }
}
