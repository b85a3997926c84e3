/**
 * The filter panel (frontend/src/components/SongFilter.tsx): the four filter
 * fields, their updates, the number of active filters, and the sorted lists
 * of distinct geners, artists and albums offered in the selectors.
 */
module SongFilter {
  import opened Text
  import opened SongsApi

  datatype Filters = Filters(genre: string, artist: string, album: string, search: string)

  datatype FilterField = GenreFilter | ArtistFilter | AlbumFilter | SearchFilter

  function FilterValue(f: Filters, field: FilterField): string {
    match field
    case GenreFilter => f.genre
    case ArtistFilter => f.artist
    case AlbumFilter => f.album
    case SearchFilter => f.search
  }

  /** The state the panel starts in: every field "". */
  const InitialFilters: Filters := Filters("", "", "", "")

  /** `setFilters(prev => ({ ...prev, [field]: value }))`: only `field` changes. */
  function HandleFilterChange(f: Filters, field: FilterField, value: string): (r: Filters)
    ensures FilterValue(r, field) == value
    ensures forall other :: other != field ==> FilterValue(r, other) == FilterValue(f, other)
  {
    match field
    case GenreFilter => f.(genre := value)
    case ArtistFilter => f.(artist := value)
    case AlbumFilter => f.(album := value)
    case SearchFilter => f.(search := value)
  }

  /** `clearFilters`: every field back to "", which is the initial state. */
  function ClearFilters(): (r: Filters)
    ensures forall field :: FilterValue(r, field) == ""
    ensures r == InitialFilters
  {
    Filters("", "", "", "")
  }

  /** 1 for a field that counts as an active filter (non-blank after trimming), 0 otherwise. */
  function Active(v: string): (n: nat)
    ensures n <= 1
    ensures n == 0 <==> IsBlank(v)
  {
    if IsBlank(v) then 0 else 1
  }

  /**
   * `activeFiltersCount`: `Object.values(filters).filter(v => v && v.trim())`
   * counted over the four fields; 0 exactly when all are blank, 4 exactly
   * when none is.
   */
  function ActiveFiltersCount(f: Filters): (n: nat)
    ensures n <= 4
    ensures n == 0 <==> IsBlank(f.genre) && IsBlank(f.artist) && IsBlank(f.album) && IsBlank(f.search)
    ensures n == 4 <==> !IsBlank(f.genre) && !IsBlank(f.artist) && !IsBlank(f.album) && !IsBlank(f.search)
  {
    Active(f.genre) + Active(f.artist) + Active(f.album) + Active(f.search)
  }

  /** After clearing, no filter is active. */
  lemma ClearedHasNoActiveFilter()
    ensures ActiveFiltersCount(ClearFilters()) == 0
  {
    assert IsBlank("");
  }

  /** Changing one field moves the count by the change in that field's activity alone. */
  lemma ChangeAdjustsCount(f: Filters, field: FilterField, value: string)
    ensures ActiveFiltersCount(HandleFilterChange(f, field, value))
         == ActiveFiltersCount(f) - Active(FilterValue(f, field)) + Active(value)
  {
  }

  /** Some song has `v` in `field`. */
  predicate Occurs(songs: seq<Song>, field: SongField, v: string) {
    exists i :: 0 <= i < |songs| && FieldOf(songs[i], field) == v
  }

  /**
   * `[...new Set(songs.map(song => song[field]).filter(Boolean))].sort()`:
   * sorted, free of duplicates and of "", and holding exactly the non-empty
   * values the field takes in some song.
   */
  function UniqueValues(songs: seq<Song>, field: SongField): (r: seq<string>)
    ensures StrictlySorted(r)
    ensures forall v :: v in r <==> v != "" && Occurs(songs, field, v)
  {
    if songs == [] then []
    else
      var init := songs[..|songs| - 1];
      var prev := UniqueValues(init, field);
      var v := FieldOf(songs[|songs| - 1], field);
      assert forall w :: Occurs(songs, field, w) <==> Occurs(init, field, w) || w == v by {
        forall w ensures Occurs(songs, field, w) <==> Occurs(init, field, w) || w == v {
          if Occurs(init, field, w) {
            var i :| 0 <= i < |init| && FieldOf(init[i], field) == w;
            assert songs[i] == init[i];
          }
          if Occurs(songs, field, w) && w != v {
            var i :| 0 <= i < |songs| && FieldOf(songs[i], field) == w;
            assert i < |init| && init[i] == songs[i];
          }
          if w == v {
            assert FieldOf(songs[|songs| - 1], field) == w;
          }
        }
      }
      if v == "" then prev else InsertSorted(prev, v)
  }

  /**
   * Any sorted, duplicate-free list of the non-empty values is the unique list:
   * the result does not depend on how the set is built or sorted.
   */
  lemma UniqueValuesDetermined(songs: seq<Song>, field: SongField, other: seq<string>)
    requires StrictlySorted(other)
    requires forall v :: v in other <==> v != "" && Occurs(songs, field, v)
    ensures other == UniqueValues(songs, field)
  {
    SortedSetIsUnique(other, UniqueValues(songs, field));
  }
}
