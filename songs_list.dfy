/**
 * The song list (frontend/src/components/SongsList.tsx): the client-side
 * filter pipeline that narrows the loaded songs, and the guard on submitting
 * the edit dialog.
 */
module SongsList {
  import opened Wrappers
  import opened Text
  import opened Seqs
  import opened SongsApi
  import opened SongFilter
  import SongsSlice

  /*
   * Each filter field of the panel drives one stage of the pipeline; the
   * stages run in the order search, genre, artist, album.
   */

  /** A stage runs only when its filter value is truthy and non-blank after trimming. */
  predicate StageActive(f: Filters, st: FilterField) {
    !IsBlank(FilterValue(f, st))
  }

  /**
   * The search predicate: the lowercased, trimmed term occurs in the
   * lowercased title, artist, album or gener.
   */
  predicate SearchMatches(song: Song, search: string)
    ensures SearchMatches(song, search) <==>
      exists field :: Contains(Lower(FieldOf(song, field)), Trim(Lower(search)))
    ensures IsBlank(search) ==> SearchMatches(song, search)
  {
    var term := Trim(Lower(search));
    var r := Contains(Lower(song.title), term) || Contains(Lower(song.artist), term)
      || Contains(Lower(song.album), term) || Contains(Lower(song.gener), term);
    assert r <==> exists field :: Contains(Lower(FieldOf(song, field)), term) by {
      if r {
        if Contains(Lower(song.title), term) {
          assert Contains(Lower(FieldOf(song, Title)), term);
        } else if Contains(Lower(song.artist), term) {
          assert Contains(Lower(FieldOf(song, Artist)), term);
        } else if Contains(Lower(song.album), term) {
          assert Contains(Lower(FieldOf(song, Album)), term);
        } else {
          assert Contains(Lower(FieldOf(song, Gener)), term);
        }
      }
      if exists field :: Contains(Lower(FieldOf(song, field)), term) {
        var field :| Contains(Lower(FieldOf(song, field)), term);
        assert field.Title? || field.Artist? || field.Album? || field.Gener?;
      }
    }
    assert IsBlank(search) ==> r by {
      if IsBlank(search) {
        assert IsBlank(Lower(search));
        BlankIffTrimEmpty(Lower(search));
        ContainsEmpty(Lower(song.title));
      }
    }
    r
  }

  /**
   * A selector predicate: case-insensitive equality; the selector is not
   * trimmed. The two strings agree in length and letter by letter up to case.
   */
  predicate SelectorMatches(value: string, selector: string)
    ensures SelectorMatches(value, selector) <==>
      |value| == |selector| && forall i :: 0 <= i < |value| ==> LowerChar(value[i]) == LowerChar(selector[i])
  {
    assert |value| == |selector| && (forall i :: 0 <= i < |value| ==> LowerChar(value[i]) == LowerChar(selector[i]))
      ==> Lower(value) == Lower(selector);
    Lower(value) == Lower(selector)
  }

  predicate StageMatch(song: Song, f: Filters, st: FilterField) {
    match st
    case SearchFilter => SearchMatches(song, f.search)
    case GenreFilter => SelectorMatches(song.gener, f.genre)
    case ArtistFilter => SelectorMatches(song.artist, f.artist)
    case AlbumFilter => SelectorMatches(song.album, f.album)
  }

  /** A song gets past a stage if the stage is off or the song matches it. */
  predicate Passes(song: Song, f: Filters, st: FilterField) {
    !StageActive(f, st) || StageMatch(song, f, st)
  }

  /** A song is shown when it gets past every stage. */
  predicate Visible(song: Song, f: Filters) {
    Passes(song, f, SearchFilter) && Passes(song, f, GenreFilter)
    && Passes(song, f, ArtistFilter) && Passes(song, f, AlbumFilter)
  }

  /** `songs.filter(...)` with one stage's predicate. */
  function KeepMatching(songs: seq<Song>, f: Filters, st: FilterField): (r: seq<Song>)
    ensures forall x :: x in r <==> x in songs && StageMatch(x, f, st)
    ensures IsSubsequence(r, songs)
  {
    if songs == [] then []
    else
      var rest := KeepMatching(songs[1..], f, st);
      assert songs == [songs[0]] + songs[1..];
      SubsequenceCons(rest, songs[1..], songs[0]);
      if StageMatch(songs[0], f, st) then [songs[0]] + rest else rest
  }

  /** One guarded step of the pipeline: filter when the stage is active, else keep the list. */
  function ApplyStage(songs: seq<Song>, f: Filters, st: FilterField): (r: seq<Song>)
    ensures forall x :: x in r <==> x in songs && Passes(x, f, st)
    ensures IsSubsequence(r, songs)
    ensures !StageActive(f, st) ==> r == songs
  {
    if StageActive(f, st) then KeepMatching(songs, f, st)
    else
      SubsequenceRefl(songs);
      songs
  }

  /** The reference definition: keep, in order, exactly the visible songs. */
  function VisibleOnly(songs: seq<Song>, f: Filters): (r: seq<Song>)
    ensures forall x :: x in r <==> x in songs && Visible(x, f)
    ensures IsSubsequence(r, songs)
  {
    if songs == [] then []
    else
      var rest := VisibleOnly(songs[1..], f);
      assert songs == [songs[0]] + songs[1..];
      SubsequenceCons(rest, songs[1..], songs[0]);
      if Visible(songs[0], f) then [songs[0]] + rest else rest
  }

  /**
   * `handleFilterChange`: start from a copy of the songs and rebind
   * `filtered` through search, genre, artist and album stages. The result
   * is exactly the visible songs, in their original order.
   */
  method HandleFilterChange(songs: seq<Song>, f: Filters) returns (filtered: seq<Song>)
    ensures filtered == VisibleOnly(songs, f)
    ensures forall x :: x in filtered <==> x in songs && Visible(x, f)
    ensures IsSubsequence(filtered, songs)
  {
    filtered := songs;
    if StageActive(f, SearchFilter) {
      filtered := KeepMatching(filtered, f, SearchFilter);
    }
    assert filtered == ApplyStage(songs, f, SearchFilter);
    ghost var afterSearch := filtered;
    if StageActive(f, GenreFilter) {
      filtered := KeepMatching(filtered, f, GenreFilter);
    }
    assert filtered == ApplyStage(afterSearch, f, GenreFilter);
    ghost var afterGenre := filtered;
    if StageActive(f, ArtistFilter) {
      filtered := KeepMatching(filtered, f, ArtistFilter);
    }
    assert filtered == ApplyStage(afterGenre, f, ArtistFilter);
    ghost var afterArtist := filtered;
    if StageActive(f, AlbumFilter) {
      filtered := KeepMatching(filtered, f, AlbumFilter);
    }
    assert filtered == ApplyStage(afterArtist, f, AlbumFilter);
    StagesCompose(songs, f);
  }

  /** The four stages applied in the source's order. */
  function Pipeline(songs: seq<Song>, f: Filters): seq<Song> {
    ApplyStage(ApplyStage(ApplyStage(ApplyStage(songs, f, SearchFilter), f, GenreFilter), f, ArtistFilter), f, AlbumFilter)
  }

  /** A stage on a list with a known head. */
  lemma ApplyStageCons(h: Song, t: seq<Song>, f: Filters, st: FilterField)
    ensures ApplyStage([h] + t, f, st) == (if Passes(h, f, st) then [h] else []) + ApplyStage(t, f, st)
  {
    assert ([h] + t)[0] == h && ([h] + t)[1..] == t;
  }

  /** Running the stages one after another keeps exactly the visible songs, in order. */
  lemma {:induction false} StagesCompose(songs: seq<Song>, f: Filters)
    ensures Pipeline(songs, f) == VisibleOnly(songs, f)
  {
    if songs != [] {
      var h, t := songs[0], songs[1..];
      assert songs == [h] + t;
      StagesCompose(t, f);
      var s1 := ApplyStage(t, f, SearchFilter);
      var s2 := ApplyStage(s1, f, GenreFilter);
      var s3 := ApplyStage(s2, f, ArtistFilter);
      ApplyStageCons(h, t, f, SearchFilter);
      if Passes(h, f, SearchFilter) {
        ApplyStageCons(h, s1, f, GenreFilter);
        if Passes(h, f, GenreFilter) {
          ApplyStageCons(h, s2, f, ArtistFilter);
          if Passes(h, f, ArtistFilter) {
            ApplyStageCons(h, s3, f, AlbumFilter);
          }
        }
      }
    }
  }

  /** Any two stages commute, so the order in which filters are applied does not matter. */
  lemma {:induction false} StagesCommute(songs: seq<Song>, f: Filters, a: FilterField, b: FilterField)
    ensures ApplyStage(ApplyStage(songs, f, a), f, b) == ApplyStage(ApplyStage(songs, f, b), f, a)
  {
    if songs != [] {
      var h, t := songs[0], songs[1..];
      assert songs == [h] + t;
      StagesCommute(t, f, a, b);
      ApplyStageCons(h, t, f, a);
      ApplyStageCons(h, t, f, b);
      if Passes(h, f, a) {
        ApplyStageCons(h, ApplyStage(t, f, a), f, b);
      }
      if Passes(h, f, b) {
        ApplyStageCons(h, ApplyStage(t, f, b), f, a);
      }
    }
  }

  /** With every filter blank, nothing is filtered out. */
  lemma {:induction false} BlankFiltersKeepAll(songs: seq<Song>, f: Filters)
    requires IsBlank(f.genre) && IsBlank(f.artist) && IsBlank(f.album) && IsBlank(f.search)
    ensures VisibleOnly(songs, f) == songs
  {
    if songs != [] {
      BlankFiltersKeepAll(songs[1..], f);
      assert songs == [songs[0]] + songs[1..];
    }
  }

  /** Two songs, A by X (Rock) and B by Y (Jazz). */
  const SongA: Song := Song(None, "A", "X", "", "Rock")
  const SongB: Song := Song(None, "B", "Y", "", "Jazz")

  /** Case-insensitive equality fails as soon as the first letters differ. */
  lemma SelectorDiffersAtHead(value: string, selector: string)
    requires value != [] && selector != [] && LowerChar(value[0]) != LowerChar(selector[0])
    ensures !SelectorMatches(value, selector)
  {
    assert Lower(value)[0] != Lower(selector)[0];
  }

  /** Only the genre selector set: a song is shown iff its gener matches it. */
  lemma GenreOnly(song: Song, f: Filters)
    requires IsBlank(f.search) && IsBlank(f.artist) && IsBlank(f.album) && !IsBlank(f.genre)
    ensures Visible(song, f) <==> SelectorMatches(song.gener, f.genre)
  {
  }

  /** Only the search set: a song is shown iff it matches the search. */
  lemma SearchOnly(song: Song, f: Filters)
    requires IsBlank(f.genre) && IsBlank(f.artist) && IsBlank(f.album) && !IsBlank(f.search)
    ensures Visible(song, f) <==> SearchMatches(song, f.search)
  {
  }

  /** A song that fails an active stage is hidden. */
  lemma FailsStage(song: Song, f: Filters, st: FilterField)
    requires StageActive(f, st) && !StageMatch(song, f, st)
    ensures !Visible(song, f)
  {
  }

  lemma NotBlankAt(s: string, i: int)
    requires 0 <= i < |s| && !IsSpace(s[i])
    ensures !IsBlank(s)
  {
  }

  /** The term "b" is its own trimmed lower-case form. */
  lemma TermB()
    ensures Trim(Lower("b")) == "b"
  {
    var lowered := Lower("b");
    assert lowered == "b" by {
      assert |lowered| == 1 && lowered[0] == LowerChar('b');
    }
    TrimOfUnpadded("b");
  }

  /** A field none of whose characters lowercases to `c` does not contain `[c]` once lowercased. */
  lemma FieldLacksChar(value: string, c: char)
    requires forall i :: 0 <= i < |value| ==> LowerChar(value[i]) != c
    ensures !Contains(Lower(value), [c])
  {
    ContainsChar(Lower(value), c);
  }

  lemma SearchBMissesA()
    ensures !SearchMatches(SongA, "b")
  {
    FieldLacksChar(SongA.title, 'b');
    FieldLacksChar(SongA.artist, 'b');
    FieldLacksChar(SongA.album, 'b');
    FieldLacksChar(SongA.gener, 'b');
    TermB();
  }

  /** A field holding `c` contains `[c]` once both are lowercased. */
  lemma FieldHasChar(value: string, i: int, c: char)
    requires 0 <= i < |value| && LowerChar(value[i]) == c
    ensures Contains(Lower(value), [c])
  {
    ContainsChar(Lower(value), c);
    assert Lower(value)[i] == c;
  }

  lemma SearchBHitsB()
    ensures SearchMatches(SongB, "b")
  {
    FieldHasChar(SongB.title, 0, 'b');
    TermB();
  }

  /** Visibility of two songs is decided song by song. */
  lemma PairVisible(a: Song, b: Song, f: Filters)
    ensures VisibleOnly([a, b], f)
         == (if Visible(a, f) then [a] else []) + (if Visible(b, f) then [b] else [])
  {
    assert [a, b][1..] == [b];
    assert [b][1..] == [];
  }

  /** Only the genre selector is set. */
  predicate OnlyGenreSet(f: Filters) {
    IsBlank(f.search) && IsBlank(f.artist) && IsBlank(f.album) && !IsBlank(f.genre)
  }

  /** Only the search is set. */
  predicate OnlySearchSet(f: Filters) {
    IsBlank(f.genre) && IsBlank(f.artist) && IsBlank(f.album) && !IsBlank(f.search)
  }

  /** With only the genre set, of two songs the one whose gener matches is kept. */
  lemma GenreKeepsFirst(a: Song, b: Song, f: Filters)
    requires OnlyGenreSet(f) && SelectorMatches(a.gener, f.genre) && !SelectorMatches(b.gener, f.genre)
    ensures VisibleOnly([a, b], f) == [a]
  {
    GenreOnly(a, f);
    GenreOnly(b, f);
    PairVisible(a, b, f);
  }

  /** With only the search set, of two songs the one matching the search is kept. */
  lemma SearchKeepsSecond(a: Song, b: Song, f: Filters)
    requires OnlySearchSet(f) && !SearchMatches(a, f.search) && SearchMatches(b, f.search)
    ensures VisibleOnly([a, b], f) == [b]
  {
    SearchOnly(a, f);
    SearchOnly(b, f);
    PairVisible(a, b, f);
  }

  lemma RockFilterShape()
    ensures OnlyGenreSet(Filters("Rock", "", "", ""))
  {
    NotBlankAt("Rock", 0);
  }

  lemma SearchBFilterShape()
    ensures OnlySearchSet(Filters("", "", "", "b"))
  {
    NotBlankAt("b", 0);
  }

  /** The genre selector "Rock" keeps only the first song. */
  lemma GenreRockExample()
    ensures VisibleOnly([SongA, SongB], Filters("Rock", "", "", "")) == [SongA]
  {
    RockFilterShape();
    SelectorDiffersAtHead(SongB.gener, "Rock");
    GenreKeepsFirst(SongA, SongB, Filters("Rock", "", "", ""));
  }

  /** The search "b", case-insensitive, keeps only the second song. */
  lemma SearchBExample()
    ensures VisibleOnly([SongA, SongB], Filters("", "", "", "b")) == [SongB]
  {
    SearchBFilterShape();
    SearchBMissesA();
    SearchBHitsB();
    SearchKeepsSecond(SongA, SongB, Filters("", "", "", "b"));
  }

  /** Both together keep nothing. */
  lemma GenreAndSearchExample()
    ensures VisibleOnly([SongA, SongB], Filters("Rock", "", "", "b")) == []
  {
    var f := Filters("Rock", "", "", "b");
    NotBlankAt("Rock", 0);
    NotBlankAt("b", 0);
    SearchBMissesA();
    SelectorDiffersAtHead(SongB.gener, "Rock");
    assert !Visible(SongA, f) by {
      FailsStage(SongA, f, SearchFilter);
    }
    assert !Visible(SongB, f) by {
      FailsStage(SongB, f, GenreFilter);
    }
    PairVisible(SongA, SongB, f);
  }

  /** The state behind the edit dialog. */
  datatype EditDialog = EditDialog(open: bool, song: Option<Song>)

  const ClosedDialog: EditDialog := EditDialog(false, None)

  datatype EditResult = EditResult(dispatched: seq<SongsSlice.Action>, dialog: EditDialog)

  /** The edited song has a truthy `_id`. */
  predicate HasSavedId(dialog: EditDialog) {
    dialog.song.Some? && dialog.song.value.id.Some? && dialog.song.value.id.value != ""
  }

  /**
   * `handleEditSubmit`: when the edited song has an `_id` and the form's
   * title and artist are non-empty, dispatch one `updateSong` for that id
   * with the form's data and close the dialog; otherwise do nothing.
   */
  function EditSubmit(dialog: EditDialog, form: Song): (r: EditResult)
    ensures r.dispatched != [] <==> HasSavedId(dialog) && form.title != "" && form.artist != ""
    ensures r.dispatched != [] ==>
      r.dispatched == [SongsSlice.UpdateSong(dialog.song.value.id.value, form)] && r.dialog == ClosedDialog
    ensures r.dispatched == [] ==> r.dialog == dialog
  {
    if HasSavedId(dialog) && form.title != "" && form.artist != "" then
      EditResult([SongsSlice.UpdateSong(dialog.song.value.id.value, form)], ClosedDialog)
    else
      EditResult([], dialog)
  }
}
