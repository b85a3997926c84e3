# Song catalog — a verified model

This project models the core of a small music-catalog application. The backend is an Express/Mongoose REST API over a `songs` collection. The frontend is a React + Redux Toolkit + redux-saga client that lists, searches, filters, creates, edits and deletes songs and shows aggregate statistics.

The model covers these parts:

- **Record schema** (`SongSchema`). `title` and `artist` are required, `album` and `gener` (the genre field, spelled this way throughout the code) are optional, and all four are trimmed. Each document carries `createdAt`/`updatedAt`.
- **Record collection** (`SongStore.SongCollection`). A class holding the documents as a map from id to record, plus a listing order, which the model fixes to be insertion order. It provides `find`, `countDocuments`, `distinct`, `$group` counting, `save`, `findByIdAndUpdate` and `findByIdAndDelete`. Every operation takes an optional store fault. `Aggregation` holds the counting and grouping functions.
- **Catalog controller** (`SongController`). The five handlers `getSongs`, `createSong`, `updateSong`, `deleteSong` and `getStats`, each choosing its HTTP status from the store's outcome.
- **Client state store** (`SongsSlice`). A class with one method per reducer. A pure `Reduce` function over the same state specifies that class's `Dispatch`.
- **Intent handlers** (`SongsSaga.Saga`). Each worker saga puts its actions into the store and keeps a log of them. The HTTP outcome is a parameter.
- **Filtering** (`SongFilter`, `SongsList`):
  - the filter-bar state: changing one field, clearing, counting active filters, and the sorted unique-value lists;
  - the list's stage-by-stage filter method, proved equal to a declarative "visible iff every active predicate holds" definition;
  - the edit-dialog submit guard.
- **Song form** (`SongForm.SongFormState`). Field changes, and the submit guard that dispatches and then resets.

Helper modules:

- `Text` models the JavaScript string operations used: ASCII `toLowerCase`, `trim`, `includes`, and the default `sort` order.
- `Seqs` holds subsequences and duplicate-free sequences.
- `Wrappers` holds `Option`.

### Behaviour worth noting

- **`createSong`'s explicit check.** It is `!artist && !title` (backend/controllers/songController.js:14-16), so it answers with its own 400 message only when BOTH fields are falsy. A body missing just one of them gets past the check. Schema validation in `save()` then rejects it, and the catch turns that into a 400 carrying the validation message. The status is 400 either way; `SongController.CreateSong` states both paths.
- **`updateSong` does not validate.** It passes no `runValidators` option, so the trim setters run but the `required` validators do not. An update can blank a required field. `SongSchema.Merge` trims each supplied field and checks nothing.

## Model

| member | source | states |
|---|---|---|
| Text.BlankIffTrimEmpty | frontend/src/components/SongFilter.tsx:78 | A value is blank (`!(v && v.trim())`) exactly when trimming leaves the empty string. |
| Text.TrimIdempotent | backend/models/song.js:8 | Trimming an already-trimmed value changes nothing, so stored fields stay stable under re-saving. |
| Text.ContainsWithin | backend/controllers/songController.js:21-24 | A needle found in one part of a concatenation is found in the whole. |
| Text.ContainsChar | frontend/src/components/SongsList.tsx:100-103 | A one-character search term is found exactly when that character occurs in the field. |
| Text.InsertSorted | frontend/src/components/SongFilter.tsx:41 | Inserting into a strictly sorted list keeps it strictly sorted, and its elements are the old ones plus the new value, without a duplicate. |
| Text.SortedSetIsUnique | frontend/src/components/SongFilter.tsx:41 | Two strictly sorted lists with the same elements are equal, so set-then-sort has only one possible outcome. |
| Seqs.Without | backend/controllers/songController.js:46 | Removing an id from the order keeps every other element in order and keeps the sequence duplicate-free. |
| SongSchema.TrimField | backend/models/song.js:8-21 | The `trim: true` setter: a present value stays present and becomes its own middle part, with only whitespace removed before and after and none left at either end; an absent one stays absent. |
| Text.TrimKeepsMiddle | backend/models/song.js:8-21 | `String.prototype.trim` removes only surrounding whitespace: its result is a contiguous part of the input with only whitespace before and after it. |
| Text.StripsToIsTrim | backend/models/song.js:8-21 | Conversely, any part of the input with only whitespace around it and none at its own ends is exactly the trim, so the `TrimField` and `Normalise` contracts determine their results. |
| SongSchema.Normalise | backend/models/song.js:5-22 | Casting a body: exactly the fields present in the body are present in the document, and each is that field's value with its surrounding whitespace removed, with none left at either end. |
| SongSchema.Validate | backend/models/song.js:5-22 | Rejected iff title or artist is absent or blank after trimming. Each missing field contributes exactly its own message ("Song title is required", "Artist is required"). An accepted document holds the trimmed values, with non-empty title and artist. |
| SongSchema.AcceptedIsTrimmed | backend/models/song.js:5-22 | Every string field of a validated document is already trimmed. |
| SongSchema.TitleAndArtistSuffice | backend/models/song.js:15-22 | Album and gener are optional: a body with only a non-blank title and artist is accepted. |
| SongSchema.NewRecord | backend/models/song.js:24 | A new document keeps the validated fields under the fresh id, with `createdAt == updatedAt == now`. |
| SongSchema.Merge | backend/controllers/songController.js:30-32 | Each field present in the update body replaces the stored one, trimmed. Absent fields, the id and `createdAt` are kept, and `updatedAt` becomes the update time. |
| SongSchema.AlbumOnlyUpdate | backend/controllers/songController.js:30-32 | An update holding only `album` changes the album and the update time and nothing else. |
| Aggregation.CountKey | backend/controllers/songController.js:65 | The number of records with a given group key never exceeds the number of records. |
| Aggregation.Bump | backend/controllers/songController.js:65 | Counting one more record adds exactly one to its key's group, creating the group if needed. Keys stay distinct, counts stay positive, and the total grows by one. |
| Aggregation.GroupBy | backend/controllers/songController.js:64-74 | `$group` with `$sum: 1`: keys are distinct, each group's count is the number of records holding that key, a key appears iff some record holds it, and the counts sum to the number of records. |
| Aggregation.DistinctAtMostCount | backend/controllers/songController.js:60-62 | A field never has more distinct values than there are records. |
| SongStore.LookupFacts | backend/controllers/songController.js:4 | Listing the collection in the model's order yields one record per document, each under its own id. |
| SongStore.SongCollection.constructor | backend/models/song.js:1-27 | A new collection is empty. |
| SongStore.SongCollection.Records | backend/controllers/songController.js:4 | The listed records are exactly the stored documents: one per id, none repeated, none missing. |
| SongStore.SongCollection.Find | backend/controllers/songController.js:4 | `find()`: every record, one per document, listed in the model's order (insertion order), or the store's error. |
| SongStore.SongCollection.CountDocuments | backend/controllers/songController.js:59 | `countDocuments()` equals the collection size and the length of `find()`'s result. |
| SongStore.SongCollection.DistinctOf | backend/controllers/songController.js:60-62 | `distinct(field)` is the set of present values of that field, no larger than the collection. |
| SongStore.SongCollection.GroupCount | backend/controllers/songController.js:64-74 | `$group` over the field is `GroupBy` of the records, and its counts sum to the collection size. |
| SongStore.SongCollection.Save | backend/controllers/songController.js:17-18 | A body failing validation raises the validation error and stores nothing. A store fault raises and stores nothing. Otherwise exactly the new record is added, under the fresh id, at the end of the order. |
| SongStore.SongCollection.FindByIdAndUpdate | backend/controllers/songController.js:30-32 | Unknown id: nothing returned and nothing changed. Known id: that document becomes the merged record, which is returned; all other documents are unchanged. |
| SongStore.SongCollection.FindByIdAndDelete | backend/controllers/songController.js:46 | Unknown id: nothing returned and nothing changed. Known id: exactly that document is removed and returned. |
| SongController.JoinErrors | backend/controllers/songController.js:21-24 | The text of a validation failure names every failed validator's message. |
| SongController.ErrorMessage | backend/controllers/songController.js:21-24 | `error.message`: a storage failure's own message, or for a validation failure a text containing every failed validator's message. |
| SongController.RejectionNamesMissingField | backend/models/song.js:5-14 | A body that gets past the explicit both-falsy check and then fails validation is answered with a message containing "Song title is required" when it lacks a title after trimming, and "Artist is required" when it lacks an artist. A body whose title and artist are both falsy never reaches validation; it gets "title and artist are required" (see `CreateSong`). |
| SongController.GetSongs | backend/controllers/songController.js:2-10 | 200 with every stored record (as many as the collection holds), or 500 with the store's message. |
| SongController.CreateSong | backend/controllers/songController.js:11-26 | 201 iff title and artist are both non-blank after trimming and the store does not fail. Then the response is the new record and the collection grows by exactly that record. If both fields are falsy, the explicit check answers 400 with its own message. Otherwise a validation failure answers 400 with the validation error's message, and a store fault answers 400 with the fault's message. Every 400 leaves the collection and its order unchanged. |
| SongController.UpdateSong | backend/controllers/songController.js:27-42 | Unknown id: 404 with the collection unchanged. Known id: 200 with the merged record, and only that record changes. A store failure is 400. |
| SongController.DeleteSong | backend/controllers/songController.js:43-56 | Known id: 200 with the confirmation; exactly that record is removed, from the documents and from the listing order, which otherwise keeps its order. Unknown id: 404 with the documents and the order unchanged. A store failure is 500 with its message and changes nothing. Afterwards the id is absent unless the store failed. |
| SongController.FirstFault | backend/controllers/songController.js:57-88 | The first failing store call in the sequence, or none iff every call succeeds. |
| SongController.FirstFaultIs | backend/controllers/songController.js:85-87 | If call `k` is the first to fail, its error is the one reported. |
| SongController.StatsOf | backend/controllers/songController.js:59-84 | `totalSongs` is the number of records. Each grouping's counts equal the per-key record counts and sum to `totalSongs`. The three distinct totals are sizes of the distinct-value sets, each at most `totalSongs`. |
| SongController.GetStats | backend/controllers/songController.js:57-88 | 500 with the first failing aggregation's message, otherwise 200 with exactly `StatsOf` of the stored records. |
| SongController.DeleteTwice | backend/controllers/songController.js:46-52 | Deleting a stored id answers 200; deleting it again answers 404; only that id is gone, from the documents and from the listing order. |
| SongController.CreateThenCount | backend/controllers/songController.js:17-59 | After a successful create, `getStats().totalSongs` is the previous size plus one. |
| SongsApi.WithField | frontend/src/components/SongForm.tsx:58-63 | The spread `{...song, [field]: value}`: the named field holds the new value, the other fields and the id are unchanged. |
| SongsSlice.Reduce | frontend/src/songs/songsSlice.ts:22-74 | Loading is set exactly by the five request triggers. The error is cleared by a trigger, set to the message by a failure, and otherwise kept. Only the four list successes change the songs. Only the stats success changes the stats, to its payload. |
| SongsSlice.RemoveById | frontend/src/songs/songsSlice.ts:64-67 | No song left has the id, and the list never grows. |
| SongsSlice.ReplaceById | frontend/src/songs/songsSlice.ts:58-63 | Length and order are kept. Exactly the entries whose `_id` equals the payload's become the payload. |
| SongsSlice.ReplaceByIdNoMatch | frontend/src/songs/songsSlice.ts:58-63 | With no entry carrying the payload's id, the list is unchanged. |
| SongsSlice.RemoveByIdSpec | frontend/src/songs/songsSlice.ts:64-67 | A song survives the removal iff it was in the list and its id differs. The survivors keep their relative order. |
| SongsSlice.RemoveByIdIdempotent | frontend/src/songs/songsSlice.ts:64-67 | Removing the same id twice is removing it once. |
| SongsSlice.ReduceAllSnoc | frontend/src/songs/songsSlice.ts:22-74 | Reducing a log with one more action applies that action to the state reached so far. |
| SongsSlice.RequestTriggerSetsLoading | frontend/src/songs/songsSlice.ts:24-43 | Each of the five request triggers sets loading, clears the error, and leaves songs and stats unchanged. |
| SongsSlice.SongsStore.constructor | frontend/src/songs/songsSlice.ts:12-17 | The initial state: no songs, no stats, not loading, no error. |
| SongsSlice.SongsStore.FetchSongs | frontend/src/songs/songsSlice.ts:24-27 | Loading set, error cleared, songs and stats unchanged. |
| SongsSlice.SongsStore.FetchStats | frontend/src/songs/songsSlice.ts:28-31 | Loading set, error cleared, songs and stats unchanged. |
| SongsSlice.SongsStore.AddSong | frontend/src/songs/songsSlice.ts:32-35 | Loading set, error cleared, songs and stats unchanged. |
| SongsSlice.SongsStore.UpdateSong | frontend/src/songs/songsSlice.ts:36-39 | Loading set, error cleared, songs and stats unchanged. |
| SongsSlice.SongsStore.DeleteSong | frontend/src/songs/songsSlice.ts:40-43 | Loading set, error cleared, songs and stats unchanged. |
| SongsSlice.SongsStore.FetchSongsSuccess | frontend/src/songs/songsSlice.ts:46-49 | Songs replaced by the payload and loading cleared; stats and error untouched. |
| SongsSlice.SongsStore.FetchStatsSuccess | frontend/src/songs/songsSlice.ts:50-53 | Stats replaced by the payload and loading cleared; songs and error untouched. |
| SongsSlice.SongsStore.AddSongSuccess | frontend/src/songs/songsSlice.ts:54-57 | The payload is appended: length grows by one and every earlier entry is unchanged. |
| SongsSlice.SongsStore.UpdateSongSuccess | frontend/src/songs/songsSlice.ts:58-63 | Songs become `ReplaceById` of the old list and loading is cleared; stats and error untouched. |
| SongsSlice.SongsStore.DeleteSongSuccess | frontend/src/songs/songsSlice.ts:64-67 | No song with the id remains, every other song is kept in order, and loading is cleared. |
| SongsSlice.SongsStore.RequestFailure | frontend/src/songs/songsSlice.ts:70-73 | Loading cleared and the message recorded; songs and stats unchanged. |
| SongsSlice.SongsStore.Dispatch | frontend/src/songs/songsSlice.ts:22-74 | Dispatching any action leaves the store in exactly `Reduce` of the previous state. |
| SongsSaga.Saga.constructor | frontend/src/songs/songsSaga.ts:18-66 | The saga starts with an empty action log over the given store, whose state it records as the starting point. |
| SongsSaga.Saga.Put | frontend/src/songs/songsSaga.ts:20-66 | A `put` appends the action to the log and reduces the store by it, so the store is always the reduction of its starting state by the log. |
| SongsSaga.Saga.HandleFetchSongs | frontend/src/songs/songsSaga.ts:20-27 | Success puts exactly `[fetchSongsSuccess(data)]`; failure puts exactly `[requestFailure(message)]`. |
| SongsSaga.Saga.HandleFetchStats | frontend/src/songs/songsSaga.ts:29-36 | Success puts exactly `[fetchStatsSuccess(data)]`; failure puts exactly `[requestFailure(message)]`. |
| SongsSaga.Saga.HandleAddSong | frontend/src/songs/songsSaga.ts:38-46 | Success puts `addSongSuccess(response)` then `fetchStats()`: the saved song is appended and the store is loading again. Failure puts only `requestFailure`. |
| SongsSaga.Saga.HandleUpdateSong | frontend/src/songs/songsSaga.ts:48-56 | Success puts `updateSongSuccess(response)` then `fetchStats()`. Failure puts only `requestFailure`. |
| SongsSaga.Saga.HandleDeleteSong | frontend/src/songs/songsSaga.ts:58-66 | Success puts `deleteSongSuccess(id)`, with the request's id, then `fetchStats()`. Failure puts only `requestFailure`. |
| SongsSaga.MutationThenRefresh | frontend/src/songs/songsSaga.ts:41-42 | After any mutation success the chained refresh leaves the store loading. Once the stats arrive, the new stats are shown and loading is cleared. |
| SongFilter.HandleFilterChange | frontend/src/components/SongFilter.tsx:60-62 | Only the named filter field takes the new value; the other three are unchanged. |
| SongFilter.ClearFilters | frontend/src/components/SongFilter.tsx:32-75 | All four fields are empty, which is the initial filter state. |
| SongFilter.ActiveFiltersCount | frontend/src/components/SongFilter.tsx:77-80 | The number of non-blank fields: at most 4, 0 iff every field is blank, 4 iff none is. |
| SongFilter.ClearedHasNoActiveFilter | frontend/src/components/SongFilter.tsx:68-80 | After clearing, no filter is active. |
| SongFilter.ChangeAdjustsCount | frontend/src/components/SongFilter.tsx:60-80 | Changing one field moves the count by that field's old and new activity only. |
| SongFilter.UniqueValues | frontend/src/components/SongFilter.tsx:40-51 | `uniqueGenres`, `uniqueArtists` and `uniqueAlbums` are this function at `Gener`, `Artist` and `Album`. Strictly sorted, so no duplicates. A value is listed iff it is non-empty and some song holds it in that field. |
| SongFilter.UniqueValuesDetermined | frontend/src/components/SongFilter.tsx:40-51 | Any strictly sorted list of the same values equals the computed one. |
| SongsList.SearchMatches | frontend/src/components/SongsList.tsx:92-104 | A song matches iff the lowercased, trimmed term occurs in the lowercased value of one of its four fields. A blank search matches every song. |
| SongsList.SelectorMatches | frontend/src/components/SongsList.tsx:108-124 | Case-insensitive equality: same length, and the same letters up to case at every position; the selector is not trimmed. |
| SongsList.KeepMatching | frontend/src/components/SongsList.tsx:94-123 | A song is kept iff it matches the stage. The result is a subsequence of the input. |
| SongsList.ApplyStage | frontend/src/components/SongsList.tsx:92-124 | An inactive (blank) stage keeps everything. An active one keeps exactly its matches; either way the order is kept. |
| SongsList.VisibleOnly | frontend/src/components/SongsList.tsx:89-124 | The reference filter: a song is shown iff it passes every active predicate, in the original order. |
| SongsList.HandleFilterChange | frontend/src/components/SongsList.tsx:83-127 | The stage-by-stage filter computes exactly `VisibleOnly`: a subsequence of the songs keeping just those passing every active predicate. |
| SongsList.StagesCompose | frontend/src/components/SongsList.tsx:89-124 | Search, then genre, then artist, then album equals the one-pass definition. |
| SongsList.StagesCommute | frontend/src/components/SongsList.tsx:91-124 | Any two stages commute, so the order of filtering does not matter. |
| SongsList.BlankFiltersKeepAll | frontend/src/components/SongsList.tsx:89-124 | With every filter value empty or whitespace-only, the full list is shown. |
| SongsList.GenreRockExample | frontend/src/components/SongsList.tsx:108-112 | Over songs A/X/Rock and B/Y/Jazz, genre "Rock" shows exactly the first. |
| SongsList.SearchBExample | frontend/src/components/SongsList.tsx:92-104 | Over the same songs, search "b" (case-insensitive) shows exactly the second. |
| SongsList.GenreAndSearchExample | frontend/src/components/SongsList.tsx:92-112 | Genre "Rock" with search "b" shows nothing. |
| SongsList.EditSubmit | frontend/src/components/SongsList.tsx:145-150 | `updateSong` is dispatched iff the edited song has a non-empty `_id` and the form's title and artist are non-empty. Then it is dispatched once, with that id and the form, and the dialog closes. Otherwise nothing is dispatched and the dialog stays. |
| SongForm.SongFormState.constructor | frontend/src/components/SongForm.tsx:51-56 | The form starts with all four fields empty, and nothing dispatched. |
| SongForm.SongFormState.HandleChange | frontend/src/components/SongForm.tsx:58-63 | Only the named field of the form changes; nothing is dispatched. |
| SongForm.SongFormState.HandleSubmit | frontend/src/components/SongForm.tsx:65-73 | Empty title or artist: the alert is raised, nothing is dispatched, and the form is kept. Otherwise `addSong(form)` is dispatched exactly once and the form is reset to all-empty. |
| SongForm.FillAndSubmit | frontend/src/components/SongForm.tsx:58-73 | Typing a title and an artist and submitting dispatches exactly one `addSong` with those values. |
| SongForm.SubmitWithoutArtist | frontend/src/components/SongForm.tsx:65-70 | Submitting without an artist dispatches nothing and raises exactly the "Title and artist are required" alert. |

## Left out

- Text is handled for ASCII only: `toLowerCase`, `trim` and the `sort` order model the ASCII letters and whitespace. Unicode case mapping, Unicode whitespace and UTF-16 code-unit order are not modelled.
- Client `Song` fields that may be missing (`song.title?.…`, `|| ''`) are modelled as `""`. All client predicates treat a missing field and an empty one alike.
- Request bodies are modelled as optional strings. Non-string JSON values and Mongoose casting of them are not modelled, and neither are keys other than the four schema fields.
- Fresh ObjectIds and the clock are parameters: `newId` (required to be unused) and `now`. Store and database failures are explicit `fault` parameters.
- Which documents MongoDB's `distinct` counts when a field is missing is library behaviour. The model takes the present values only and does not relate `totalGenres` to the number of genre groups.
- SongController.ErrorMessage: the message for a failed validation follows the shape `Song validation failed: path: message, …` with the paths in schema order; Mongoose's exact text and ordering are not modelled, and the contract promises only that every failed validator's message appears in it.
- SongStore.SongCollection.Find: MongoDB returns `find()` results in no promised order when there is no sort. The model fixes insertion order. `SongController.GetSongs` and every clause about `songs.order` (in `Save`, `FindByIdAndDelete`, `DeleteSong`, `DeleteTwice`) inherit that choice. The contents of the listing do not depend on it.
- Aggregation.GroupBy: MongoDB does not specify the order of `$group`'s output. The model fixes one order, groups by first occurrence in insertion order, so `SongController.GetStats` promises that order too. None of the properties stated about the groups (distinct keys, per-key counts, their sum) depends on it.
- The HTTP layer (Express routes, `server.js`, `db.js`, axios calls in `songsApi.ts`) is not modelled. The sagas receive each HTTP outcome as a success-or-failure parameter.
- Concurrency: `takeEvery` scheduling (songsSaga.ts:69-75) and interleaved in-flight requests are not modelled. Each worker saga runs to completion.
- The React presentation is not modelled: rendering, `useEffect`/`useMemo` plumbing, `handleEditClick`/`handleEditClose`/`handleEditChange` and the `alert` dialog. The alert is recorded as a log entry.
- StatsPanel.tsx and HomePage.tsx hold presentation only and are not part of this model.
