/**
 * The request handlers of backend/controllers/songController.js. Each one
 * awaits store calls in sequence and turns the outcome into a status code and
 * a JSON body; whatever a store call throws lands in the handler's catch.
 */
module SongController {
  import opened Wrappers
  import opened Text
  import opened SongSchema
  import opened Aggregation
  import opened SongStore
  import opened Seqs

  /** The `getStats` payload. */
  datatype Stats = Stats(
    totalSongs: nat, totalArtists: nat, totalAlbums: nat, totalGenres: nat,
    songsPerGenre: seq<Group>, songsPerArtist: seq<Group>, songsPerAlbum: seq<Group>)

  datatype Body =
    | SongJson(song: SongRecord)
    | SongsJson(songs: seq<SongRecord>)
    | StatsJson(stats: Stats)
    | MessageJson(message: string)

  datatype Response = Response(status: int, body: Body)

  const BothRequired: string := "title and artist are required"
  const NotFound: string := "Song not found"
  const Deleted: string := "Song deleted successfully"

  /** The failed validators as `path: message`, separated by ", "; every message appears in the text. */
  function JoinErrors(errs: seq<FieldError>): (r: string)
    ensures forall i :: 0 <= i < |errs| ==> Contains(r, errs[i].message)
  {
    if errs == [] then ""
    else
      var head := errs[0].path + ": ";
      var rest := if |errs| == 1 then "" else ", " + JoinErrors(errs[1..]);
      ContainsSelf(errs[0].message);
      ContainsWithin(head, errs[0].message, rest, errs[0].message);
      assert forall i :: 1 <= i < |errs| ==> Contains(head + errs[0].message + rest, errs[i].message) by {
        if |errs| > 1 {
          var tail := JoinErrors(errs[1..]);
          forall i | 1 <= i < |errs| ensures Contains(head + errs[0].message + rest, errs[i].message) {
            assert errs[1..][i - 1] == errs[i];
            ContainsWithin(head + errs[0].message + ", ", tail, "", errs[i].message);
            assert head + errs[0].message + ", " + tail + "" == head + errs[0].message + rest;
          }
        }
      }
      head + errs[0].message + rest
  }

  /**
   * `error.message` of what a store call threw: a storage failure's own
   * message, or for a validation failure a text naming every failed
   * validator's message.
   */
  function ErrorMessage(e: StoreError): (r: string)
    ensures e.DatabaseError? ==> r == e.message
    ensures e.ValidationError? ==> forall i :: 0 <= i < |e.errors| ==> Contains(r, e.errors[i].message)
  {
    match e
    case ValidationError(errs) =>
      var j := JoinErrors(errs);
      assert forall i :: 0 <= i < |errs| ==> Contains("Song validation failed: " + j, errs[i].message) by {
        forall i | 0 <= i < |errs| ensures Contains("Song validation failed: " + j, errs[i].message) {
          ContainsWithin("Song validation failed: ", j, "", errs[i].message);
          assert "Song validation failed: " + j + "" == "Song validation failed: " + j;
        }
      }
      "Song validation failed: " + j
    case DatabaseError(m) => m
  }

  /**
   * A create body lacking a title (or an artist) after trimming is answered,
   * once it gets past the explicit check, with a message naming the schema's
   * own "Song title is required" (or "Artist is required").
   */
  lemma RejectionNamesMissingField(body: SongFields)
    requires Validate(body).Rejected?
    ensures MissingAfterTrim(body.title) ==>
      Contains(ErrorMessage(ValidationError(Validate(body).errors)), TitleRequired)
    ensures MissingAfterTrim(body.artist) ==>
      Contains(ErrorMessage(ValidationError(Validate(body).errors)), ArtistRequired)
  {
    var errs := Validate(body).errors;
    if MissingAfterTrim(body.title) {
      var i :| 0 <= i < |errs| && errs[i] == FieldError("title", TitleRequired);
    }
    if MissingAfterTrim(body.artist) {
      var i :| 0 <= i < |errs| && errs[i] == FieldError("artist", ArtistRequired);
    }
  }

  /** JavaScript falsiness of a body field: absent or "". */
  predicate Falsy(v: Option<string>) {
    v.None? || v.value == ""
  }

  /** `getSongs`: 200 with every document, or 500 when the store fails. */
  method GetSongs(songs: SongCollection, fault: Option<string>) returns (res: Response)
    requires songs.Valid()
    ensures fault.Some? ==> res == Response(500, MessageJson(fault.value))
    ensures fault.None? ==> res == Response(200, SongsJson(songs.Records()))
    ensures fault.None? ==> |res.body.songs| == |songs.docs|
  {
    var found := songs.Find(fault);
    if found.Threw? {
      return Response(500, MessageJson(ErrorMessage(found.error)));
    }
    res := Response(200, SongsJson(found.value));
  }

  /**
   * `createSong`. The explicit check rejects only a body lacking BOTH title and
   * artist; a body lacking one of them gets past it and is rejected by schema
   * validation, which the catch also answers with 400. A store failure is 400
   * as well. Success is 201 with the new document.
   */
  method CreateSong(songs: SongCollection, body: SongFields, newId: string, now: int, fault: Option<string>)
    returns (res: Response)
    requires songs.Valid() && newId !in songs.docs
    modifies songs
    ensures songs.Valid()
    ensures res.status == 201 || res.status == 400
    ensures Falsy(body.artist) && Falsy(body.title) ==>
      res == Response(400, MessageJson(BothRequired)) && songs.docs == old(songs.docs)
    ensures res.status == 201 <==>
      !MissingAfterTrim(body.title) && !MissingAfterTrim(body.artist) && fault.None?
    ensures res.status == 400 ==> songs.docs == old(songs.docs) && songs.order == old(songs.order)
    ensures !(Falsy(body.artist) && Falsy(body.title)) && Validate(body).Rejected? ==>
      res == Response(400, MessageJson(ErrorMessage(ValidationError(Validate(body).errors))))
    ensures !(Falsy(body.artist) && Falsy(body.title)) && Validate(body).Accepted? && fault.Some? ==>
      res == Response(400, MessageJson(fault.value))
    ensures res.status == 201 ==>
      res.body == SongJson(NewRecord(Validate(body).doc, newId, now)) &&
      songs.docs == old(songs.docs)[newId := res.body.song] && songs.order == old(songs.order) + [newId]
  {
    if Falsy(body.artist) && Falsy(body.title) {
      return Response(400, MessageJson(BothRequired));
    }
    var saved := songs.Save(body, newId, now, fault);
    if saved.Threw? {
      return Response(400, MessageJson(ErrorMessage(saved.error)));
    }
    res := Response(201, SongJson(saved.value));
  }

  /**
   * `updateSong`: 200 with the merged document, 404 when no document has the
   * id, 400 when the store fails. Other documents are never touched.
   */
  method UpdateSong(songs: SongCollection, id: string, body: SongFields, now: int, fault: Option<string>)
    returns (res: Response)
    requires songs.Valid()
    modifies songs
    ensures songs.Valid() && songs.order == old(songs.order)
    ensures fault.Some? ==> res == Response(400, MessageJson(fault.value)) && songs.docs == old(songs.docs)
    ensures fault.None? && id !in old(songs.docs) ==>
      res == Response(404, MessageJson(NotFound)) && songs.docs == old(songs.docs)
    ensures fault.None? && id in old(songs.docs) ==>
      res == Response(200, SongJson(Merge(old(songs.docs)[id], body, now))) &&
      songs.docs == old(songs.docs)[id := res.body.song]
  {
    var updated := songs.FindByIdAndUpdate(id, body, now, fault);
    if updated.Threw? {
      return Response(400, MessageJson(ErrorMessage(updated.error)));
    }
    if updated.value.None? {
      return Response(404, MessageJson(NotFound));
    }
    res := Response(200, SongJson(updated.value.value));
  }

  /** `deleteSong`: 200 with the confirmation, 404 when no document has the id, 500 when the store fails. */
  method DeleteSong(songs: SongCollection, id: string, fault: Option<string>) returns (res: Response)
    requires songs.Valid()
    modifies songs
    ensures songs.Valid()
    ensures fault.None? ==> id !in songs.docs
    ensures fault.Some? ==>
      res == Response(500, MessageJson(fault.value)) && songs.docs == old(songs.docs) && songs.order == old(songs.order)
    ensures fault.None? && id !in old(songs.docs) ==>
      res == Response(404, MessageJson(NotFound)) && songs.docs == old(songs.docs) && songs.order == old(songs.order)
    ensures fault.None? && id in old(songs.docs) ==>
      res == Response(200, MessageJson(Deleted)) && songs.docs == old(songs.docs) - {id} &&
      songs.order == Without(old(songs.order), id)
  {
    var deleted := songs.FindByIdAndDelete(id, fault);
    if deleted.Threw? {
      return Response(500, MessageJson(ErrorMessage(deleted.error)));
    }
    if deleted.value.None? {
      return Response(404, MessageJson(NotFound));
    }
    res := Response(200, MessageJson(Deleted));
  }

  /** The first failure among the awaited calls, if any. */
  function FirstFault(faults: seq<Option<string>>): (r: Option<string>)
    ensures r.None? <==> forall i :: 0 <= i < |faults| ==> faults[i].None?
    ensures r.Some? ==> exists i :: 0 <= i < |faults| && faults[i] == r &&
                                   forall j :: 0 <= j < i ==> faults[j].None?
  {
    if faults == [] then None
    else if faults[0].Some? then faults[0]
    else
      var r := FirstFault(faults[1..]);
      assert r.Some? ==> exists i :: 0 <= i < |faults| && faults[i] == r &&
                                    forall j :: 0 <= j < i ==> faults[j].None? by {
        if r.Some? {
          var i :| 0 <= i < |faults[1..]| && faults[1..][i] == r &&
                   forall j :: 0 <= j < i ==> faults[1..][j].None?;
          assert forall j :: 0 <= j < i + 1 ==> faults[j].None? by {
            forall j | 0 <= j < i + 1 ensures faults[j].None? {
              if j > 0 { assert faults[j] == faults[1..][j - 1]; }
            }
          }
        }
      }
      assert r.None? ==> forall i :: 0 <= i < |faults| ==> faults[i].None? by {
        if r.None? {
          forall i | 0 <= i < |faults| ensures faults[i].None? {
            if i > 0 { assert faults[i] == faults[1..][i - 1]; }
          }
        }
      }
      r
  }

  /**
   * `getStats`: the document count, the number of distinct artists, albums and
   * geners, and the per-gener, per-artist and per-album groupings, or 500 with
   * the message of the first of its seven awaited store calls that fails
   * (`faults[k]` is what the k-th call throws). Each grouping's counts add up to
   * the document count.
   */
  method GetStats(songs: SongCollection, faults: seq<Option<string>>) returns (res: Response)
    requires songs.Valid() && |faults| == 7
    ensures FirstFault(faults).Some? ==> res == Response(500, MessageJson(FirstFault(faults).value))
    ensures FirstFault(faults).None? ==> res.status == 200 && res.body.StatsJson?
    ensures FirstFault(faults).None? ==> res.body.stats == StatsOf(songs.Records())
  {
    var totalSongs := songs.CountDocuments(faults[0]);
    if totalSongs.Threw? {
      FirstFaultIs(faults, 0);
      return Response(500, MessageJson(ErrorMessage(totalSongs.error)));
    }
    var artists := songs.DistinctOf(ByArtist, faults[1]);
    if artists.Threw? {
      FirstFaultIs(faults, 1);
      return Response(500, MessageJson(ErrorMessage(artists.error)));
    }
    var albums := songs.DistinctOf(ByAlbum, faults[2]);
    if albums.Threw? {
      FirstFaultIs(faults, 2);
      return Response(500, MessageJson(ErrorMessage(albums.error)));
    }
    var genres := songs.DistinctOf(ByGener, faults[3]);
    if genres.Threw? {
      FirstFaultIs(faults, 3);
      return Response(500, MessageJson(ErrorMessage(genres.error)));
    }
    var songsPerGenre := songs.GroupCount(ByGener, faults[4]);
    if songsPerGenre.Threw? {
      FirstFaultIs(faults, 4);
      return Response(500, MessageJson(ErrorMessage(songsPerGenre.error)));
    }
    var songsPerArtist := songs.GroupCount(ByArtist, faults[5]);
    if songsPerArtist.Threw? {
      FirstFaultIs(faults, 5);
      return Response(500, MessageJson(ErrorMessage(songsPerArtist.error)));
    }
    var songsPerAlbum := songs.GroupCount(ByAlbum, faults[6]);
    if songsPerAlbum.Threw? {
      FirstFaultIs(faults, 6);
      return Response(500, MessageJson(ErrorMessage(songsPerAlbum.error)));
    }
    assert forall i :: 0 <= i < |faults| ==> faults[i].None? by {
      forall i | 0 <= i < |faults| ensures faults[i].None? {
        assert i == 0 || i == 1 || i == 2 || i == 3 || i == 4 || i == 5 || i == 6;
      }
    }
    res := Response(200, StatsJson(Stats(
      totalSongs.value, |artists.value|, |albums.value|, |genres.value|,
      songsPerGenre.value, songsPerArtist.value, songsPerAlbum.value)));
  }

  /**
   * The statistics of a list of documents: their number, the number of
   * distinct artists, albums and geners, and the three groupings. Each
   * grouping's counts add up to the number of documents, and no distinct
   * count exceeds it.
   */
  function StatsOf(recs: seq<SongRecord>): (s: Stats)
    ensures s.totalSongs == |recs|
    ensures SumCounts(s.songsPerGenre) == s.totalSongs && SumCounts(s.songsPerArtist) == s.totalSongs
    ensures SumCounts(s.songsPerAlbum) == s.totalSongs
    ensures s.totalArtists <= s.totalSongs && s.totalAlbums <= s.totalSongs && s.totalGenres <= s.totalSongs
    ensures forall k :: CountOf(s.songsPerGenre, k) == CountKey(recs, ByGener, k)
    ensures forall k :: CountOf(s.songsPerArtist, k) == CountKey(recs, ByArtist, k)
    ensures forall k :: CountOf(s.songsPerAlbum, k) == CountKey(recs, ByAlbum, k)
    ensures s.totalArtists == |DistinctValues(recs, ByArtist)| && s.totalAlbums == |DistinctValues(recs, ByAlbum)|
    ensures s.totalGenres == |DistinctValues(recs, ByGener)|
  {
    DistinctAtMostCount(recs, ByArtist);
    DistinctAtMostCount(recs, ByAlbum);
    DistinctAtMostCount(recs, ByGener);
    Stats(|recs|, |DistinctValues(recs, ByArtist)|, |DistinctValues(recs, ByAlbum)|, |DistinctValues(recs, ByGener)|,
      GroupBy(recs, ByGener), GroupBy(recs, ByArtist), GroupBy(recs, ByAlbum))
  }

  /** The failure of call `k` is the first one when every earlier call succeeded. */
  lemma FirstFaultIs(faults: seq<Option<string>>, k: nat)
    requires k < |faults| && faults[k].Some?
    requires forall j :: 0 <= j < k ==> faults[j].None?
    ensures FirstFault(faults) == faults[k]
  {
  }

  /** Deleting the same id twice: the first call succeeds, the second finds nothing. */
  method DeleteTwice(songs: SongCollection, id: string) returns (first: Response, second: Response)
    requires songs.Valid() && id in songs.docs
    modifies songs
    ensures first.status == 200 && second.status == 404
    ensures songs.Valid() && songs.docs == old(songs.docs) - {id}
    ensures songs.order == Without(old(songs.order), id)
  {
    first := DeleteSong(songs, id, None);
    second := DeleteSong(songs, id, None);
  }

  /** A successful create followed by `getStats`: the count reflects the new document. */
  method CreateThenCount(songs: SongCollection, body: SongFields, newId: string, now: int)
    returns (created: Response, stats: Response)
    requires songs.Valid() && newId !in songs.docs
    requires !MissingAfterTrim(body.title) && !MissingAfterTrim(body.artist)
    modifies songs
    ensures created.status == 201 && stats.status == 200
    ensures stats.body.StatsJson? && stats.body.stats.totalSongs == |old(songs.docs)| + 1
  {
    created := CreateSong(songs, body, newId, now, None);
    stats := GetStats(songs, [None, None, None, None, None, None, None]);
  }
}
