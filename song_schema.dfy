/**
 * The song schema (backend/models/song.js): `title` and `artist` are required
 * strings, `album` and `gener` optional strings, all four trimmed, and each
 * stored document carries `createdAt` / `updatedAt` timestamps.
 */
module SongSchema {
  import opened Wrappers
  import opened Text

  /** The four schema fields as they arrive in a request body; `None` is an absent field. */
  datatype SongFields = SongFields(title: Option<string>, artist: Option<string>, album: Option<string>, gener: Option<string>)

  /** A stored song document. */
  datatype SongRecord = SongRecord(
    id: string, title: string, artist: string, album: Option<string>, gener: Option<string>,
    createdAt: int, updatedAt: int)

  /** One failed validator: the path and its message. */
  datatype FieldError = FieldError(path: string, message: string)

  const TitleRequired: string := "Song title is required"
  const ArtistRequired: string := "Artist is required"

  /**
   * The `trim: true` setter: applies to a string that is present, leaves an
   * absent one absent. What it stores has no surrounding whitespace (so a
   * second trim leaves it alone) and is never longer.
   */
  function TrimField(v: Option<string>): (r: Option<string>)
    ensures r.Some? <==> v.Some?
    ensures r.Some? ==> Unpadded(r.value) && StripsTo(v.value, r.value)
  {
    match v
    case Some(s) => TrimKeepsMiddle(s); Some(Trim(s))
    case None => None
  }

  /**
   * Casting a body into a document: the same fields are present, each one the
   * input's value with its surrounding whitespace removed (by `StripsToIsTrim`,
   * exactly its trim).
   */
  function Normalise(input: SongFields): (r: SongFields)
    ensures r.title.Some? <==> input.title.Some?
    ensures r.artist.Some? <==> input.artist.Some?
    ensures r.album.Some? <==> input.album.Some?
    ensures r.gener.Some? <==> input.gener.Some?
    ensures input.title.Some? ==> Unpadded(r.title.value) && StripsTo(input.title.value, r.title.value)
    ensures input.artist.Some? ==> Unpadded(r.artist.value) && StripsTo(input.artist.value, r.artist.value)
    ensures input.album.Some? ==> Unpadded(r.album.value) && StripsTo(input.album.value, r.album.value)
    ensures input.gener.Some? ==> Unpadded(r.gener.value) && StripsTo(input.gener.value, r.gener.value)
  {
    SongFields(TrimField(input.title), TrimField(input.artist), TrimField(input.album), TrimField(input.gener))
  }

  /** The `required` validator on a string path: present and non-empty. */
  predicate Provided(v: Option<string>) {
    v.Some? && v.value != ""
  }

  /** A raw field that the required validator rejects once trimmed: absent, empty or whitespace. */
  predicate MissingAfterTrim(v: Option<string>) {
    v.None? || Trim(v.value) == ""
  }

  /** The validators that fail on a normalised document, in schema order. */
  function Violations(doc: SongFields): seq<FieldError> {
    (if Provided(doc.title) then [] else [FieldError("title", TitleRequired)]) +
    (if Provided(doc.artist) then [] else [FieldError("artist", ArtistRequired)])
  }

  datatype Checked = Accepted(doc: SongFields) | Rejected(errors: seq<FieldError>)

  /**
   * Validation as run by `save()`: trim first, then the required validators.
   * Only title and artist can fail; album and gener are never required.
   */
  function Validate(input: SongFields): (r: Checked)
    ensures r.Rejected? <==> MissingAfterTrim(input.title) || MissingAfterTrim(input.artist)
    ensures r.Rejected? ==>
      (FieldError("title", TitleRequired) in r.errors <==> MissingAfterTrim(input.title)) &&
      (FieldError("artist", ArtistRequired) in r.errors <==> MissingAfterTrim(input.artist)) &&
      forall e :: e in r.errors ==> e == FieldError("title", TitleRequired) || e == FieldError("artist", ArtistRequired)
    ensures r.Accepted? ==>
      r.doc.title == Some(Trim(input.title.value)) && r.doc.title.value != "" &&
      r.doc.artist == Some(Trim(input.artist.value)) && r.doc.artist.value != "" &&
      r.doc.album == TrimField(input.album) && r.doc.gener == TrimField(input.gener)
  {
    var doc := Normalise(input);
    var errs := Violations(doc);
    if errs == [] then Accepted(doc) else Rejected(errs)
  }

  /** Every string field of `doc` is already trimmed. */
  predicate IsTrimmed(doc: SongFields) {
    (doc.title.Some? ==> Trim(doc.title.value) == doc.title.value) &&
    (doc.artist.Some? ==> Trim(doc.artist.value) == doc.artist.value) &&
    (doc.album.Some? ==> Trim(doc.album.value) == doc.album.value) &&
    (doc.gener.Some? ==> Trim(doc.gener.value) == doc.gener.value)
  }

  /** What validation accepts is stored trimmed: no field carries surrounding whitespace. */
  lemma AcceptedIsTrimmed(input: SongFields)
    requires Validate(input).Accepted?
    ensures IsTrimmed(Validate(input).doc)
  {
    var doc := Validate(input).doc;
    TrimIdempotent(input.title.value);
    TrimIdempotent(input.artist.value);
    if input.album.Some? { TrimIdempotent(input.album.value); }
    if input.gener.Some? { TrimIdempotent(input.gener.value); }
  }

  /** A record holding only a title and an artist is valid: album and gener are optional. */
  lemma TitleAndArtistSuffice(title: string, artist: string)
    requires Trim(title) != "" && Trim(artist) != ""
    ensures Validate(SongFields(Some(title), Some(artist), None, None)).Accepted?
  {
  }

  /** A new document: the validated fields under a fresh id, both timestamps set to `now`. */
  function NewRecord(doc: SongFields, id: string, now: int): (r: SongRecord)
    requires Provided(doc.title) && Provided(doc.artist)
    ensures r.id == id && r.createdAt == now && r.updatedAt == now
    ensures Some(r.title) == doc.title && Some(r.artist) == doc.artist
    ensures r.album == doc.album && r.gener == doc.gener
  {
    SongRecord(id, doc.title.value, doc.artist.value, doc.album, doc.gener, now, now)
  }

  /**
   * Merging an update body into a document: each field present in the body
   * replaces the stored one (trimmed, as the setter runs on updates); absent
   * fields, the id and `createdAt` are kept; `updatedAt` becomes `now`.
   * No validator runs, so an update may blank a required field.
   */
  function Merge(r: SongRecord, patch: SongFields, now: int): (m: SongRecord)
    ensures m.id == r.id && m.createdAt == r.createdAt && m.updatedAt == now
    ensures patch.title.None? ==> m.title == r.title
    ensures patch.artist.None? ==> m.artist == r.artist
    ensures patch.album.None? ==> m.album == r.album
    ensures patch.gener.None? ==> m.gener == r.gener
    ensures patch.title.Some? ==> m.title == Trim(patch.title.value)
    ensures patch.artist.Some? ==> m.artist == Trim(patch.artist.value)
    ensures patch.album.Some? ==> m.album == Some(Trim(patch.album.value))
    ensures patch.gener.Some? ==> m.gener == Some(Trim(patch.gener.value))
  {
    SongRecord(
      r.id,
      if patch.title.Some? then Trim(patch.title.value) else r.title,
      if patch.artist.Some? then Trim(patch.artist.value) else r.artist,
      if patch.album.Some? then TrimField(patch.album) else r.album,
      if patch.gener.Some? then TrimField(patch.gener) else r.gener,
      r.createdAt,
      now)
  }

  /** An update body holding only `album` changes the album (and the update time) and nothing else. */
  lemma AlbumOnlyUpdate(r: SongRecord, album: string, now: int)
    ensures Merge(r, SongFields(None, None, Some(album), None), now)
         == r.(album := Some(Trim(album)), updatedAt := now)
  {
  }
}
