/**
 * The add-song form (frontend/src/components/SongForm.tsx): a component
 * holding the form's fields, updated one input at a time, and a submit that
 * either alerts or dispatches `addSong` and resets the form.
 */
module SongForm {
  import opened Wrappers
  import opened SongsApi
  import SongsSlice

  const RequiredAlert: string := "Title and artist are required"

  /** The empty form the component starts with and returns to after a submit. */
  const EmptyForm: Song := Song(None, "", "", "", "")

  class SongFormState {
    /** The four inputs. */
    var formData: Song
    /** The actions dispatched to the store so far, oldest first. */
    var dispatched: seq<SongsSlice.Action>
    /** The alerts shown so far. */
    var alerts: seq<string>

    constructor ()
      ensures formData == EmptyForm
      ensures formData.title == "" && formData.artist == "" && formData.album == "" && formData.gener == ""
      ensures dispatched == [] && alerts == []
    {
      formData := EmptyForm;
      dispatched := [];
      alerts := [];
    }

    /** `handleChange`: the input named `field` takes `value`; nothing else changes. */
    method HandleChange(field: SongField, value: string)
      modifies this
      ensures formData == WithField(old(formData), field, value)
      ensures FieldOf(formData, field) == value
      ensures forall other :: other != field ==> FieldOf(formData, other) == FieldOf(old(formData), other)
      ensures dispatched == old(dispatched) && alerts == old(alerts)
    {
      formData := WithField(formData, field, value);
    }

    /**
     * `handleSubmit`: with an empty title or artist, alert and change nothing
     * else; otherwise dispatch `addSong` with the form's data exactly once,
     * then reset all four fields to "".
     */
    method HandleSubmit()
      modifies this
      ensures old(formData).title == "" || old(formData).artist == "" ==>
        formData == old(formData) && dispatched == old(dispatched) && alerts == old(alerts) + [RequiredAlert]
      ensures old(formData).title != "" && old(formData).artist != "" ==>
        dispatched == old(dispatched) + [SongsSlice.AddSong(old(formData))] &&
        formData == EmptyForm && alerts == old(alerts)
    {
      if formData.title == "" || formData.artist == "" {
        alerts := alerts + [RequiredAlert];
        return;
      }
      dispatched := dispatched + [SongsSlice.AddSong(formData)];
      formData := EmptyForm;
    }
  }

  /** Filling in title and artist and submitting dispatches one `addSong` carrying them. */
  method FillAndSubmit(title: string, artist: string) returns (sent: seq<SongsSlice.Action>)
    requires title != "" && artist != ""
    ensures sent == [SongsSlice.AddSong(Song(None, title, artist, "", ""))]
  {
    var form := new SongFormState();
    form.HandleChange(Title, title);
    form.HandleChange(Artist, artist);
    form.HandleSubmit();
    sent := form.dispatched;
  }

  /** Submitting with the artist left empty dispatches nothing. */
  method SubmitWithoutArtist(title: string) returns (sent: seq<SongsSlice.Action>, shown: seq<string>)
    ensures sent == [] && shown == [RequiredAlert]
  {
    var form := new SongFormState();
    form.HandleChange(Title, title);
    form.HandleSubmit();
    sent := form.dispatched;
    shown := form.alerts;
  }
}
