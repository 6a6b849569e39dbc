/**
  * The edit dialog (components/EditSongModal.tsx): a form over a record's
  * title, artist and album, merged back into the record on submit.
  */
module EditSongModal {
  import opened Types

  /** The three editable fields. */
  datatype FormData = FormData(title: string, artist: string, album: string)

  /** The input a change event comes from, named by its `name` attribute. */
  datatype Field = Title | Artist | Album

  function Get(form: FormData, field: Field): string
  {
    match field
    case Title => form.title
    case Artist => form.artist
    case Album => form.album
  }

  /** The form as it is filled in from a record, on mount and whenever the record changes. */
  function FormOf(song: Song): (f: FormData)
    ensures Get(f, Title) == song.title && Get(f, Artist) == song.artist && Get(f, Album) == song.album
  {
    FormData(song.title, song.artist, song.album)
  }

  /** `handleChange`: the named field takes the typed value; the other two keep theirs. */
  function WithField(form: FormData, field: Field, value: string): (r: FormData)
    ensures Get(r, field) == value
    ensures forall other: Field :: other != field ==> Get(r, other) == Get(form, other)
  {
    match field
    case Title => form.(title := value)
    case Artist => form.(artist := value)
    case Album => form.(album := value)
  }

  /** `{...song, ...formData}`: the form's three fields over the record, everything else kept. */
  function Merge(song: Song, form: FormData): (r: Song)
    ensures r.id == song.id && r.duration == song.duration && r.coverArtUrl == song.coverArtUrl
    ensures r.audioUrl == song.audioUrl && r.isLiked == song.isLiked
    ensures FormOf(r) == form
  {
    song.(title := form.title, artist := form.artist, album := form.album)
  }

  /**
    * Submitting an untouched form gives back the record itself, and re-opening
    * the dialog on a saved record shows exactly the form that was saved.
    */
  lemma MergeRoundTrip(song: Song, form: FormData)
    ensures Merge(song, FormOf(song)) == song
    ensures FormOf(Merge(song, form)) == form
    ensures Merge(Merge(song, form), FormOf(song)) == song
  {
  }

  /** Typing a field's current value back into it changes nothing, and the last edit of a field wins. */
  lemma WithFieldLaws(form: FormData, field: Field, a: string, b: string)
    ensures WithField(form, field, Get(form, field)) == form
    ensures WithField(WithField(form, field, a), field, b) == WithField(form, field, b)
  {
  }

  class EditDialog {
    /** The record being edited (the `song` prop). */
    var song: Song
    var formData: FormData

    constructor (song: Song)
      ensures this.song == song && formData == FormOf(song)
    {
      this.song := song;
      formData := FormOf(song);
    }

    /** The effect on `[song]`: a new record resets the form to its fields. */
    method SongChanged(newSong: Song)
      modifies this
      ensures song == newSong && formData == FormOf(newSong)
    {
      song := newSong;
      formData := FormOf(newSong);
    }

    method HandleChange(field: Field, value: string)
      modifies this
      ensures formData == WithField(old(formData), field, value)
      ensures song == old(song)
    {
      match field {
        case Title => formData := formData.(title := value);
        case Artist => formData := formData.(artist := value);
        case Album => formData := formData.(album := value);
      }
    }

    /** The record `handleSubmit` hands to `onSave`. */
    function Submitted(): (r: Song)
      reads this
      ensures FormOf(r) == formData
      ensures r.id == song.id
      ensures r == Merge(song, formData)
    {
      Merge(song, formData)
    }
  }

  /** Where a click lands: the backdrop, the panel itself, the Cancel button, or the submit button. */
  datatype Click = BackdropClick | PanelClick | CancelClick | SubmitClick

  /** The callback a click ends in. */
  datatype Callback = OnClose | OnSave(saved: Song) | NoCallback

  /**
    * Cancel and the backdrop close the dialog; submitting saves the merged
    * record; a click inside the panel stops there and does nothing.
    */
  function Dispatch(click: Click, song: Song, form: FormData): (c: Callback)
    ensures c == OnClose <==> click == BackdropClick || click == CancelClick
    ensures c.OnSave? <==> click == SubmitClick
    ensures c.OnSave? ==> c.saved == Merge(song, form)
    ensures c == NoCallback <==> click == PanelClick
  {
    match click
    case BackdropClick => OnClose
    case CancelClick => OnClose
    case SubmitClick => OnSave(Merge(song, form))
    case PanelClick => NoCallback
  }

  /**
    * Opening the dialog on a record, editing only the title, and saving gives
    * the record with the new title and every other field unchanged.
    */
  method EditTitleAndSave(song: Song, newTitle: string) returns (saved: Callback)
    ensures saved == OnSave(song.(title := newTitle))
  {
    var dialog := new EditDialog(song);
    dialog.HandleChange(Title, newTitle);
    saved := Dispatch(SubmitClick, dialog.song, dialog.formData);
  }
}
