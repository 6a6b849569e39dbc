# Musikipri player and admin screen, modelled in Dafny

This project models the logic of a small browser music player and its administration screen. It covers:

- the playback session: the current song, the play queue, play/pause, next and previous with their modular index arithmetic, the shuffle anti-repeat rule, volume and mute, and likes;
- the catalog store and the three-way view switch, which is gated by an authentication flag;
- the bulk import on the admin dashboard: identifier allocation, metadata fallbacks, and skipping files that fail to parse;
- the edit dialog's record merge and the login form;
- the `m:ss` duration formatters, and which play context each click in the content pane passes.

Each source file has one module:

| module | source file |
|---|---|
| `Types` | types.ts |
| `MockData` | data/mockData.ts |
| `App` | App.tsx |
| `MusicPlayerApp` | MusicPlayerApp.tsx |
| `AdminDashboard` | pages/AdminDashboard.tsx |
| `AdminLogin` | pages/AdminLogin.tsx |
| `EditSongModal` | components/EditSongModal.tsx |
| `MainView` | components/MainView.tsx |
| `PlayerControls` | components/PlayerControls.tsx |

`Js` holds the JavaScript built-ins the code depends on, with the behaviour the code relies on written out (the limits of each, such as ASCII-only lower-casing, are listed under "## Left out"):

- `filter` and `slice`;
- the truncating `%`;
- `toLowerCase` and `includes`;
- `padStart`;
- `toString` on whole numbers.

Where a component updates state in place, the model is a class whose methods update its fields:

- `MusicPlayerApp.PlaybackSession`
- `App.AppState`
- `AdminLogin.LoginForm`
- `EditSongModal.EditDialog`

Each method of `PlaybackSession` is specified by a pure transition over the value `Session`. The properties that span several handler calls are lemmas about those transitions. The import loop of the dashboard is a method, `AdminDashboard.ImportFiles`. It keeps the source's `while` increment, its set of used ids and its `push`, and is proved equal to the file-by-file specification `AdminDashboard.ImportedSongs`.

Inputs that come from the browser are parameters of the model:

- the `sessionStorage` flag is the value passed to `App.AppState`'s constructor;
- the answer to `window.confirm` is a boolean argument;
- `Math.random()` is a real argument in [0, 1);
- the metadata parser's result for each file is an `Option`;
- object URLs are opaque strings.

Deleting the playing record does not clear `currentSongId`: when the catalog changes the player only resets its queue (MusicPlayerApp.tsx:33-35), and `currentSong` simply stops resolving (MusicPlayerApp.tsx:31). In that state play/pause only flips the play flag, because the test at MusicPlayerApp.tsx:85 is `=== null`. `MusicPlayerApp.DeletedCurrentSong` states this. In the running app, however, deletions happen on the dashboard, and the player is unmounted while any admin view is shown (App.tsx:54-84). So the player comes back as a fresh session with nothing current. `App.PlayerAfterDelete` states that outcome.

## Model

| member | source | states |
|---|---|---|
| Js.Filter | App.tsx:45 | `Array.prototype.filter`: the result is no longer than the input and holds exactly the elements that pass the test |
| Js.FilterConcat | MusicPlayerApp.tsx:206-211 | filtering distributes over concatenation, so the surviving elements keep their relative order |
| Js.FilterKeepsAll | App.tsx:45 | filtering with a test every element passes returns the input unchanged |
| Js.Slice | components/MainView.tsx:131-140 | `slice(start, end)` clamps both bounds to the length; element i of the result is element start+i of the input |
| Js.JsRem | MusicPlayerApp.tsx:112 | JavaScript's `%`: the result has the sign of the dividend, is below the divisor in magnitude, and equals the mathematical remainder for a non-negative dividend |
| Js.NatToString | components/MainView.tsx:19 | `toString` of a whole number: at least one decimal digit, no leading zero, reads back as the number, one digit exactly below ten |
| Js.DigitsValueLeadingZero | components/MainView.tsx:19 | padding a digit string with a leading '0' keeps its value |
| Js.PadStart | components/MainView.tsx:19 | `padStart(width, pad)`: the length is the larger of the two, the input is the suffix, and every character before it is the pad |
| Js.ToLower | MusicPlayerApp.tsx:70 | `toLowerCase` on ASCII: same length, no capital letter left, each character unchanged or its lower-case form |
| Js.Includes | MusicPlayerApp.tsx:70-71 | `includes(t)` holds iff t occurs in s at some position |
| MockData.MockSongsIds | data/mockData.ts:4-77 | the seed catalog has eight records with identifiers 1 to 8, all distinct |
| MusicPlayerApp.IndexOf | MusicPlayerApp.tsx:102 | `findIndex`: -1 iff no element has the id, otherwise the first position holding it |
| MusicPlayerApp.IndexOfUnique | MusicPlayerApp.tsx:126 | in a queue of distinct ids, each song is found at its own position |
| MusicPlayerApp.FindSong | MusicPlayerApp.tsx:57-58 | `find` returns a record iff the id is in the catalog, and that record is the first one with that id (the one at `IndexOf`) |
| MusicPlayerApp.ContentSongs | MusicPlayerApp.tsx:213-217 | a non-empty search gives the catalog songs whose title or artist contains it case-insensitively; otherwise 'Liked Songs' gives the liked ones; otherwise the whole catalog |
| MusicPlayerApp.ContentSongsKeepOrder | MusicPlayerApp.tsx:206-216 | whichever branch applies, the displayed list keeps catalog order |
| MusicPlayerApp.NextIndex | MusicPlayerApp.tsx:112 | `(currentIndex + 1) % n` is in [0, n); it wraps from the last song to the first, and a song missing from the queue (-1) is followed by position 0 |
| MusicPlayerApp.PrevIndex | MusicPlayerApp.tsx:127 | `(currentIndex - 1 + n) % n` is in [0, n); the first song is preceded by the last; for a missing song (-1) it gives n-2, or 0 in a queue of one |
| MusicPlayerApp.NextPrevInverse | MusicPlayerApp.tsx:112-127 | within a queue, stepping forward then back (or back then forward) returns to the same position |
| MusicPlayerApp.Draw | MusicPlayerApp.tsx:106 | `Math.floor(Math.random() * n)` is a position of the queue |
| MusicPlayerApp.ShuffleIndex | MusicPlayerApp.tsx:105-110 | the shuffle pick is in [0, n); it differs from the current position when n > 1, is 0 when n == 1, and differs from the draw only when the draw hit the current song, in which case it is the next position, cyclically |
| MusicPlayerApp.ShuffleCanPickAnyOther | MusicPlayerApp.tsx:106-110 | every position other than the current one is picked by some random value |
| MusicPlayerApp.Initial | MusicPlayerApp.tsx:15-27 | mounting: the given catalog, nothing current, not playing, the catalog as queue, position and duration 0, volume and saved volume 0.75, no shuffle or repeat, the 'Home' view, an empty search, no toast, no likes |
| MusicPlayerApp.CurrentSong | MusicPlayerApp.tsx:31 | the current song exists iff the current id is in the catalog; it is the first catalog record with that id, as `find` returns it |
| MusicPlayerApp.IsCurrentSongLiked | MusicPlayerApp.tsx:241 | true iff a current song resolves and its id is liked |
| MusicPlayerApp.CatalogChanged | MusicPlayerApp.tsx:33-35 | a new catalog also becomes the queue; nothing else changes |
| MusicPlayerApp.Play | MusicPlayerApp.tsx:56-82 | an unknown id changes nothing. A known id becomes current and playing, the toast names its title, and the queue is the passed context verbatim or else the displayed list. Only those four fields change |
| MusicPlayerApp.PlayPause | MusicPlayerApp.tsx:84-97 | with no current id and a non-empty catalog, it is exactly `Play` of the first song with the whole catalog as queue (id, play flag, toast and queue set, nothing else changed); otherwise only flips the play flag |
| MusicPlayerApp.NextPosition | MusicPlayerApp.tsx:102-113 | the next position is in the queue, and with shuffle on and more than one song it is not the current position |
| MusicPlayerApp.Next | MusicPlayerApp.tsx:99-118 | no-op when the current id is falsy (null or 0) or the queue is empty; otherwise plays the song at the next position with the same queue |
| MusicPlayerApp.Prev | MusicPlayerApp.tsx:120-132 | no-op as for next. After 3 s it only rewinds to 0; otherwise it plays the previous position's song with the same queue |
| MusicPlayerApp.SetPosition | MusicPlayerApp.tsx:134-140 | seeking, and the `timeupdate` callback, set the position and nothing else |
| MusicPlayerApp.SetDuration | MusicPlayerApp.tsx:170 | the `loadedmetadata` callback sets the duration and nothing else |
| MusicPlayerApp.VolumeChange | MusicPlayerApp.tsx:142-151 | the volume becomes v; v is saved for unmuting only when v > 0 |
| MusicPlayerApp.MuteToggle | MusicPlayerApp.tsx:153-163 | an audible volume is saved and set to 0; at 0 the saved volume is restored, or 0.5 if the saved one is not positive |
| MusicPlayerApp.LikeToggled | MusicPlayerApp.tsx:44-54 | exactly the membership of that id in the liked set flips |
| MusicPlayerApp.ToggleShuffle | MusicPlayerApp.tsx:248 | flips only the shuffle flag |
| MusicPlayerApp.ToggleRepeat | MusicPlayerApp.tsx:249 | flips only the repeat flag |
| MusicPlayerApp.SongEnded | MusicPlayerApp.tsx:171-177 | at track end, repeat rewinds the same song to 0; otherwise it behaves as next |
| MusicPlayerApp.SearchChanged | MusicPlayerApp.tsx:228 | the search box sets only the query |
| MusicPlayerApp.ViewChanged | MusicPlayerApp.tsx:222 | the sidebar sets only the active view |
| MusicPlayerApp.StepKeepsValid | MusicPlayerApp.tsx:142-163 | every handler keeps the saved volume positive |
| MusicPlayerApp.RunKeepsValid | MusicPlayerApp.tsx:21 | the saved volume stays positive over any sequence of handler calls |
| MusicPlayerApp.UnmuteRestoresSaved | MusicPlayerApp.tsx:159 | in every reachable state, unmuting restores exactly the saved volume (the 0.5 fallback is never used) |
| MusicPlayerApp.PlayKeepsQueueInCatalog | MusicPlayerApp.tsx:64-80 | playing keeps every queued song in the catalog, provided the context passed is in the catalog |
| MusicPlayerApp.NextInOrder | MusicPlayerApp.tsx:112-116 | without shuffle, next plays the song at (i + 1) mod n |
| MusicPlayerApp.NextFromOutsideQueue | MusicPlayerApp.tsx:102-116 | without shuffle, a current song missing from the queue is followed by the queue's first song |
| MusicPlayerApp.ShuffleNeverRepeats | MusicPlayerApp.tsx:105-110 | with shuffle, a queue of more than one distinct id held by the catalog, and the current song in it, next never replays the current song |
| MusicPlayerApp.ShuffleSingleReplays | MusicPlayerApp.tsx:106-108 | with shuffle and a queue of one, next replays that song |
| MusicPlayerApp.PrevAfterNext | MusicPlayerApp.tsx:112-129 | without shuffle, within 3 s of the start, with distinct non-zero ids in a queue the catalog holds and the current song in it, previous right after next returns to the starting song with the same queue |
| MusicPlayerApp.PrevAfterNextWithReset | MusicPlayerApp.tsx:112-129 | with the position reset to 0 that the media element's reload causes between the presses, previous right after next returns to the starting song with the same queue, whatever the position before |
| MusicPlayerApp.NextAfterPrev | MusicPlayerApp.tsx:112-129 | under the same hypotheses, next right after previous returns to the starting song |
| MusicPlayerApp.MuteTwiceRestores | MusicPlayerApp.tsx:153-163 | muting and then unmuting an audible volume restores it |
| MusicPlayerApp.ToggleLikeTwice | MusicPlayerApp.tsx:44-54 | liking twice is the identity |
| MusicPlayerApp.DeletedCurrentSong | MusicPlayerApp.tsx:31-35 | when the current id leaves the catalog, nothing resolves as current and play/pause only flips the play flag |
| MusicPlayerApp.EndedAdvances | MusicPlayerApp.tsx:171-177 | in catalog [A(1), B(2)], playing A and letting it end plays B |
| MusicPlayerApp.PlaybackSession.constructor | MusicPlayerApp.tsx:15-27 | the fields start as `Initial` |
| MusicPlayerApp.PlaybackSession.OnSongsChanged | MusicPlayerApp.tsx:33-35 | the new state is `CatalogChanged` of the old |
| MusicPlayerApp.PlaybackSession.ToggleLike | MusicPlayerApp.tsx:44-54 | the new state is `LikeToggled` of the old |
| MusicPlayerApp.PlaybackSession.GetContentSongs | MusicPlayerApp.tsx:213-217 | returns the list on screen for the current fields: search results, then liked songs, then the whole catalog |
| MusicPlayerApp.PlaybackSession.PlaySong | MusicPlayerApp.tsx:56-82 | the new state is `Play` of the old |
| MusicPlayerApp.PlaybackSession.HandlePlayPause | MusicPlayerApp.tsx:84-97 | the new state is `PlayPause` of the old |
| MusicPlayerApp.PlaybackSession.HandleNext | MusicPlayerApp.tsx:99-118 | the new state is `Next` of the old |
| MusicPlayerApp.PlaybackSession.HandlePrev | MusicPlayerApp.tsx:120-132 | the new state is `Prev` of the old |
| MusicPlayerApp.PlaybackSession.HandleSeek | MusicPlayerApp.tsx:134-140 | the new state is `SetPosition` of the old |
| MusicPlayerApp.PlaybackSession.OnLoadedMetadata | MusicPlayerApp.tsx:170 | the new state is `SetDuration` of the old |
| MusicPlayerApp.PlaybackSession.HandleVolumeChange | MusicPlayerApp.tsx:142-151 | the new state is `VolumeChange` of the old |
| MusicPlayerApp.PlaybackSession.HandleMuteToggle | MusicPlayerApp.tsx:153-163 | the new state is `MuteToggle` of the old |
| MusicPlayerApp.PlaybackSession.OnShuffle | MusicPlayerApp.tsx:248 | the new state is `ToggleShuffle` of the old |
| MusicPlayerApp.PlaybackSession.OnRepeat | MusicPlayerApp.tsx:249 | the new state is `ToggleRepeat` of the old |
| MusicPlayerApp.PlaybackSession.HandleSongEnd | MusicPlayerApp.tsx:171-177 | the new state is `SongEnded` of the old |
| MusicPlayerApp.PlaybackSession.SetSearchQuery | MusicPlayerApp.tsx:228 | the new state is `SearchChanged` of the old |
| MusicPlayerApp.PlaybackSession.SetActiveView | MusicPlayerApp.tsx:222 | the new state is `ViewChanged` of the old |
| App.AddSongs | App.tsx:34-36 | the old catalog followed by the new records, both in their original order |
| App.AddSongsKeepsUnique | App.tsx:35 | appending distinct, new ids keeps all ids distinct |
| App.UpdateSong | App.tsx:38-39 | same length; each position is replaced by the edited record iff its id matches, and is otherwise unchanged |
| App.UpdateSongKeepsIds | App.tsx:39 | an update keeps every position's id and the id set, keeps ids distinct, and is a no-op when the id is absent |
| App.DeleteSong | App.tsx:45 | exactly the records with that id are removed |
| App.DeleteSongKeepsOrder | App.tsx:45 | the remaining records keep their relative order |
| App.DeleteAbsentIsNoOp | App.tsx:45 | deleting an absent id changes nothing |
| App.FilterKeepsUnique | App.tsx:45 | filtering a catalog with distinct ids leaves them distinct |
| App.DeleteSongKeepsUnique | App.tsx:45 | a confirmed delete keeps ids distinct |
| App.ApplyAllKeepsUnique | App.tsx:34-47 | any sequence of fresh additions, updates and confirmed or refused deletes keeps ids distinct |
| App.PlayerAfterDelete | App.tsx:54-84 | after a delete the player remounts with nothing current, and play/pause starts the first remaining record, never the deleted one |
| App.SelectScreen | App.tsx:53-84 | 'adminLogin' shows login; 'adminDashboard' shows the dashboard iff authenticated and login otherwise; 'player' shows the player; the dashboard carries the record being edited |
| App.InitialAuth | App.tsx:14-16 | authenticated iff the stored flag is exactly 'true' |
| App.AppState.constructor | App.tsx:13-19 | the seed catalog; authentication from the stored flag; the dashboard view iff authenticated, the player otherwise; no record being edited |
| App.AppState.HandleLoginSuccess | App.tsx:22-26 | stores the flag, sets authentication and the dashboard view, so the dashboard is shown |
| App.AppState.HandleLogout | App.tsx:28-32 | removes the flag, clears authentication, sets the player view, so the player is shown |
| App.AppState.HandleAddSongs | App.tsx:34-36 | the catalog becomes `AddSongs` of the old one; nothing else changes |
| App.AppState.HandleUpdateSong | App.tsx:38-41 | the catalog becomes `UpdateSong` of the old one, distinct ids stay distinct, and the edit dialog closes |
| App.AppState.HandleDeleteSong | App.tsx:43-47 | confirmed: the catalog becomes `DeleteSong` of the old one; refused: unchanged |
| App.AppState.Navigate | App.tsx:49-51 | sets the view without checking authentication |
| App.AppState.EditSong | App.tsx:66 | opens the edit dialog on the record |
| App.AppState.CloseEditor | App.tsx:72 | closes the edit dialog without touching the catalog |
| App.LoginThenReload | App.tsx:14-84 | starting unauthenticated shows the player; navigating to login shows login; logging in shows the dashboard; a reload in the same session starts on the dashboard |
| AdminDashboard.LastDot | pages/AdminDashboard.tsx:80 | the position of the last '.' of a name, or none when it has no dot |
| AdminDashboard.StripExtension | pages/AdminDashboard.tsx:80 | `/\.[^/.]+$/` removal: the result is a prefix; if shorter, a '.' follows it and then a non-empty tail with no '.' or '/'; if unchanged, no dot is followed by such a tail |
| AdminDashboard.StripExtensionExamples | pages/AdminDashboard.tsx:80 | "a.b.mp3" gives "a.b", "noext" stays "noext", "x." stays "x." |
| AdminDashboard.OrElse | pages/AdminDashboard.tsx:80-82 | `value \|\| fallback`: missing and empty values fall back, other values are kept |
| AdminDashboard.DurationOrZero | pages/AdminDashboard.tsx:83 | `duration \|\| 0`: a missing or NaN duration gives 0 |
| AdminDashboard.BuildSong | pages/AdminDashboard.tsx:78-86 | the record takes the allotted id and the file's object URL, and has no like flag |
| AdminDashboard.BuildSongFallbacks | pages/AdminDashboard.tsx:71-86 | title falls back to the name without its extension, then 'Unknown Artist', 'Unknown Album', duration 0, and the default cover; present, non-empty tags are kept |
| AdminDashboard.Successes | pages/AdminDashboard.tsx:61-90 | the files whose metadata parsed, in picking order |
| AdminDashboard.MaxId | pages/AdminDashboard.tsx:59 | `Math.max` of the ids is one of them and at least all of them |
| AdminDashboard.FirstCandidateId | pages/AdminDashboard.tsx:59 | the first candidate exceeds every catalog id: it is max+1 for a non-empty catalog, and 1 for an empty one |
| AdminDashboard.ImportedSongs | pages/AdminDashboard.tsx:61-91 | the import yields at most one record per file, and the k-th record has id firstId + k |
| AdminDashboard.SuccessesAppend | pages/AdminDashboard.tsx:61-90 | one more file adds itself to the parsed files exactly when it parses |
| AdminDashboard.ImportedInFileOrder | pages/AdminDashboard.tsx:61-91 | exactly one record per parsed file, in file order, the k-th built from the k-th parsed file with id firstId + k |
| AdminDashboard.ImportedIdsFresh | pages/AdminDashboard.tsx:58-69 | imported ids strictly increase and none is in the catalog, so adding the batch keeps catalog ids distinct |
| AdminDashboard.FailedFileSkipped | pages/AdminDashboard.tsx:62-63 | a file whose parse throws yields no record and uses up no id |
| AdminDashboard.SuccessesSkipFailed | pages/AdminDashboard.tsx:88-90 | a failing file leaves the list of parsed files unchanged |
| AdminDashboard.HandleFileChange | pages/AdminDashboard.tsx:45-101 | no files: nothing happens. Missing library: an alert and nothing added. Otherwise the batch is `ImportedSongs`, and is handed to `onAddSongs` iff it is non-empty |
| AdminDashboard.NextFreeId | pages/AdminDashboard.tsx:66-68 | the scan stops at an id not in use, above every id in use, one step at most past the start because no id in use exceeds it |
| AdminDashboard.ImportedSongsStep | pages/AdminDashboard.tsx:61-91 | one more file extends the import by its record, under the next consecutive id, exactly when it parses |
| AdminDashboard.ImportOne | pages/AdminDashboard.tsx:62-90 | one loop turn: the records become the import of the files up to this one, and no id in use is above the last one handed out |
| AdminDashboard.ConsecutiveIdsFresh | pages/AdminDashboard.tsx:58-69 | ids numbered consecutively from above the catalog's largest strictly increase, are all new, and keep catalog ids distinct once appended |
| AdminDashboard.ImportFiles | pages/AdminDashboard.tsx:56-91 | the allocation loop yields exactly `ImportedSongs` of the files from the first candidate id |
| AdminDashboard.FormatDuration | pages/AdminDashboard.tsx:13-18 | 'N/A' exactly for NaN; otherwise the same `m:ss` as the content pane |
| AdminDashboard.ButtonText | pages/AdminDashboard.tsx:107-111 | 'Processing...' wins over 'Initializing...', which wins over 'Add New Songs' |
| AdminDashboard.AddButtonEnabled | pages/AdminDashboard.tsx:134 | the button is enabled iff its label is 'Add New Songs' |
| AdminDashboard.Table | pages/AdminDashboard.tsx:162-187 | one row per record, numbered index + 1, showing the formatted duration |
| AdminLogin.ShowsError | pages/AdminLogin.tsx:57 | the error line is shown iff the error text is non-empty |
| AdminLogin.LoginForm.constructor | pages/AdminLogin.tsx:8-9 | starts with an empty password and no error shown |
| AdminLogin.LoginForm.HandleSubmit | pages/AdminLogin.tsx:11-20 | success iff the password is exactly 'admin123'. On failure the error becomes 'Invalid password. Please try again.' and is shown; the password is kept either way |
| AdminLogin.LoginForm.OnPasswordChange | pages/AdminLogin.tsx:48-51 | stores the typed text and clears the error |
| AdminLogin.WrongThenRight | pages/AdminLogin.tsx:11-57 | a wrong password is refused and shows the error; editing hides it; the right password is accepted; a case variant is refused |
| EditSongModal.FormOf | components/EditSongModal.tsx:11-24 | the form holds the record's title, artist and album |
| EditSongModal.WithField | components/EditSongModal.tsx:26-29 | the named field takes the value and the other two are unchanged |
| EditSongModal.WithFieldLaws | components/EditSongModal.tsx:26-29 | re-typing a field's value changes nothing, and the last edit of a field wins |
| EditSongModal.Merge | components/EditSongModal.tsx:33 | `{...song, ...formData}`: id, duration, cover, audio URL and like flag come from the record, and title, artist and album from the form |
| EditSongModal.MergeRoundTrip | components/EditSongModal.tsx:11-33 | an untouched form gives back the record; reopening a saved record shows the saved form |
| EditSongModal.EditDialog.constructor | components/EditSongModal.tsx:11-15 | the form starts from the record |
| EditSongModal.EditDialog.SongChanged | components/EditSongModal.tsx:17-24 | a new record resets the form to its fields |
| EditSongModal.EditDialog.HandleChange | components/EditSongModal.tsx:26-29 | the form becomes `WithField` of the old form |
| EditSongModal.EditDialog.Submitted | components/EditSongModal.tsx:31-34 | the saved record is `Merge` of the record and the form: the form's three fields, and id, duration, cover, audio URL and like flag from the record |
| EditSongModal.Dispatch | components/EditSongModal.tsx:37-43 | Cancel and the backdrop call `onClose`; submit calls `onSave` with the merged record; a click inside the panel calls nothing |
| EditSongModal.EditTitleAndSave | components/EditSongModal.tsx:26-34 | editing only the title and saving gives the record with just the title changed |
| MainView.FormatDuration | components/MainView.tsx:16-20 | the text has at least four characters |
| MainView.FormatDurationFields | components/MainView.tsx:16-20 | a decimal minutes field, ':', then exactly two digits worth less than 60, with minutes * 60 + seconds equal to the input |
| MainView.FormatDurationInjective | components/MainView.tsx:16-20 | different durations never print the same |
| MainView.Cards | components/MainView.tsx:113-114 | one card per song, in order, each passing the given context |
| MainView.Rows | components/MainView.tsx:55-72 | one row per song: numbered index + 1, the heart solid iff the id is liked, a click passes the whole displayed list |
| MainView.PlaceholderTitle | components/MainView.tsx:168-175 | 'Playlists', 'Artists' and 'Albums' name their page; every other view is 'Coming Soon' |
| MainView.RenderContent | components/MainView.tsx:106-177 | a non-empty search overrides the view with the result grid. Home passes songs[0..5) and songs[5..8) as contexts. 'Songs' and 'Liked Songs' list rows; 'Liked Songs' also shows the count. Any other view gets a placeholder |
| MainView.ClickedSongInContext | components/MainView.tsx:55-140 | on every page, the context a click passes holds the clicked song, and every song shown comes from the given list |
| PlayerControls.FormatTime | components/PlayerControls.tsx:26-31 | '0:00' for NaN; for a whole number, the content pane's `m:ss` (for 0 too) |
| PlayerControls.ProgressPercentage | components/PlayerControls.tsx:52 | 0 when the duration is not positive; otherwise percentage * duration = position * 100; within [0, 100] while the position lies in the track |
| PlayerControls.PlayTitle | components/PlayerControls.tsx:97 | 'Pause' iff playing, 'Play' otherwise |
| PlayerControls.MuteTitle | components/PlayerControls.tsx:128 | 'Mute' iff the volume is positive, 'Unmute' otherwise |
| PlayerControls.MuteIcon | components/PlayerControls.tsx:129 | the crossed-out speaker iff the volume is exactly 0 |
| PlayerControls.MuteTitleMatchesIcon | components/PlayerControls.tsx:128-129 | for non-negative volumes, 'Unmute' iff the crossed-out icon; only a negative volume would split them |
| PlayerControls.NowPlayingPanel | components/PlayerControls.tsx:57-86 | no song gives the placeholder and no like button; otherwise the like button targets the song's id and reads 'Unlike' iff liked |
| PlayerControls.PanelForSession | components/PlayerControls.tsx:57-85 | the placeholder shows iff the current id resolves to no catalog record; clicking the like button flips its label |

## Left out

- Media element plumbing is not modelled: loading sources, `play()` and `pause()`, and the promise rejections that are only logged (MusicPlayerApp.tsx:91-94, 165-203). Transport is abstract, and the `timeupdate` and `loadedmetadata` callbacks are the `SetPosition` and `SetDuration` transitions.
- Repeat at track end also calls `audio.play()`; the model records only the rewind, because `isPlaying` is left untouched there.
- The position reset on a track change comes from the media element: the effect at MusicPlayerApp.tsx:191-201 reloads it and the `timeupdate` callback copies 0 into the state. The model has this as a separate `SetPosition` event, so `PrevAfterNext` assumes the position is within the first three seconds, and `PrevAfterNextWithReset` puts the reset event between the two presses.
- The toast's three-second timer is left out; the model keeps only the last message, "Now Playing: <title>".
- The metadata library is left out: its readiness polling, `parseBlob`, `Blob` and `URL.createObjectURL`. Its results are inputs: a parse result, or `None` when parsing threw, plus opaque URL strings.
- `isProcessing` goes true then false around the import. It is not a field because each handler is modelled as one atomic step; `ButtonText` takes it as an argument.
- `sessionStorage` and `window.confirm` are inputs, not browser calls.
- The password input's `required` attribute is left out: a browser may block submitting an empty field before `handleSubmit` runs. The model follows `handleSubmit` itself, which rejects the empty string.
- `Math.random` is an argument in [0, 1).
- Durations and positions shown by the formatters are whole, non-negative seconds, or NaN (`Js.Numeric`). The source floors fractional seconds before printing, so fractional input is not modelled.
- A fractional `metadata.format.duration` is not modelled: the model's duration tag is already whole seconds. Volumes and positions are `real`, with no IEEE rounding.
- Js.ToLower: lower-cases only ASCII letters, because full Unicode case mapping is out of scope; search over non-ASCII titles is therefore not faithful.
- Js.JsRem: states the sign, the bound, and agreement with the mathematical remainder for non-negative dividends. For negative dividends it gives only the sign, not the divisibility of a - r by n, because that arithmetic fact is too costly for the solver. The two negative cases the player reaches are pinned down by `MusicPlayerApp.PrevIndex`.
- MainView.FormatDuration: its own contract gives only the length; the meaning of the text is stated by `MainView.FormatDurationFields` and `MainView.FormatDurationInjective`.
- AdminDashboard.BuildSong: its own contract covers id, audio URL and like flag; the fallbacks are stated by `AdminDashboard.BuildSongFallbacks`, to keep the import proofs small.
- Rendering is not modelled: the JSX and styling, the sidebar (menu buttons only), the content pane's click-outside menu, and the table's edit and delete buttons (they call `App.AppState.EditSong` and `App.AppState.HandleDeleteSong`).
- The player's `navigate('adminLogin')` is `App.AppState.Navigate`.
- `Artist`, `Album` and `Playlist` in types.ts are unused by the core and not modelled.
- React scheduling (stale closures, batched setters) is not modelled; every handler is one atomic step over the state before it.
