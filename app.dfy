/**
  * The application shell (App.tsx): the catalog store with its three mutations,
  * and the three-way view switch gated by the session's authentication flag.
  */
module App {
  import opened Types
  import opened Js
  import MockData
  import MusicPlayerApp

  /** The screens a `view` names: 'player', 'adminLogin' and 'adminDashboard'. */
  datatype View = PlayerView | LoginView | DashboardView

  /** What the shell renders; the dashboard carries the record open in the edit dialog, if any. */
  datatype Screen = PlayerScreen | LoginScreen | DashboardScreen(editor: Option<Song>)

  /** The value the session store holds under 'isAdminAuthenticated' once logged in. */
  const AuthenticatedFlag: string := "true"

  // ---------------------------------------------------------------------------
  // Catalog mutations

  /** `handleAddSongs`: the old catalog followed by the new records, both in their order. */
  function AddSongs(catalog: seq<Song>, newSongs: seq<Song>): (r: seq<Song>)
    ensures |r| == |catalog| + |newSongs|
    ensures r[..|catalog|] == catalog && r[|catalog|..] == newSongs
  {
    catalog + newSongs
  }

  /** Appending records whose identifiers are distinct and new keeps the catalog's identifiers distinct. */
  lemma AddSongsKeepsUnique(catalog: seq<Song>, newSongs: seq<Song>)
    requires UniqueIds(catalog) && UniqueIds(newSongs)
    requires IdSet(catalog) !! IdSet(newSongs)
    ensures UniqueIds(AddSongs(catalog, newSongs))
  {
    var r := AddSongs(catalog, newSongs);
    forall i, j | 0 <= i < j < |r| ensures r[i].id != r[j].id {
      if j >= |catalog| && i < |catalog| {
        assert r[i] == catalog[i] && catalog[i] in catalog;
        assert r[j] == newSongs[j - |catalog|] && newSongs[j - |catalog|] in newSongs;
        assert r[i].id in IdSet(catalog) && r[j].id in IdSet(newSongs);
      } else if j >= |catalog| {
        assert r[i] == newSongs[i - |catalog|] && r[j] == newSongs[j - |catalog|];
      }
    }
  }

  /** `handleUpdateSong`: every record carrying the edited record's identifier is replaced by it. */
  function UpdateSong(catalog: seq<Song>, updated: Song): (r: seq<Song>)
    ensures |r| == |catalog|
    ensures forall i :: 0 <= i < |catalog| ==>
              r[i] == if catalog[i].id == updated.id then updated else catalog[i]
  {
    seq(|catalog|, i requires 0 <= i < |catalog| =>
      if catalog[i].id == updated.id then updated else catalog[i])
  }

  /**
    * An update keeps every position's identifier, so it keeps them distinct,
    * and it changes nothing when the identifier is absent.
    */
  lemma UpdateSongKeepsIds(catalog: seq<Song>, updated: Song)
    ensures forall i :: 0 <= i < |catalog| ==> UpdateSong(catalog, updated)[i].id == catalog[i].id
    ensures IdSet(UpdateSong(catalog, updated)) == IdSet(catalog)
    ensures UniqueIds(catalog) ==> UniqueIds(UpdateSong(catalog, updated))
    ensures updated.id !in IdSet(catalog) ==> UpdateSong(catalog, updated) == catalog
  {
    var r := UpdateSong(catalog, updated);
    forall x | x in IdSet(r) ensures x in IdSet(catalog) {
      var s :| s in r && s.id == x;
      var i :| 0 <= i < |r| && r[i] == s;
      assert catalog[i] in catalog;
    }
    forall x | x in IdSet(catalog) ensures x in IdSet(r) {
      var s :| s in catalog && s.id == x;
      var i :| 0 <= i < |catalog| && catalog[i] == s;
      assert r[i] in r;
    }
    if updated.id !in IdSet(catalog) {
      forall i | 0 <= i < |catalog| ensures r[i] == catalog[i] {
        assert catalog[i] in catalog;
      }
    }
  }

  /** `handleDeleteSong` once confirmed: exactly the records with that identifier are removed. */
  function DeleteSong(catalog: seq<Song>, id: int): (r: seq<Song>)
    ensures forall s :: s in r <==> s in catalog && s.id != id
    ensures id !in IdSet(r)
  {
    Filter(catalog, (s: Song) => s.id != id)
  }

  /** Deleting keeps the remaining records in their relative order. */
  lemma DeleteSongKeepsOrder(a: seq<Song>, b: seq<Song>, id: int)
    ensures DeleteSong(a + b, id) == DeleteSong(a, id) + DeleteSong(b, id)
  {
    FilterConcat(a, b, (s: Song) => s.id != id);
  }

  /** Deleting an identifier the catalog does not hold changes nothing. */
  lemma DeleteAbsentIsNoOp(catalog: seq<Song>, id: int)
    requires id !in IdSet(catalog)
    ensures DeleteSong(catalog, id) == catalog
  {
    forall s | s in catalog ensures s.id != id {
      assert s.id in IdSet(catalog);
    }
    FilterKeepsAll(catalog, (s: Song) => s.id != id);
  }

  /** Filtering a catalog whose identifiers are distinct leaves them distinct. */
  lemma {:induction false} FilterKeepsUnique(catalog: seq<Song>, keep: Song -> bool)
    requires UniqueIds(catalog)
    ensures UniqueIds(Filter(catalog, keep))
  {
    if catalog != [] {
      var rest := catalog[1..];
      assert UniqueIds(rest) by {
        forall i, j | 0 <= i < j < |rest| ensures rest[i].id != rest[j].id {
          assert rest[i] == catalog[i + 1] && rest[j] == catalog[j + 1];
        }
      }
      FilterKeepsUnique(rest, keep);
      if keep(catalog[0]) {
        var r := Filter(rest, keep);
        forall j | 0 <= j < |r| ensures r[j].id != catalog[0].id {
          assert r[j] in rest;
          var k :| 0 <= k < |rest| && rest[k] == r[j];
          assert rest[k] == catalog[k + 1];
        }
        var out := [catalog[0]] + r;
        forall i, j | 0 <= i < j < |out| ensures out[i].id != out[j].id {
          if i > 0 {
            assert out[i] == r[i - 1] && out[j] == r[j - 1];
          } else {
            assert out[j] == r[j - 1];
          }
        }
      }
    }
  }

  /** A confirmed delete keeps the catalog's identifiers distinct. */
  lemma DeleteSongKeepsUnique(catalog: seq<Song>, id: int)
    requires UniqueIds(catalog)
    ensures UniqueIds(DeleteSong(catalog, id))
  {
    FilterKeepsUnique(catalog, (s: Song) => s.id != id);
  }

  /** A catalog mutation as the dashboard requests it; a delete carries the user's confirmation. */
  datatype CatalogOp = Add(newSongs: seq<Song>) | Update(updated: Song) | Delete(id: int, confirmed: bool)

  function Apply(catalog: seq<Song>, op: CatalogOp): seq<Song>
  {
    match op
    case Add(newSongs) => AddSongs(catalog, newSongs)
    case Update(updated) => UpdateSong(catalog, updated)
    case Delete(id, confirmed) => if confirmed then DeleteSong(catalog, id) else catalog
  }

  /** An addition brings distinct identifiers that the catalog does not hold yet. */
  predicate FreshAddition(catalog: seq<Song>, op: CatalogOp)
  {
    op.Add? ==> UniqueIds(op.newSongs) && IdSet(catalog) !! IdSet(op.newSongs)
  }

  /** The catalog after a sequence of mutations, or None once an addition is not fresh. */
  function ApplyAll(catalog: seq<Song>, ops: seq<CatalogOp>): Option<seq<Song>>
    decreases |ops|
  {
    if ops == [] then Some(catalog)
    else if !FreshAddition(catalog, ops[0]) then None
    else ApplyAll(Apply(catalog, ops[0]), ops[1..])
  }

  /** Any sequence of fresh additions, updates and deletes keeps the identifiers distinct. */
  lemma {:induction false} ApplyAllKeepsUnique(catalog: seq<Song>, ops: seq<CatalogOp>)
    requires UniqueIds(catalog)
    ensures ApplyAll(catalog, ops).Some? ==> UniqueIds(ApplyAll(catalog, ops).value)
    decreases |ops|
  {
    if ops != [] && FreshAddition(catalog, ops[0]) {
      match ops[0] {
        case Add(newSongs) => AddSongsKeepsUnique(catalog, newSongs);
        case Update(updated) => UpdateSongKeepsIds(catalog, updated);
        case Delete(id, confirmed) => if confirmed { DeleteSongKeepsUnique(catalog, id); }
      }
      ApplyAllKeepsUnique(Apply(catalog, ops[0]), ops[1..]);
    }
  }

  /**
    * The player is only mounted on the player view, so a catalog edited on the
    * dashboard reaches a freshly mounted session: nothing is current, and
    * play/pause starts the first remaining record, never the deleted one.
    */
  lemma PlayerAfterDelete(catalog: seq<Song>, id: int)
    ensures var s := MusicPlayerApp.Initial(DeleteSong(catalog, id));
      MusicPlayerApp.CurrentSong(s).None? &&
      (|DeleteSong(catalog, id)| > 0 ==>
         var t := MusicPlayerApp.PlayPause(s);
         t.isPlaying && t.currentSongId == Some(DeleteSong(catalog, id)[0].id) && t.currentSongId != Some(id))
  {
    var rest := DeleteSong(catalog, id);
    if |rest| > 0 {
      assert rest[0] in rest;
    }
  }

  // ---------------------------------------------------------------------------
  // Views

  /**
    * The render-time choice: the login view shows the login form, the dashboard
    * view shows the dashboard only to an authenticated operator (and the login
    * form otherwise), and every other view shows the player.
    */
  function SelectScreen(view: View, isAuthenticated: bool, editingSong: Option<Song>): (r: Screen)
    ensures r.DashboardScreen? <==> view == DashboardView && isAuthenticated
    ensures r == LoginScreen <==> view == LoginView || (view == DashboardView && !isAuthenticated)
    ensures r == PlayerScreen <==> view == PlayerView
    ensures r.DashboardScreen? ==> r.editor == editingSong
  {
    match view
    case LoginView => LoginScreen
    case DashboardView => if isAuthenticated then DashboardScreen(editingSong) else LoginScreen
    case PlayerView => PlayerScreen
  }

  /** The initial authentication flag and view, read once from the session store. */
  function InitialAuth(stored: Option<string>): (auth: bool)
    ensures auth <==> stored == Some(AuthenticatedFlag)
  {
    stored == Some(AuthenticatedFlag)
  }

  /** The shell's state: the catalog, the view, the authentication flag and the record being edited. */
  class AppState {
    var songs: seq<Song>
    var isAuthenticated: bool
    var view: View
    var editingSong: Option<Song>
    /** The session store's 'isAdminAuthenticated' entry, which outlives a reload. */
    var sessionFlag: Option<string>

    /** Mounting: the seed catalog, and the dashboard exactly when the stored flag says 'true'. */
    constructor (stored: Option<string>)
      ensures songs == MockData.MockSongs
      ensures isAuthenticated == InitialAuth(stored)
      ensures view == if isAuthenticated then DashboardView else PlayerView
      ensures editingSong == None && sessionFlag == stored
    {
      songs := MockData.MockSongs;
      isAuthenticated := InitialAuth(stored);
      view := if InitialAuth(stored) then DashboardView else PlayerView;
      editingSong := None;
      sessionFlag := stored;
    }

    function Screen(): Screen
      reads this
    {
      SelectScreen(view, isAuthenticated, editingSong)
    }

    method HandleLoginSuccess()
      modifies this
      ensures sessionFlag == Some(AuthenticatedFlag) && isAuthenticated && view == DashboardView
      ensures songs == old(songs) && editingSong == old(editingSong)
      ensures Screen() == DashboardScreen(editingSong)
    {
      sessionFlag := Some(AuthenticatedFlag);
      isAuthenticated := true;
      view := DashboardView;
    }

    method HandleLogout()
      modifies this
      ensures sessionFlag == None && !isAuthenticated && view == PlayerView
      ensures songs == old(songs) && editingSong == old(editingSong)
      ensures Screen() == PlayerScreen
    {
      sessionFlag := None;
      isAuthenticated := false;
      view := PlayerView;
    }

    method HandleAddSongs(newSongs: seq<Song>)
      modifies this
      ensures songs == AddSongs(old(songs), newSongs)
      ensures isAuthenticated == old(isAuthenticated) && view == old(view)
      ensures editingSong == old(editingSong) && sessionFlag == old(sessionFlag)
    {
      songs := songs + newSongs;
    }

    /** Saving the edit dialog: the catalog is updated and the dialog closes. */
    method HandleUpdateSong(updatedSong: Song)
      modifies this
      ensures songs == UpdateSong(old(songs), updatedSong) && editingSong == None
      ensures UniqueIds(old(songs)) ==> UniqueIds(songs)
      ensures isAuthenticated == old(isAuthenticated) && view == old(view)
      ensures sessionFlag == old(sessionFlag)
    {
      UpdateSongKeepsIds(songs, updatedSong);
      songs := seq(|songs|, i requires 0 <= i < |songs| reads this =>
        if songs[i].id == updatedSong.id then updatedSong else songs[i]);
      editingSong := None;
    }

    /** Deleting asks for confirmation (`confirmed`); without it nothing changes. */
    method HandleDeleteSong(songId: int, confirmed: bool)
      modifies this
      ensures songs == if confirmed then DeleteSong(old(songs), songId) else old(songs)
      ensures UniqueIds(old(songs)) ==> UniqueIds(songs)
      ensures isAuthenticated == old(isAuthenticated) && view == old(view)
      ensures editingSong == old(editingSong) && sessionFlag == old(sessionFlag)
    {
      if confirmed {
        if UniqueIds(songs) {
          DeleteSongKeepsUnique(songs, songId);
        }
        songs := Filter(songs, (s: Song) => s.id != songId);
      }
    }

    /** `navigate`: the view changes without any check of the authentication flag. */
    method Navigate(newView: View)
      modifies this
      ensures view == newView
      ensures songs == old(songs) && isAuthenticated == old(isAuthenticated)
      ensures editingSong == old(editingSong) && sessionFlag == old(sessionFlag)
    {
      view := newView;
    }

    /** The dashboard's edit button (`onEditSong`): the dialog opens on that record. */
    method EditSong(song: Song)
      modifies this
      ensures editingSong == Some(song)
      ensures songs == old(songs) && isAuthenticated == old(isAuthenticated)
      ensures view == old(view) && sessionFlag == old(sessionFlag)
    {
      editingSong := Some(song);
    }

    /** The dialog's `onClose`: it closes without touching the catalog. */
    method CloseEditor()
      modifies this
      ensures editingSong == None
      ensures songs == old(songs) && isAuthenticated == old(isAuthenticated)
      ensures view == old(view) && sessionFlag == old(sessionFlag)
    {
      editingSong := None;
    }
  }

  /**
    * Starting without the stored flag shows the player; navigating to the admin
    * login shows the login form; a successful login shows the dashboard; and a
    * reload in the same session starts on the dashboard.
    */
  method LoginThenReload() returns (atStart: Screen, atLogin: Screen, afterLogin: Screen, afterReload: Screen)
    ensures atStart == PlayerScreen && atLogin == LoginScreen
    ensures afterLogin == DashboardScreen(None) && afterReload == DashboardScreen(None)
  {
    var app := new AppState(None);
    atStart := app.Screen();
    app.Navigate(LoginView);
    atLogin := app.Screen();
    app.HandleLoginSuccess();
    afterLogin := app.Screen();
    var reloaded := new AppState(app.sessionFlag);
    afterReload := reloaded.Screen();
  }
}
