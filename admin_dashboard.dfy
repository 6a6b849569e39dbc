/**
  * The administrator's library screen (pages/AdminDashboard.tsx): the bulk import
  * that turns picked audio files into catalog records, with its identifier
  * allocation loop and metadata fallbacks, plus the table's duration formatter
  * and the import button's label.
  */
module AdminDashboard {
  import opened Types
  import opened Js
  import MainView
  import App

  /** The cover used when a file carries no embedded picture. */
  const DefaultCover: string := "https://picsum.photos/seed/default/400"
  const UnknownArtist: string := "Unknown Artist"
  const UnknownAlbum: string := "Unknown Album"
  const NotAvailable: string := "N/A"

  /**
    * What the metadata parser reports for one file. `pictureUrl` is the object
    * URL made for the first embedded picture, if there is one.
    */
  datatype Metadata = Metadata(
    title: Option<string>,
    artist: Option<string>,
    album: Option<string>,
    duration: Option<Numeric>,
    pictureUrl: Option<string>)

  /**
    * One picked file: its name, the object URL made for it, and the parse
    * result (`None` when parsing threw).
    */
  datatype AudioFile = AudioFile(name: string, objectUrl: string, metadata: Option<Metadata>)

  // ---------------------------------------------------------------------------
  // Title fallback: removing a final extension

  /** A final extension: one or more characters, none of them a dot or a slash. */
  predicate IsExtension(e: string)
  {
    |e| > 0 && forall i :: 0 <= i < |e| ==> e[i] != '.' && e[i] != '/'
  }

  /** The position of the last dot of `s`, if any. */
  function LastDot(s: string): (r: Option<nat>)
    ensures r.None? ==> forall i :: 0 <= i < |s| ==> s[i] != '.'
    ensures r.Some? ==> r.value < |s| && s[r.value] == '.' &&
                        forall i :: r.value < i < |s| ==> s[i] != '.'
  {
    if s == [] then None
    else if s[|s| - 1] == '.' then Some(|s| - 1)
    else LastDot(s[..|s| - 1])
  }

  /** A dot at position `k` of `name` that starts a final extension: the match of `/\.[^/.]+$/`. */
  predicate ExtensionAt(name: string, k: nat)
  {
    k < |name| && name[k] == '.' && IsExtension(name[k + 1..])
  }

  /**
    * `name.replace(/\.[^/.]+$/, "")`: a final dot followed by an extension is
    * removed; a name without one is returned unchanged.
    */
  function StripExtension(name: string): (r: string)
    ensures |r| <= |name| && r == name[..|r|]
    ensures |r| < |name| ==> ExtensionAt(name, |r|)
    ensures |r| == |name| ==> forall k: nat :: !ExtensionAt(name, k)
  {
    match LastDot(name)
    case None => name
    case Some(k) =>
      if IsExtension(name[k + 1..]) then name[..k]
      else
        forall j: nat ensures !ExtensionAt(name, j) {
          if j < k && name[j] == '.' {
            assert name[j + 1..][k - j - 1] == '.';
          }
        }
        name
  }

  /** The examples the pattern is known for: only the last extension goes, and a bare trailing dot stays. */
  lemma StripExtensionExamples()
    ensures StripExtension("a.b.mp3") == "a.b"
    ensures StripExtension("noext") == "noext"
    ensures StripExtension("x.") == "x."
  {
    var n1 := "a.b.mp3";
    var r1 := StripExtension(n1);
    assert IsExtension(n1[4..]);
    assert !IsExtension(n1[2..]) by { assert n1[2..][1] == '.'; }
    assert |r1| == 3;
    assert r1 == n1[..3];
    var r2 := StripExtension("noext");
    assert forall i :: 0 <= i < 5 ==> "noext"[i] != '.';
    var r3 := StripExtension("x.");
    assert !IsExtension("x."[2..]);
    assert "x."[0] != '.';
  }

  // ---------------------------------------------------------------------------
  // Records built from files

  /** JavaScript's `value || fallback` for an optional string: missing and empty both fall back. */
  function OrElse(value: Option<string>, fallback: string): (r: string)
    ensures r == fallback <==> value.None? || value.value == [] || value.value == fallback
    ensures r != fallback ==> r == value.value
  {
    if value.Some? && value.value != [] then value.value else fallback
  }

  /** `metadata.format.duration || 0`: a missing, NaN or zero duration is zero. */
  function DurationOrZero(d: Option<Numeric>): (r: nat)
    ensures d.Some? && d.value.Whole? ==> r == d.value.value
    ensures d.None? || d.value == NaN ==> r == 0
  {
    if d.Some? && d.value.Whole? then d.value.value else 0
  }

  /** The record built for a file whose metadata parsed, under the identifier allotted to it. */
  function BuildSong(file: AudioFile, id: int): (r: Song)
    requires file.metadata.Some?
    ensures r.id == id && r.audioUrl == file.objectUrl && r.isLiked == None
  {
    var m := file.metadata.value;
    Song(
      id,
      OrElse(m.title, StripExtension(file.name)),
      OrElse(m.artist, UnknownArtist),
      OrElse(m.album, UnknownAlbum),
      DurationOrZero(m.duration),
      match m.pictureUrl { case Some(url) => url case None => DefaultCover },
      file.objectUrl,
      None)
  }

  /**
    * The fallbacks: a missing or empty tag gives way to the name without its
    * extension, 'Unknown Artist' or 'Unknown Album'; a missing duration to zero;
    * a missing picture to the default cover. A present, non-empty tag is kept.
    */
  lemma BuildSongFallbacks(file: AudioFile, id: int)
    requires file.metadata.Some?
    ensures var m := file.metadata.value; var r := BuildSong(file, id);
      (m.title.None? || m.title.value == [] ==> r.title == StripExtension(file.name)) &&
      (m.title.Some? && m.title.value != [] ==> r.title == m.title.value) &&
      (m.artist.None? || m.artist.value == [] ==> r.artist == UnknownArtist) &&
      (m.artist.Some? && m.artist.value != [] ==> r.artist == m.artist.value) &&
      (m.album.None? || m.album.value == [] ==> r.album == UnknownAlbum) &&
      (m.album.Some? && m.album.value != [] ==> r.album == m.album.value) &&
      (m.duration.None? || m.duration.value == NaN ==> r.duration == 0) &&
      (m.duration.Some? && m.duration.value.Whole? ==> r.duration == m.duration.value.value) &&
      (m.pictureUrl.None? ==> r.coverArtUrl == DefaultCover) &&
      (m.pictureUrl.Some? ==> r.coverArtUrl == m.pictureUrl.value)
  {
  }

  predicate Parsed(f: AudioFile)
  {
    f.metadata.Some?
  }

  /** The files whose metadata parsed, in the order they were picked. */
  function Successes(files: seq<AudioFile>): (r: seq<AudioFile>)
    ensures forall f :: f in r <==> f in files && Parsed(f)
  {
    Filter(files, Parsed)
  }

  /** The largest identifier of a non-empty catalog. */
  function MaxId(songs: seq<Song>): (m: int)
    requires |songs| > 0
    ensures exists i :: 0 <= i < |songs| && songs[i].id == m
    ensures forall i :: 0 <= i < |songs| ==> songs[i].id <= m
  {
    if |songs| == 1 then songs[0].id
    else
      var rest := MaxId(songs[1..]);
      assert forall i :: 1 <= i < |songs| ==> songs[i] == songs[1..][i - 1];
      if songs[0].id >= rest then songs[0].id else rest
  }

  /** The first identifier tried: one past the largest, or 1 for an empty catalog. */
  function FirstCandidateId(songs: seq<Song>): (c: int)
    ensures forall x :: x in IdSet(songs) ==> x < c
    ensures |songs| > 0 ==> c - 1 in IdSet(songs)
    ensures |songs| == 0 ==> c == 1
  {
    if |songs| > 0 then
      var m := MaxId(songs);
      var i :| 0 <= i < |songs| && songs[i].id == m;
      assert songs[i] in songs;
      m + 1
    else 1
  }

  /**
    * The records one import yields, built file by file: a file that parsed adds
    * its record under the next consecutive identifier from `firstId`, a file
    * that did not adds nothing.
    */
  function ImportedSongs(files: seq<AudioFile>, firstId: int): (r: seq<Song>)
    ensures |r| <= |files|
    ensures forall k :: 0 <= k < |r| ==> r[k].id == firstId + k
  {
    if files == [] then []
    else
      var prev := ImportedSongs(files[..|files| - 1], firstId);
      var f := files[|files| - 1];
      if Parsed(f) then prev + [BuildSong(f, firstId + |prev|)] else prev
  }

  /** Splitting the picked files at the end of the first part. */
  lemma SuccessesAppend(files: seq<AudioFile>, f: AudioFile)
    ensures Successes(files + [f]) == Successes(files) + if Parsed(f) then [f] else []
  {
    FilterConcat(files, [f], Parsed);
    assert [f][1..] == [];
  }

  /**
    * The import holds exactly one record per file that parsed, in the order
    * the files were picked, the k-th under identifier `firstId + k`.
    */
  lemma {:induction false} ImportedInFileOrder(files: seq<AudioFile>, firstId: int)
    ensures var r := ImportedSongs(files, firstId); var ok := Successes(files);
      |r| == |ok| && forall k :: 0 <= k < |r| ==> Parsed(ok[k]) && r[k] == BuildSong(ok[k], firstId + k)
  {
    if files != [] {
      var init := files[..|files| - 1];
      var f := files[|files| - 1];
      assert files == init + [f];
      ImportedInFileOrder(init, firstId);
      SuccessesAppend(init, f);
    }
  }

  /**
    * Records numbered consecutively from a candidate above every catalog
    * identifier have strictly increasing identifiers, none of them in the
    * catalog, so appending them keeps catalog identifiers distinct.
    */
  lemma ConsecutiveIdsFresh(songs: seq<Song>, r: seq<Song>, c: int)
    requires forall x :: x in IdSet(songs) ==> x < c
    requires forall k :: 0 <= k < |r| ==> r[k].id == c + k
    ensures forall i, j :: 0 <= i < j < |r| ==> r[i].id < r[j].id
    ensures IdSet(songs) !! IdSet(r)
    ensures UniqueIds(songs) ==> UniqueIds(App.AddSongs(songs, r))
  {
    forall x | x in IdSet(r) ensures c <= x {
      var s :| s in r && s.id == x;
      var k :| 0 <= k < |r| && r[k] == s;
    }
    if UniqueIds(songs) {
      App.AddSongsKeepsUnique(songs, r);
    }
  }

  /**
    * The identifiers of an import are strictly increasing and none of them is
    * held by the catalog, so adding the import to a catalog with distinct
    * identifiers keeps them distinct.
    */
  lemma ImportedIdsFresh(songs: seq<Song>, files: seq<AudioFile>)
    ensures var r := ImportedSongs(files, FirstCandidateId(songs));
      (forall i, j :: 0 <= i < j < |r| ==> r[i].id < r[j].id) &&
      IdSet(songs) !! IdSet(r) &&
      (UniqueIds(songs) ==> UniqueIds(App.AddSongs(songs, r)))
  {
    var c := FirstCandidateId(songs);
    ConsecutiveIdsFresh(songs, ImportedSongs(files, c), c);
  }

  /** A file whose parse throws yields no record and uses up no identifier. */
  lemma FailedFileSkipped(before: seq<AudioFile>, bad: AudioFile, after: seq<AudioFile>, firstId: int)
    requires bad.metadata.None?
    ensures ImportedSongs(before + [bad] + after, firstId) == ImportedSongs(before + after, firstId)
  {
    SuccessesSkipFailed(before, bad, after);
    ImportedInFileOrder(before + [bad] + after, firstId);
    ImportedInFileOrder(before + after, firstId);
  }

  lemma SuccessesSkipFailed(before: seq<AudioFile>, bad: AudioFile, after: seq<AudioFile>)
    requires bad.metadata.None?
    ensures Successes(before + [bad] + after) == Successes(before + after)
  {
    var none := Filter([bad], Parsed);
    assert none == [] by {
      assert [bad][1..] == [];
    }
    calc {
      Successes(before + [bad] + after);
      Filter(before + [bad] + after, Parsed);
      { FilterConcat(before + [bad], after, Parsed); }
      Filter(before + [bad], Parsed) + Filter(after, Parsed);
      { FilterConcat(before, [bad], Parsed); }
      Filter(before, Parsed) + none + Filter(after, Parsed);
      Filter(before, Parsed) + Filter(after, Parsed);
      { FilterConcat(before, after, Parsed); }
      Filter(before + after, Parsed);
    }
  }

  // ---------------------------------------------------------------------------
  // The import handler

  /**
    * `handleFileChange`. Nothing happens for a missing or empty selection; with
    * the metadata library absent the operator is alerted and nothing is added.
    * Otherwise the batch is imported and handed to `onAddSongs` (`added`)
    * exactly when it holds at least one record.
    */
  method HandleFileChange(songs: seq<Song>, files: Option<seq<AudioFile>>, libraryLoaded: bool)
    returns (alerted: bool, added: Option<seq<Song>>)
    ensures alerted <==> files.Some? && |files.value| > 0 && !libraryLoaded
    ensures added.Some? <==> files.Some? && libraryLoaded && |ImportedSongs(files.value, FirstCandidateId(songs))| > 0
    ensures added.Some? ==> added.value == ImportedSongs(files.value, FirstCandidateId(songs))
  {
    alerted := false;
    added := None;
    if files.None? || |files.value| == 0 {
      return;
    }
    if !libraryLoaded {
      alerted := true;
      return;
    }
    var newSongs := ImportFiles(songs, files.value);
    if |newSongs| > 0 {
      added := Some(newSongs);
    }
  }

  /**
    * The `while (existingIds.has(nextId)) nextId++` scan: the first identifier
    * from `nextId` on that is not in use. Since no identifier in use exceeds
    * `nextId`, it moves at most one step.
    */
  method NextFreeId(existingIds: set<int>, nextId: int) returns (id: int)
    requires forall x :: x in existingIds ==> x <= nextId
    ensures id !in existingIds && nextId <= id
    ensures forall x :: x in existingIds ==> x < id
    ensures id == if nextId in existingIds then nextId + 1 else nextId
  {
    id := nextId;
    while id in existingIds
      invariant nextId <= id <= nextId + 1
      invariant id == nextId + 1 ==> nextId in existingIds
      invariant forall x :: x in existingIds ==> x <= id
      decreases if id in existingIds then 1 else 0
    {
      id := id + 1;
    }
  }

  /** One more picked file extends the import by its record exactly when it parses. */
  lemma ImportedSongsStep(picked: seq<AudioFile>, i: nat, firstId: int)
    requires i < |picked|
    ensures var prev := ImportedSongs(picked[..i], firstId);
      ImportedSongs(picked[..i + 1], firstId)
        == if Parsed(picked[i]) then prev + [BuildSong(picked[i], firstId + |prev|)] else prev
  {
    assert picked[..i + 1][..i] == picked[..i];
  }

  /**
    * What the import loop keeps between files: no identifier in use exceeds
    * `nextId`, which is the last identifier handed out (in use) once a record
    * was built and the first candidate (free) before.
    */
  predicate Allocation(existingIds: set<int>, nextId: int, built: nat, first: int)
  {
    && (forall x :: x in existingIds ==> x <= nextId)
    && (nextId in existingIds <==> built > 0)
    && nextId == if built == 0 then first else first + built - 1
  }

  /**
    * One turn of the import loop, on file `i`: a file that failed to parse is
    * skipped; a parsed one gets the next free identifier, which is marked as
    * used, and its record is appended. Either way the records built so far are
    * the import of the files up to and including `i`.
    */
  method ImportOne(existingIds: set<int>, nextId: int, newSongs: seq<Song>,
                   picked: seq<AudioFile>, i: nat, ghost first: int)
    returns (ids: set<int>, next: int, songs: seq<Song>)
    requires i < |picked|
    requires newSongs == ImportedSongs(picked[..i], first)
    requires Allocation(existingIds, nextId, |newSongs|, first)
    ensures songs == ImportedSongs(picked[..i + 1], first)
    ensures Allocation(ids, next, |songs|, first)
  {
    ImportedSongsStep(picked, i, first);
    ids, next, songs := existingIds, nextId, newSongs;
    var file := picked[i];
    if file.metadata.Some? {
      next := NextFreeId(existingIds, nextId);
      assert next == first + |newSongs|;
      ids := existingIds + {next};
      songs := newSongs + [BuildSong(file, next)];
    }
  }

  /**
    * The import loop: each file in turn either fails to parse and is skipped,
    * or gets the next identifier not yet in use (starting one past the
    * catalog's largest) and becomes a record with the fallbacks applied.
    */
  method ImportFiles(songs: seq<Song>, picked: seq<AudioFile>) returns (newSongs: seq<Song>)
    ensures newSongs == ImportedSongs(picked, FirstCandidateId(songs))
  {
    newSongs := [];
    var existingIds := IdSet(songs);
    var first := FirstCandidateId(songs);
    var nextId := first;

    for i := 0 to |picked|
      invariant newSongs == ImportedSongs(picked[..i], first)
      invariant Allocation(existingIds, nextId, |newSongs|, first)
    {
      existingIds, nextId, newSongs := ImportOne(existingIds, nextId, newSongs, picked, i, first);
    }
    assert picked[..|picked|] == picked;
  }

  // ---------------------------------------------------------------------------
  // Table and header

  /** The table's duration cell: "N/A" for NaN, otherwise the same `m:ss` as the player. */
  function FormatDuration(seconds: Numeric): (r: string)
    ensures r == NotAvailable <==> seconds == NaN
    ensures seconds.Whole? ==> r == MainView.FormatDuration(seconds.value)
  {
    match seconds
    case NaN => NotAvailable
    case Whole(v) =>
      assert MainView.FormatDuration(v) != NotAvailable by {
        MainView.FormatDurationFields(v);
        assert NotAvailable[0] == 'N';
      }
      MainView.FormatDuration(v)
  }

  /** `getButtonText`: processing wins over initialising, which wins over the idle label. */
  function ButtonText(isProcessing: bool, isLibraryReady: bool): (t: string)
    ensures isProcessing ==> t == "Processing..."
    ensures !isProcessing && !isLibraryReady ==> t == "Initializing..."
    ensures t == "Add New Songs" <==> !isProcessing && isLibraryReady
  {
    if isProcessing then "Processing..."
    else if !isLibraryReady then "Initializing..."
    else "Add New Songs"
  }

  /** The import button is enabled exactly when its label invites adding songs. */
  function AddButtonEnabled(isProcessing: bool, isLibraryReady: bool): (enabled: bool)
    ensures enabled <==> ButtonText(isProcessing, isLibraryReady) == "Add New Songs"
  {
    !(isProcessing || !isLibraryReady)
  }

  /** The table's row for a record: its number (index + 1) and its formatted duration. */
  datatype TableRow = TableRow(number: nat, song: Song, duration: string)

  /** The library table; an empty catalog shows the empty-library message instead of rows. */
  function Table(songs: seq<Song>): (rows: seq<TableRow>)
    ensures |rows| == |songs|
    ensures forall i :: 0 <= i < |rows| ==>
              rows[i].number == i + 1 && rows[i].song == songs[i] &&
              rows[i].duration == MainView.FormatDuration(songs[i].duration)
  {
    seq(|songs|, i requires 0 <= i < |songs| => TableRow(i + 1, songs[i], FormatDuration(Whole(songs[i].duration))))
  }
}
