/**
  * The playback session of the player screen (MusicPlayerApp.tsx).
  *
  * The session's state is the value `Session`; each event handler of the
  * component is a transition function over it, and `PlaybackSession` is the
  * component itself, a class whose fields the handler methods update in place
  * and whose every method is specified by the matching transition.
  * The audio element is abstract: its position is the `currentTime` field, and
  * the randomness of shuffle is an argument `random` in [0, 1).
  */
module MusicPlayerApp {
  import opened Types
  import opened Js

  const InitialVolume: real := 0.75
  /** The volume an unmute falls back to when no earlier volume was saved. */
  const UnmuteVolume: real := 0.5
  /** Pressing "previous" later than this many seconds into a track restarts it instead. */
  const RestartThreshold: real := 3.0
  const HomeView: string := "Home"
  const LikedSongsView: string := "Liked Songs"
  const NowPlayingPrefix: string := "Now Playing: "

  // ---------------------------------------------------------------------------
  // Looking songs up

  /** `queue.findIndex(s => s.id === id)`: the first position holding `id`, or -1. */
  function IndexOf(queue: seq<Song>, id: int): (i: int)
    ensures -1 <= i < |queue|
    ensures i == -1 <==> forall j :: 0 <= j < |queue| ==> queue[j].id != id
    ensures 0 <= i ==> queue[i].id == id && forall j :: 0 <= j < i ==> queue[j].id != id
  {
    if queue == [] then -1
    else if queue[0].id == id then 0
    else
      var k := IndexOf(queue[1..], id);
      if k == -1 then -1 else k + 1
  }

  /** In a queue without repeated identifiers, a song is found at its own position. */
  lemma IndexOfUnique(queue: seq<Song>, k: nat)
    requires UniqueIds(queue) && k < |queue|
    ensures IndexOf(queue, queue[k].id) == k
  {
  }

  /** `songs.find(s => s.id === id)`: the first record with that identifier, if any. */
  function FindSong(songs: seq<Song>, id: int): (r: Option<Song>)
    ensures r.Some? <==> id in IdSet(songs)
    ensures r.Some? ==> r.value in songs && r.value.id == id
    ensures r.Some? ==> r.value == songs[IndexOf(songs, id)]
  {
    var i := IndexOf(songs, id);
    if i < 0 then
      assert forall s :: s in songs ==> s.id != id by {
        forall s | s in songs ensures s.id != id {
          var j :| 0 <= j < |songs| && songs[j] == s;
        }
      }
      None
    else
      assert songs[i] in songs;
      Some(songs[i])
  }

  // ---------------------------------------------------------------------------
  // The displayed list and the derived queue

  /** The search test: the query occurs in the title or in the artist, ignoring ASCII case. */
  predicate Matches(song: Song, query: string)
  {
    Includes(ToLower(song.title), ToLower(query)) || Includes(ToLower(song.artist), ToLower(query))
  }

  /** `filteredSongs`: the catalog songs matching the search, in catalog order. */
  function SearchResults(songs: seq<Song>, query: string): seq<Song>
  {
    Filter(songs, (s: Song) => Matches(s, query))
  }

  /** `likedSongsList`: the catalog songs whose identifier is liked, in catalog order. */
  function LikedList(songs: seq<Song>, liked: set<int>): seq<Song>
  {
    Filter(songs, (s: Song) => s.id in liked)
  }

  /**
    * `getContentSongs()`: the list the main view shows, which is also the queue
    * `playSong` derives when no context is passed. A non-empty search wins over
    * the "Liked Songs" view, which wins over the whole catalog.
    */
  function ContentSongs(songs: seq<Song>, searchQuery: string, activeView: string, liked: set<int>): (r: seq<Song>)
    ensures |r| <= |songs|
    ensures searchQuery != "" ==> forall x :: x in r <==> x in songs && Matches(x, searchQuery)
    ensures searchQuery == "" && activeView == LikedSongsView ==>
              forall x :: x in r <==> x in songs && x.id in liked
    ensures searchQuery == "" && activeView != LikedSongsView ==> r == songs
  {
    if searchQuery != "" then SearchResults(songs, searchQuery)
    else if activeView == LikedSongsView then LikedList(songs, liked)
    else songs
  }

  /** Whatever the filter, the derived list keeps the catalog's order. */
  lemma ContentSongsKeepOrder(a: seq<Song>, b: seq<Song>, searchQuery: string, activeView: string, liked: set<int>)
    ensures ContentSongs(a + b, searchQuery, activeView, liked)
         == ContentSongs(a, searchQuery, activeView, liked) + ContentSongs(b, searchQuery, activeView, liked)
  {
    if searchQuery != "" {
      FilterConcat(a, b, (s: Song) => Matches(s, searchQuery));
    } else if activeView == LikedSongsView {
      FilterConcat(a, b, (s: Song) => s.id in liked);
    }
  }

  // ---------------------------------------------------------------------------
  // Queue positions

  /**
    * The position after `current` in a queue of `n` songs,
    * `(currentIndex + 1) % n`; a song missing from the queue (-1) is followed by the first.
    */
  function NextIndex(current: int, n: nat): (k: nat)
    requires 0 < n && -1 <= current < n
    ensures k < n
    ensures k == if current == n - 1 then 0 else current + 1
  {
    JsRem(current + 1, n)
  }

  /**
    * The position before `current`, `(currentIndex - 1 + n) % n` with JavaScript's `%`:
    * the first song is preceded by the last, and a missing song (-1) by the one
    * before the last (by the only one in a queue of one).
    */
  function PrevIndex(current: int, n: nat): (k: nat)
    requires 0 < n && -1 <= current < n
    ensures k < n
    ensures 0 <= current ==> k == if current == 0 then n - 1 else current - 1
    ensures current == -1 ==> k == if n == 1 then 0 else n - 2
  {
    var a := current - 1 + n;
    assert current >= 1 ==> a % n == a - n;
    JsRem(a, n)
  }

  /** Stepping forward then back, or back then forward, returns to the same position. */
  lemma NextPrevInverse(i: nat, n: nat)
    requires i < n
    ensures PrevIndex(NextIndex(i, n), n) == i
    ensures NextIndex(PrevIndex(i, n), n) == i
  {
  }

  /** `Math.floor(random * n)` for `random` in [0, 1): a position of the queue. */
  function Draw(random: real, n: nat): (k: nat)
    requires 0.0 <= random < 1.0 && 0 < n
    ensures k < n
  {
    var x := random * n as real;
    assert 0.0 <= x;
    assert x < n as real by {
      assert (n as real) - x == (n as real) * (1.0 - random);
    }
    x.Floor
  }

  /**
    * The shuffle pick: a drawn position, moved one further (cyclically) when it
    * would replay the current song of a queue longer than one.
    */
  function ShuffleIndex(random: real, current: int, n: nat): (k: nat)
    requires 0.0 <= random < 1.0 && 0 < n && -1 <= current < n
    ensures k < n
    ensures n > 1 ==> k != current
    ensures n == 1 ==> k == 0
    ensures k == Draw(random, n) || (n > 1 && Draw(random, n) == current)
    ensures n > 1 && Draw(random, n) == current ==> k == (current + 1) % n
  {
    var k := Draw(random, n);
    if n > 1 && k == current then (k + 1) % n else k
  }

  /** The anti-repeat rule excludes no other song: each other position has a draw that picks it. */
  lemma ShuffleCanPickAnyOther(current: int, n: nat, j: nat)
    requires -1 <= current < n && j < n && j != current
    ensures 0.0 <= (j as real) / (n as real) < 1.0
    ensures ShuffleIndex((j as real) / (n as real), current, n) == j
  {
    var random := (j as real) / (n as real);
    assert random * n as real == j as real;
    assert Draw(random, n) == j;
  }

  // ---------------------------------------------------------------------------
  // The session

  /** The component's state: the `useState` fields, with the catalog it is given. */
  datatype Session = Session(
    songs: seq<Song>,
    currentSongId: Option<int>,
    playContext: seq<Song>,
    isPlaying: bool,
    currentTime: real,
    duration: real,
    volume: real,
    volumeBeforeMute: real,
    isShuffle: bool,
    isRepeat: bool,
    activeView: string,
    searchQuery: string,
    toast: Option<string>,
    likedSongs: set<int>)

  /** The state the component mounts with. */
  function Initial(songs: seq<Song>): (s: Session)
    ensures s.currentSongId.None? && !s.isPlaying && s.playContext == songs
    ensures s.volume == s.volumeBeforeMute == InitialVolume
    ensures !s.isShuffle && !s.isRepeat && s.likedSongs == {}
    ensures s.songs == songs && s.activeView == HomeView && s.searchQuery == ""
    ensures s.currentTime == 0.0 && s.duration == 0.0 && s.toast.None?
  {
    Session(songs, None, songs, false, 0.0, 0.0, InitialVolume, InitialVolume,
            false, false, HomeView, "", None, {})
  }

  /** `!currentSongId`: no song is selected, or the selected identifier is 0 (falsy). */
  predicate NoCurrent(s: Session)
  {
    s.currentSongId.None? || s.currentSongId.value == 0
  }

  /** `currentSong`: the selected identifier resolved against the catalog at read time. */
  function CurrentSong(s: Session): (r: Option<Song>)
    ensures r.Some? <==> s.currentSongId.Some? && s.currentSongId.value in IdSet(s.songs)
    ensures r.Some? ==> r.value in s.songs && r.value.id == s.currentSongId.value
    ensures r == if s.currentSongId.None? then None else FindSong(s.songs, s.currentSongId.value)
  {
    match s.currentSongId
    case None => None
    case Some(id) => FindSong(s.songs, id)
  }

  /** `isCurrentSongLiked`, the flag handed to the player bar. */
  function IsCurrentSongLiked(s: Session): (r: bool)
    ensures r <==> CurrentSong(s).Some? && s.currentSongId.value in s.likedSongs
  {
    match CurrentSong(s)
    case None => false
    case Some(song) => song.id in s.likedSongs
  }

  /** The list on screen for this state. */
  function Content(s: Session): seq<Song>
  {
    ContentSongs(s.songs, s.searchQuery, s.activeView, s.likedSongs)
  }

  /** The notification shown when a song starts. */
  function NowPlayingMessage(title: string): string
  {
    NowPlayingPrefix + title
  }

  /** The catalog prop changed (the effect on `[songs]`): the queue becomes the whole new catalog. */
  function CatalogChanged(s: Session, songs: seq<Song>): (t: Session)
    ensures t == s.(songs := songs, playContext := songs)
  {
    s.(songs := songs, playContext := songs)
  }

  /**
    * `playSong(songId, context?)`. An identifier the catalog does not hold changes
    * nothing. Otherwise that song becomes current and playing, and the queue is the
    * context passed, or the list on screen when none is.
    */
  function Play(s: Session, songId: int, context: Option<seq<Song>>): (t: Session)
    ensures songId !in IdSet(s.songs) ==> t == s
    ensures songId in IdSet(s.songs) ==>
              && t.currentSongId == Some(songId) && t.isPlaying
              && CurrentSong(t) == FindSong(s.songs, songId)
              && t.toast == Some(NowPlayingMessage(FindSong(s.songs, songId).value.title))
              && t.playContext == (if context.Some? then context.value else Content(s))
    ensures t == s.(currentSongId := t.currentSongId, playContext := t.playContext,
                    isPlaying := t.isPlaying, toast := t.toast)
  {
    match FindSong(s.songs, songId)
    case None => s
    case Some(song) =>
      s.(currentSongId := Some(songId),
         isPlaying := true,
         toast := Some(NowPlayingMessage(song.title)),
         playContext := if context.Some? then context.value else Content(s))
  }

  /**
    * `handlePlayPause`. With nothing ever selected and a non-empty catalog it plays
    * the first catalog song with the whole catalog as queue; otherwise it only flips
    * the play flag.
    */
  function PlayPause(s: Session): (t: Session)
    ensures s.currentSongId.None? && |s.songs| > 0 ==>
              t.currentSongId == Some(s.songs[0].id) && t.isPlaying && t.playContext == s.songs
    ensures s.currentSongId.None? && |s.songs| > 0 ==> t == Play(s, s.songs[0].id, Some(s.songs))
    ensures !(s.currentSongId.None? && |s.songs| > 0) ==> t == s.(isPlaying := !s.isPlaying)
  {
    if s.currentSongId.None? && |s.songs| > 0 then
      assert s.songs[0] in s.songs;
      Play(s, s.songs[0].id, Some(s.songs))
    else s.(isPlaying := !s.isPlaying)
  }

  /** The position `handleNext` moves to in the current queue. */
  function NextPosition(s: Session, random: real): (k: nat)
    requires 0.0 <= random < 1.0
    requires s.currentSongId.Some? && s.playContext != []
    ensures k < |s.playContext|
    ensures |s.playContext| > 1 && s.isShuffle ==> k != IndexOf(s.playContext, s.currentSongId.value)
  {
    var n := |s.playContext|;
    var current := IndexOf(s.playContext, s.currentSongId.value);
    if s.isShuffle then ShuffleIndex(random, current, n) else NextIndex(current, n)
  }

  /**
    * `handleNext`: without a current song or with an empty queue nothing happens;
    * otherwise the song at `NextPosition` is played with the same queue.
    */
  function Next(s: Session, random: real): (t: Session)
    requires 0.0 <= random < 1.0
    ensures NoCurrent(s) || s.playContext == [] ==> t == s
    ensures !NoCurrent(s) && s.playContext != [] ==>
              t == Play(s, s.playContext[NextPosition(s, random)].id, Some(s.playContext))
    ensures t.playContext == s.playContext
  {
    if NoCurrent(s) || s.playContext == [] then s
    else Play(s, s.playContext[NextPosition(s, random)].id, Some(s.playContext))
  }

  /**
    * `handlePrev`: later than three seconds into the track it rewinds to 0 and keeps
    * the song and queue; otherwise it plays the previous song of the same queue.
    */
  function Prev(s: Session): (t: Session)
    ensures NoCurrent(s) || s.playContext == [] ==> t == s
    ensures !NoCurrent(s) && s.playContext != [] && s.currentTime > RestartThreshold ==>
              t == s.(currentTime := 0.0)
    ensures !NoCurrent(s) && s.playContext != [] && s.currentTime <= RestartThreshold ==>
              t == Play(s, s.playContext[PrevIndex(IndexOf(s.playContext, s.currentSongId.value),
                                                   |s.playContext|)].id, Some(s.playContext))
    ensures t.playContext == s.playContext
  {
    if NoCurrent(s) || s.playContext == [] then s
    else if s.currentTime > RestartThreshold then s.(currentTime := 0.0)
    else
      var n := |s.playContext|;
      var k := PrevIndex(IndexOf(s.playContext, s.currentSongId.value), n);
      Play(s, s.playContext[k].id, Some(s.playContext))
  }

  /** `handleSeek` and the `timeupdate` callback: the position is copied into the state. */
  function SetPosition(s: Session, time: real): (t: Session)
    ensures t == s.(currentTime := time)
  {
    s.(currentTime := time)
  }

  /** The `loadedmetadata` callback: the track length is copied into the state. */
  function SetDuration(s: Session, duration: real): (t: Session)
    ensures t == s.(duration := duration)
  {
    s.(duration := duration)
  }

  /** `handleVolumeChange(v)`: the volume becomes `v`, remembered for unmuting only when positive. */
  function VolumeChange(s: Session, v: real): (t: Session)
    ensures t.volume == v
    ensures t.volumeBeforeMute == if v > 0.0 then v else s.volumeBeforeMute
    ensures t == s.(volume := t.volume, volumeBeforeMute := t.volumeBeforeMute)
  {
    s.(volume := v, volumeBeforeMute := if v > 0.0 then v else s.volumeBeforeMute)
  }

  /**
    * `handleMuteToggle`: an audible volume is saved and silenced; silence is
    * replaced by the saved volume, or by 0.5 when none is saved.
    */
  function MuteToggle(s: Session): (t: Session)
    ensures s.volume > 0.0 ==> t.volume == 0.0 && t.volumeBeforeMute == s.volume
    ensures s.volume <= 0.0 ==>
              t.volume == (if s.volumeBeforeMute > 0.0 then s.volumeBeforeMute else UnmuteVolume)
              && t.volumeBeforeMute == s.volumeBeforeMute
    ensures t == s.(volume := t.volume, volumeBeforeMute := t.volumeBeforeMute)
  {
    if s.volume > 0.0 then s.(volumeBeforeMute := s.volume, volume := 0.0)
    else s.(volume := if s.volumeBeforeMute > 0.0 then s.volumeBeforeMute else UnmuteVolume)
  }

  /** `toggleLike(id)`: exactly the membership of `id` in the liked set flips. */
  function LikeToggled(s: Session, id: int): (t: Session)
    ensures forall x :: x in t.likedSongs <==> (if x == id then x !in s.likedSongs else x in s.likedSongs)
    ensures t == s.(likedSongs := t.likedSongs)
  {
    s.(likedSongs := if id in s.likedSongs then s.likedSongs - {id} else s.likedSongs + {id})
  }

  /** The shuffle button flips the shuffle flag and nothing else. */
  function ToggleShuffle(s: Session): (t: Session)
    ensures t.isShuffle != s.isShuffle && t == s.(isShuffle := t.isShuffle)
  {
    s.(isShuffle := !s.isShuffle)
  }

  /** The repeat button flips the repeat flag and nothing else. */
  function ToggleRepeat(s: Session): (t: Session)
    ensures t.isRepeat != s.isRepeat && t == s.(isRepeat := t.isRepeat)
  {
    s.(isRepeat := !s.isRepeat)
  }

  /** The `ended` callback: with repeat the same song restarts from 0, otherwise as `handleNext`. */
  function SongEnded(s: Session, random: real): (t: Session)
    requires 0.0 <= random < 1.0
    ensures s.isRepeat ==> t == s.(currentTime := 0.0)
    ensures !s.isRepeat ==> t == Next(s, random)
  {
    if s.isRepeat then s.(currentTime := 0.0) else Next(s, random)
  }

  /** The search box (`setSearchQuery`). */
  function SearchChanged(s: Session, query: string): (t: Session)
    ensures t == s.(searchQuery := query)
  {
    s.(searchQuery := query)
  }

  /** The sidebar's menu (`setActiveView`). */
  function ViewChanged(s: Session, view: string): (t: Session)
    ensures t == s.(activeView := view)
  {
    s.(activeView := view)
  }

  // ---------------------------------------------------------------------------
  // Every handler as one event, and what all of them keep

  datatype Event =
    | PlaySongEvent(songId: int, context: Option<seq<Song>>)
    | PlayPauseEvent
    | NextEvent(random: real)
    | PrevEvent
    | PositionEvent(time: real)
    | DurationEvent(duration: real)
    | VolumeEvent(volume: real)
    | MuteEvent
    | LikeEvent(likedId: int)
    | ShuffleEvent
    | RepeatEvent
    | EndedEvent(endRandom: real)
    | SearchEvent(query: string)
    | ViewEvent(view: string)
    | CatalogEvent(catalog: seq<Song>)

  /** Randomness drawn by `Math.random()` lies in [0, 1). */
  predicate WellFormed(e: Event)
  {
    match e
    case NextEvent(r) => 0.0 <= r < 1.0
    case EndedEvent(r) => 0.0 <= r < 1.0
    case _ => true
  }

  function Step(s: Session, e: Event): Session
    requires WellFormed(e)
  {
    match e
    case PlaySongEvent(id, context) => Play(s, id, context)
    case PlayPauseEvent => PlayPause(s)
    case NextEvent(r) => Next(s, r)
    case PrevEvent => Prev(s)
    case PositionEvent(time) => SetPosition(s, time)
    case DurationEvent(d) => SetDuration(s, d)
    case VolumeEvent(v) => VolumeChange(s, v)
    case MuteEvent => MuteToggle(s)
    case LikeEvent(id) => LikeToggled(s, id)
    case ShuffleEvent => ToggleShuffle(s)
    case RepeatEvent => ToggleRepeat(s)
    case EndedEvent(r) => SongEnded(s, r)
    case SearchEvent(q) => SearchChanged(s, q)
    case ViewEvent(v) => ViewChanged(s, v)
    case CatalogEvent(songs) => CatalogChanged(s, songs)
  }

  /** The state after a sequence of handler events. */
  function Run(s: Session, events: seq<Event>): Session
    requires forall i :: 0 <= i < |events| ==> WellFormed(events[i])
    decreases |events|
  {
    if events == [] then s else Run(Step(s, events[0]), events[1..])
  }

  /**
    * The saved volume is always audible: it starts at 0.75 and only positive
    * volumes are ever saved, so unmuting never needs the 0.5 fallback.
    */
  predicate Valid(s: Session)
  {
    s.volumeBeforeMute > 0.0
  }

  lemma StepKeepsValid(s: Session, e: Event)
    requires Valid(s) && WellFormed(e)
    ensures Valid(Step(s, e))
  {
  }

  lemma {:induction false} RunKeepsValid(s: Session, events: seq<Event>)
    requires Valid(s)
    requires forall i :: 0 <= i < |events| ==> WellFormed(events[i])
    ensures Valid(Run(s, events))
    decreases |events|
  {
    if events != [] {
      StepKeepsValid(s, events[0]);
      RunKeepsValid(Step(s, events[0]), events[1..]);
    }
  }

  /** From any reachable state, unmuting restores exactly the saved volume. */
  lemma UnmuteRestoresSaved(songs: seq<Song>, events: seq<Event>)
    requires forall i :: 0 <= i < |events| ==> WellFormed(events[i])
    ensures var s := Run(Initial(songs), events);
            s.volume <= 0.0 ==> MuteToggle(s).volume == s.volumeBeforeMute
  {
    RunKeepsValid(Initial(songs), events);
  }

  // ---------------------------------------------------------------------------
  // Properties of the transitions

  /** Every song of the queue is in the catalog. */
  predicate QueueInCatalog(s: Session)
  {
    forall x :: x in s.playContext ==> x.id in IdSet(s.songs)
  }

  /** Playing keeps the queue within the catalog when the context passed is within it. */
  lemma PlayKeepsQueueInCatalog(s: Session, songId: int, context: Option<seq<Song>>)
    requires QueueInCatalog(s)
    requires context.Some? ==> forall x :: x in context.value ==> x.id in IdSet(s.songs)
    ensures QueueInCatalog(Play(s, songId, context))
  {
    var t := Play(s, songId, context);
    if songId in IdSet(s.songs) && context.None? {
      forall x | x in t.playContext ensures x.id in IdSet(s.songs) {
        assert x in s.songs;
      }
    }
  }

  /** Without shuffle, next plays the song after the current one, wrapping to the first. */
  lemma NextInOrder(s: Session, random: real, i: nat)
    requires 0.0 <= random < 1.0 && !s.isShuffle && !NoCurrent(s)
    requires i < |s.playContext| && IndexOf(s.playContext, s.currentSongId.value) == i
    requires QueueInCatalog(s)
    ensures Next(s, random).currentSongId == Some(s.playContext[(i + 1) % |s.playContext|].id)
    ensures Next(s, random).isPlaying
  {
    var k := (i + 1) % |s.playContext|;
    assert NextPosition(s, random) == k;
    assert s.playContext[k] in s.playContext;
  }

  /** Without shuffle, a current song missing from the queue is followed by the queue's first song. */
  lemma NextFromOutsideQueue(s: Session, random: real)
    requires 0.0 <= random < 1.0 && !s.isShuffle && !NoCurrent(s) && s.playContext != []
    requires s.currentSongId.value !in IdSet(s.playContext)
    requires QueueInCatalog(s)
    ensures Next(s, random).currentSongId == Some(s.playContext[0].id)
  {
    forall j | 0 <= j < |s.playContext| ensures s.playContext[j].id != s.currentSongId.value {
      assert s.playContext[j] in s.playContext;
    }
    assert NextPosition(s, random) == 0;
    assert s.playContext[0] in s.playContext;
  }

  /**
    * With shuffle on, a queue of distinct songs longer than one, all of them in the
    * catalog, next never replays the current song.
    */
  lemma ShuffleNeverRepeats(s: Session, random: real)
    requires 0.0 <= random < 1.0 && s.isShuffle && !NoCurrent(s)
    requires |s.playContext| > 1 && UniqueIds(s.playContext) && QueueInCatalog(s)
    requires s.currentSongId.value in IdSet(s.playContext)
    ensures Next(s, random).currentSongId != s.currentSongId
    ensures Next(s, random).isPlaying
  {
    var q := s.playContext;
    var id := s.currentSongId.value;
    var c := IndexOf(q, id);
    var x :| x in q && x.id == id;
    var j :| 0 <= j < |q| && q[j] == x;
    assert c >= 0;
    var k := NextPosition(s, random);
    assert k != c;
    assert q[k].id != id;
    assert q[k] in q;
  }

  /** With shuffle on and a queue of one song, next replays that song. */
  lemma ShuffleSingleReplays(s: Session, random: real)
    requires 0.0 <= random < 1.0 && s.isShuffle && !NoCurrent(s)
    requires |s.playContext| == 1 && QueueInCatalog(s)
    ensures Next(s, random).currentSongId == Some(s.playContext[0].id)
  {
    assert NextPosition(s, random) == 0;
    assert s.playContext[0] in s.playContext;
  }

  /**
    * Without shuffle, within three seconds of the start, with distinct non-zero
    * identifiers in a queue that the catalog holds and the current song in it,
    * "previous" right after "next" returns to the song one started from.
    */
  lemma PrevAfterNext(s: Session, random: real)
    requires 0.0 <= random < 1.0 && !s.isShuffle && !NoCurrent(s)
    requires s.currentTime <= RestartThreshold
    requires UniqueIds(s.playContext) && QueueInCatalog(s) && 0 !in IdSet(s.playContext)
    requires s.currentSongId.value in IdSet(s.playContext)
    ensures Prev(Next(s, random)).currentSongId == s.currentSongId
    ensures Prev(Next(s, random)).playContext == s.playContext
  {
    var q := s.playContext;
    var n := |q|;
    var x :| x in q && x.id == s.currentSongId.value;
    var i :| 0 <= i < n && q[i] == x;
    IndexOfUnique(q, i);
    var k := NextIndex(i, n);
    assert NextPosition(s, random) == k;
    assert q[k] in q;
    var t := Next(s, random);
    assert t.currentSongId == Some(q[k].id);
    IndexOfUnique(q, k);
    assert !NoCurrent(t);
    assert PrevIndex(k, n) == i;
  }

  /**
    * In the running app a track change makes the media element reload, which
    * resets its position, and the `timeupdate` callback copies 0 into the
    * state. With that reset between the two presses, "previous" after "next"
    * returns to the starting song whatever the position was.
    */
  lemma PrevAfterNextWithReset(s: Session, random: real)
    requires 0.0 <= random < 1.0 && !s.isShuffle && !NoCurrent(s)
    requires UniqueIds(s.playContext) && QueueInCatalog(s) && 0 !in IdSet(s.playContext)
    requires s.currentSongId.value in IdSet(s.playContext)
    ensures Prev(SetPosition(Next(s, random), 0.0)).currentSongId == s.currentSongId
    ensures Prev(SetPosition(Next(s, random), 0.0)).playContext == s.playContext
  {
    var s0 := s.(currentTime := 0.0);
    PrevAfterNext(s0, random);
    assert Next(s0, random).(currentTime := 0.0) == Next(s, random).(currentTime := 0.0);
  }

  /** The same hypotheses in the other order: "next" right after "previous" returns as well. */
  lemma NextAfterPrev(s: Session, random: real)
    requires 0.0 <= random < 1.0 && !s.isShuffle && !NoCurrent(s)
    requires s.currentTime <= RestartThreshold
    requires UniqueIds(s.playContext) && QueueInCatalog(s) && 0 !in IdSet(s.playContext)
    requires s.currentSongId.value in IdSet(s.playContext)
    ensures Next(Prev(s), random).currentSongId == s.currentSongId
  {
    var q := s.playContext;
    var n := |q|;
    var x :| x in q && x.id == s.currentSongId.value;
    var i :| 0 <= i < n && q[i] == x;
    IndexOfUnique(q, i);
    var k := PrevIndex(i, n);
    assert q[k] in q;
    var t := Prev(s);
    assert t.currentSongId == Some(q[k].id);
    IndexOfUnique(q, k);
    assert !NoCurrent(t);
    assert NextPosition(t, random) == i;
  }

  /** Muting and unmuting an audible volume restores it (and leaves it saved). */
  lemma MuteTwiceRestores(s: Session)
    requires s.volume > 0.0
    ensures MuteToggle(MuteToggle(s)) == s.(volumeBeforeMute := s.volume)
  {
  }

  /** Liking twice leaves the state as it was. */
  lemma ToggleLikeTwice(s: Session, id: int)
    ensures LikeToggled(LikeToggled(s, id), id) == s
  {
    assert LikeToggled(LikeToggled(s, id), id).likedSongs == s.likedSongs;
  }

  /**
    * Removing the current song from the catalog leaves its identifier selected:
    * nothing resolves as current, and play/pause only flips the play flag rather
    * than starting the first song.
    */
  lemma DeletedCurrentSong(s: Session, songs: seq<Song>)
    requires s.currentSongId.Some? && s.currentSongId.value !in IdSet(songs)
    ensures CurrentSong(CatalogChanged(s, songs)).None?
    ensures PlayPause(CatalogChanged(s, songs)) == CatalogChanged(s, songs).(isPlaying := !s.isPlaying)
  {
  }

  /**
    * A two-song catalog A(1), B(2) in order, neither shuffle nor repeat: playing A
    * and letting it end moves on to B, still playing.
    */
  lemma EndedAdvances(a: Song, b: Song, random: real)
    requires a.id == 1 && b.id == 2 && 0.0 <= random < 1.0
    ensures var s := Play(Initial([a, b]), 1, Some([a, b]));
            s.currentSongId == Some(1) && s.isPlaying &&
            SongEnded(s, random).currentSongId == Some(2) && SongEnded(s, random).isPlaying
  {
    var s0 := Initial([a, b]);
    assert a in s0.songs && b in s0.songs;
    var s := Play(s0, 1, Some([a, b]));
    assert IndexOf(s.playContext, 1) == 0;
    assert NextPosition(s, random) == 1;
  }

  // ---------------------------------------------------------------------------
  // The component

  /**
    * The player component. Its fields are the `useState` variables (and the catalog
    * prop); each handler updates them in place as the transition of the same name says.
    */
  class PlaybackSession {
    var songs: seq<Song>
    var currentSongId: Option<int>
    var playContext: seq<Song>
    var isPlaying: bool
    var currentTime: real
    var duration: real
    var volume: real
    var volumeBeforeMute: real
    var isShuffle: bool
    var isRepeat: bool
    var activeView: string
    var searchQuery: string
    var toast: Option<string>
    var likedSongs: set<int>

    /** The fields as one value. */
    function State(): Session
      reads this
    {
      Session(songs, currentSongId, playContext, isPlaying, currentTime, duration, volume,
              volumeBeforeMute, isShuffle, isRepeat, activeView, searchQuery, toast, likedSongs)
    }

    constructor (songs: seq<Song>)
      ensures State() == Initial(songs)
    {
      this.songs := songs;
      currentSongId := None;
      playContext := songs;
      isPlaying := false;
      currentTime := 0.0;
      duration := 0.0;
      volume := InitialVolume;
      volumeBeforeMute := InitialVolume;
      isShuffle := false;
      isRepeat := false;
      activeView := HomeView;
      searchQuery := "";
      toast := None;
      likedSongs := {};
    }

    method OnSongsChanged(newSongs: seq<Song>)
      modifies this
      ensures State() == CatalogChanged(old(State()), newSongs)
    {
      songs := newSongs;
      playContext := newSongs;
    }

    method ToggleLike(songId: int)
      modifies this
      ensures State() == LikeToggled(old(State()), songId)
    {
      var newSet := likedSongs;
      if songId in newSet {
        newSet := newSet - {songId};
      } else {
        newSet := newSet + {songId};
      }
      likedSongs := newSet;
    }

    /** `getContentSongs()`: the list on screen, read from the current fields. */
    method GetContentSongs() returns (r: seq<Song>)
      ensures r == Content(State())
    {
      if searchQuery != "" {
        r := SearchResults(songs, searchQuery);
      } else if activeView == LikedSongsView {
        r := LikedList(songs, likedSongs);
      } else {
        r := songs;
      }
    }

    method PlaySong(songId: int, context: Option<seq<Song>>)
      modifies this
      ensures State() == Play(old(State()), songId, context)
    {
      var songToPlay := FindSong(songs, songId);
      if songToPlay.None? {
        return;
      }
      var queue: seq<Song>;
      match context {
        case Some(c) =>
          queue := c;
        case None =>
          queue := GetContentSongs();
      }
      currentSongId := Some(songId);
      isPlaying := true;
      toast := Some(NowPlayingMessage(songToPlay.value.title));
      playContext := queue;
    }

    method HandlePlayPause()
      modifies this
      ensures State() == PlayPause(old(State()))
    {
      if currentSongId.None? && |songs| > 0 {
        PlaySong(songs[0].id, Some(songs));
        return;
      }
      isPlaying := !isPlaying;
    }

    method HandleNext(random: real)
      requires 0.0 <= random < 1.0
      modifies this
      ensures State() == Next(old(State()), random)
    {
      if currentSongId.None? || currentSongId.value == 0 || |playContext| == 0 {
        return;
      }
      var n := |playContext|;
      var currentIndex := IndexOf(playContext, currentSongId.value);
      var nextIndex: int;
      if isShuffle {
        nextIndex := Draw(random, n);
        if n > 1 && nextIndex == currentIndex {
          nextIndex := (nextIndex + 1) % n;
        }
      } else {
        nextIndex := JsRem(currentIndex + 1, n);
      }
      assert nextIndex == NextPosition(State(), random);
      PlaySong(playContext[nextIndex].id, Some(playContext));
    }

    method HandlePrev()
      modifies this
      ensures State() == Prev(old(State()))
    {
      if currentSongId.None? || currentSongId.value == 0 || |playContext| == 0 {
        return;
      }
      if currentTime > RestartThreshold {
        currentTime := 0.0;
      } else {
        var n := |playContext|;
        var currentIndex := IndexOf(playContext, currentSongId.value);
        var prevIndex := JsRem(currentIndex - 1 + n, n);
        assert prevIndex == PrevIndex(currentIndex, n);
        PlaySong(playContext[prevIndex].id, Some(playContext));
      }
    }

    /** `handleSeek`, and the `timeupdate` callback, which copies the element's position. */
    method HandleSeek(newTime: real)
      modifies this
      ensures State() == SetPosition(old(State()), newTime)
    {
      currentTime := newTime;
    }

    /** The `loadedmetadata` callback. */
    method OnLoadedMetadata(newDuration: real)
      modifies this
      ensures State() == SetDuration(old(State()), newDuration)
    {
      duration := newDuration;
    }

    method HandleVolumeChange(newVolume: real)
      modifies this
      ensures State() == VolumeChange(old(State()), newVolume)
    {
      volume := newVolume;
      if newVolume > 0.0 {
        volumeBeforeMute := newVolume;
      }
    }

    method HandleMuteToggle()
      modifies this
      ensures State() == MuteToggle(old(State()))
    {
      if volume > 0.0 {
        volumeBeforeMute := volume;
        volume := 0.0;
      } else {
        volume := if volumeBeforeMute > 0.0 then volumeBeforeMute else UnmuteVolume;
      }
    }

    method OnShuffle()
      modifies this
      ensures State() == ToggleShuffle(old(State()))
    {
      isShuffle := !isShuffle;
    }

    method OnRepeat()
      modifies this
      ensures State() == ToggleRepeat(old(State()))
    {
      isRepeat := !isRepeat;
    }

    method HandleSongEnd(random: real)
      requires 0.0 <= random < 1.0
      modifies this
      ensures State() == SongEnded(old(State()), random)
    {
      if isRepeat {
        currentTime := 0.0;
      } else {
        HandleNext(random);
      }
    }

    method SetSearchQuery(query: string)
      modifies this
      ensures State() == SearchChanged(old(State()), query)
    {
      searchQuery := query;
    }

    method SetActiveView(view: string)
      modifies this
      ensures State() == ViewChanged(old(State()), view)
    {
      activeView := view;
    }
  }
}
