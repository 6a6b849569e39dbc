/**
  * The content pane (components/MainView.tsx): the `m:ss` duration formatter and
  * the choice of what the pane shows, together with the play context each click
  * on a card or a row passes to the player.
  */
module MainView {
  import opened Types
  import opened Js

  const HomeView: string := "Home"
  const SongsView: string := "Songs"
  const LikedSongsView: string := "Liked Songs"
  /** The title of the page shown for any view the switch does not name. */
  const ComingSoon: string := "Coming Soon"

  // ---------------------------------------------------------------------------
  // Duration formatting

  /**
    * `formatDuration`: whole minutes, a colon, then the remaining seconds
    * left-padded with '0' to two characters.
    */
  function FormatDuration(seconds: nat): (r: string)
    ensures |r| >= 4
  {
    NatToString(seconds / 60) + ":" + PadStart(NatToString(seconds % 60), 2, '0')
  }

  /** The minutes field of a formatted duration: everything before the colon. */
  function MinutesField(r: string): string
    requires |r| >= 3
  {
    r[..|r| - 3]
  }

  /** The seconds field of a formatted duration: the two characters after the colon. */
  function SecondsField(r: string): string
    requires |r| >= 2
  {
    r[|r| - 2..]
  }

  /**
    * The formatted text reads back as the duration: a decimal minutes field, a
    * colon, and exactly two decimal digits worth less than sixty, with
    * minutes * 60 + seconds equal to the input.
    */
  lemma FormatDurationFields(seconds: nat)
    ensures var r := FormatDuration(seconds);
      r[|r| - 3] == ':' &&
      IsDigits(MinutesField(r)) && IsDigits(SecondsField(r)) && |SecondsField(r)| == 2 &&
      DigitsValue(SecondsField(r)) < 60 &&
      DigitsValue(MinutesField(r)) * 60 + DigitsValue(SecondsField(r)) == seconds
  {
    var m := NatToString(seconds / 60);
    var x := NatToString(seconds % 60);
    if seconds % 60 >= 10 {
      assert |NatToString((seconds % 60) / 10)| == 1;
    }
    var p := PadStart(x, 2, '0');
    if |x| == 1 {
      assert p == "0" + x;
      DigitsValueLeadingZero(x);
    } else {
      assert p == x;
    }
    var r := FormatDuration(seconds);
    assert r == m + ":" + p;
    assert MinutesField(r) == m;
    assert SecondsField(r) == p;
  }

  /** Different durations never print the same. */
  lemma FormatDurationInjective(a: nat, b: nat)
    requires FormatDuration(a) == FormatDuration(b)
    ensures a == b
  {
    FormatDurationFields(a);
    FormatDurationFields(b);
  }

  // ---------------------------------------------------------------------------
  // Content selection

  /** A song card, and the play context its click hands to `playSong`. */
  datatype Card = Card(song: Song, context: seq<Song>)

  /** A song-list row: its printed number, its heart state and the context its click passes. */
  datatype Row = Row(number: nat, song: Song, liked: bool, context: seq<Song>)

  /** What `renderContent` puts in the pane. */
  datatype Content =
    | SearchResults(query: string, cards: seq<Card>)
    | HomePage(recentlyPlayed: seq<Card>, newAdditions: seq<Card>)
    | SongList(rows: seq<Row>)
    | LikedPage(count: nat, rows: seq<Row>)
    | Placeholder(title: string)

  /** A card per song, in order, each passing the same context. */
  function Cards(songs: seq<Song>, context: seq<Song>): (r: seq<Card>)
    ensures |r| == |songs|
    ensures forall i :: 0 <= i < |r| ==> r[i].song == songs[i] && r[i].context == context
  {
    seq(|songs|, i requires 0 <= i < |songs| => Card(songs[i], context))
  }

  /** `SongListView`: one row per song, numbered from one, passing the whole list. */
  function Rows(songs: seq<Song>, liked: set<int>): (r: seq<Row>)
    ensures |r| == |songs|
    ensures forall i :: 0 <= i < |r| ==>
              r[i].number == i + 1 && r[i].song == songs[i] && r[i].context == songs &&
              (r[i].liked <==> songs[i].id in liked)
  {
    seq(|songs|, i requires 0 <= i < |songs| => Row(i + 1, songs[i], songs[i].id in liked, songs))
  }

  /** The title of the page for a view that has no content of its own yet. */
  function PlaceholderTitle(activeView: string): (t: string)
    ensures activeView in {"Playlists", "Artists", "Albums"} ==> t == activeView
    ensures activeView !in {"Playlists", "Artists", "Albums"} ==> t == ComingSoon
  {
    if activeView == "Playlists" then "Playlists"
    else if activeView == "Artists" then "Artists"
    else if activeView == "Albums" then "Albums"
    else ComingSoon
  }

  /**
    * `renderContent`: a non-empty search query overrides the view and shows the
    * result grid; otherwise the view picks the home page (the first five songs
    * and the next three), the song list, the liked-songs page or a placeholder.
    */
  function RenderContent(songs: seq<Song>, activeView: string, searchQuery: string, liked: set<int>): (r: Content)
    ensures r.SearchResults? <==> searchQuery != []
    ensures r.SearchResults? ==> r.query == searchQuery && r.cards == Cards(songs, songs)
    ensures r.HomePage? <==> searchQuery == [] && activeView == HomeView
    ensures r.HomePage? ==>
              r.recentlyPlayed == Cards(Slice(songs, 0, 5), Slice(songs, 0, 5)) &&
              r.newAdditions == Cards(Slice(songs, 5, 8), Slice(songs, 5, 8))
    ensures r.SongList? <==> searchQuery == [] && activeView == SongsView
    ensures r.LikedPage? <==> searchQuery == [] && activeView == LikedSongsView
    ensures (r.SongList? || r.LikedPage?) ==> r.rows == Rows(songs, liked)
    ensures r.LikedPage? ==> r.count == |songs|
    ensures r.Placeholder? ==> r.title == PlaceholderTitle(activeView)
  {
    if searchQuery != [] then SearchResults(searchQuery, Cards(songs, songs))
    else if activeView == HomeView then
      HomePage(Cards(Slice(songs, 0, 5), Slice(songs, 0, 5)), Cards(Slice(songs, 5, 8), Slice(songs, 5, 8)))
    else if activeView == SongsView then SongList(Rows(songs, liked))
    else if activeView == LikedSongsView then LikedPage(|songs|, Rows(songs, liked))
    else Placeholder(PlaceholderTitle(activeView))
  }

  /** Every card and every row the pane shows. */
  function Clickables(c: Content): seq<(Song, seq<Song>)>
  {
    match c
    case SearchResults(_, cards) => seq(|cards|, i requires 0 <= i < |cards| => (cards[i].song, cards[i].context))
    case HomePage(a, b) =>
      seq(|a|, i requires 0 <= i < |a| => (a[i].song, a[i].context)) +
      seq(|b|, i requires 0 <= i < |b| => (b[i].song, b[i].context))
    case SongList(rows) => seq(|rows|, i requires 0 <= i < |rows| => (rows[i].song, rows[i].context))
    case LikedPage(_, rows) => seq(|rows|, i requires 0 <= i < |rows| => (rows[i].song, rows[i].context))
    case Placeholder(_) => []
  }

  /**
    * Whatever the pane shows, the context a click passes holds the clicked
    * song, and every song shown comes from the list the pane was given.
    */
  lemma ClickedSongInContext(songs: seq<Song>, activeView: string, searchQuery: string, liked: set<int>)
    ensures var c := RenderContent(songs, activeView, searchQuery, liked);
      forall k :: 0 <= k < |Clickables(c)| ==>
        Clickables(c)[k].0 in Clickables(c)[k].1 && Clickables(c)[k].0 in songs
  {
    var c := RenderContent(songs, activeView, searchQuery, liked);
    var cl := Clickables(c);
    forall k | 0 <= k < |cl| ensures cl[k].0 in cl[k].1 && cl[k].0 in songs {
      if c.HomePage? {
        var a := Slice(songs, 0, 5);
        var b := Slice(songs, 5, 8);
        if k < |c.recentlyPlayed| {
          assert cl[k].0 == a[k] && cl[k].1 == a;
          assert a[k] == songs[k];
        } else {
          var j := k - |c.recentlyPlayed|;
          assert cl[k].0 == b[j] && cl[k].1 == b;
          assert b[j] == songs[5 + j];
        }
      }
    }
  }
}
