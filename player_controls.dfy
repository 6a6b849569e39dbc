/**
  * The transport bar (components/PlayerControls.tsx): a stateless component whose
  * time labels, progress bar width, button titles and icons are expressions over
  * the playback state it is handed.
  */
module PlayerControls {
  import opened Types
  import opened Js
  import MainView
  import MusicPlayerApp

  const ZeroTime: string := "0:00"

  /**
    * `formatTime`: "0:00" for NaN and for zero, otherwise minutes and two-digit
    * seconds. On every whole number it agrees with the content pane's formatter,
    * since that formatter prints zero as "0:00" too.
    */
  function FormatTime(seconds: Numeric): (r: string)
    ensures seconds == NaN ==> r == ZeroTime
    ensures seconds.Whole? ==> r == MainView.FormatDuration(seconds.value)
  {
    if seconds == NaN || seconds == Whole(0) then
      assert MainView.FormatDuration(0) == ZeroTime by {
        assert NatToString(0) == "0";
        assert PadStart("0", 2, '0') == "00";
      }
      ZeroTime
    else MainView.FormatDuration(seconds.value)
  }

  /**
    * The width of the progress bar in percent: zero unless the duration is
    * positive, then the elapsed share of it; within [0, 100] while the position
    * lies within the track.
    */
  function ProgressPercentage(currentTime: real, duration: real): (r: real)
    ensures duration <= 0.0 ==> r == 0.0
    ensures duration > 0.0 ==> r * duration == currentTime * 100.0
    ensures 0.0 <= currentTime <= duration ==> 0.0 <= r <= 100.0
  {
    if duration > 0.0 then (currentTime / duration) * 100.0 else 0.0
  }

  /** The play button's title. */
  function PlayTitle(isPlaying: bool): (t: string)
    ensures t == "Pause" <==> isPlaying
    ensures t == "Play" <==> !isPlaying
  {
    if isPlaying then "Pause" else "Play"
  }

  /** The mute button's title. */
  function MuteTitle(volume: real): (t: string)
    ensures t == "Mute" <==> volume > 0.0
    ensures t == "Unmute" <==> volume <= 0.0
  {
    if volume > 0.0 then "Mute" else "Unmute"
  }

  datatype VolumeIcon = VolumeUp | VolumeOff

  /** The mute button's icon: the crossed-out speaker exactly at volume zero. */
  function MuteIcon(volume: real): (i: VolumeIcon)
    ensures i == VolumeOff <==> volume == 0.0
  {
    if volume == 0.0 then VolumeOff else VolumeUp
  }

  /**
    * For any volume the slider can produce, the title offers "Unmute" exactly
    * when the icon is the crossed-out speaker; only a negative volume would
    * split the two.
    */
  lemma MuteTitleMatchesIcon(volume: real)
    ensures volume >= 0.0 ==> (MuteTitle(volume) == "Unmute" <==> MuteIcon(volume) == VolumeOff)
    ensures volume < 0.0 ==> MuteTitle(volume) == "Unmute" && MuteIcon(volume) == VolumeUp
  {
  }

  /** The left-hand panel: a placeholder, or the song with a like button that targets its id. */
  datatype NowPlaying =
    | NoSongPlaying
    | SongPanel(song: Song, likeLabel: string, likeTarget: int)

  function NowPlayingPanel(currentSong: Option<Song>, isCurrentSongLiked: bool): (p: NowPlaying)
    ensures p == NoSongPlaying <==> currentSong.None?
    ensures p.SongPanel? ==> p.song == currentSong.value && p.likeTarget == currentSong.value.id
    ensures p.SongPanel? ==> (p.likeLabel == "Unlike" <==> isCurrentSongLiked)
    ensures p.SongPanel? ==> (p.likeLabel == "Like" <==> !isCurrentSongLiked)
  {
    match currentSong
    case None => NoSongPlaying
    case Some(song) => SongPanel(song, if isCurrentSongLiked then "Unlike" else "Like", song.id)
  }

  /**
    * The panel the player shows for a session: the placeholder exactly when the
    * current id names no catalog record (for instance after that record was
    * deleted), and otherwise a like button whose click flips that song's like
    * and whose label flips with it.
    */
  lemma PanelForSession(s: MusicPlayerApp.Session)
    ensures var p := NowPlayingPanel(MusicPlayerApp.CurrentSong(s), MusicPlayerApp.IsCurrentSongLiked(s));
      (p == NoSongPlaying <==> s.currentSongId.None? || s.currentSongId.value !in IdSet(s.songs)) &&
      (p.SongPanel? ==>
         var t := MusicPlayerApp.LikeToggled(s, p.likeTarget);
         NowPlayingPanel(MusicPlayerApp.CurrentSong(t), MusicPlayerApp.IsCurrentSongLiked(t)).likeLabel
           == (if p.likeLabel == "Like" then "Unlike" else "Like"))
  {
  }
}
