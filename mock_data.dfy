/** The seed catalog the application starts with (data/mockData.ts). */
module MockData {
  import opened Types

  /** `MOCK_SONGS`: eight remote tracks with identifiers 1 to 8. */
  const MockSongs: seq<Song> := [
      Song(1, "Ambient Chill", "Chillwave Cafe", "Lo-Fi Dreams", 140,
           "https://picsum.photos/seed/music1/400",
           "https://storage.googleapis.com/music-maker-models/music/ambient_chill.wav", None),
      Song(2, "Synthwave Runner", "80s Nostalgia", "Neon Nights", 125,
           "https://picsum.photos/seed/music2/400",
           "https://storage.googleapis.com/music-maker-models/music/synthwave_runner.wav", None),
      Song(3, "Acoustic Mornings", "The Folksters", "Sunrise Sessions", 155,
           "https://picsum.photos/seed/music3/400",
           "https://storage.googleapis.com/music-maker-models/music/acoustic_mornings.wav", None),
      Song(4, "Funky Groove", "The Groovmasters", "Dance Floor", 110,
           "https://picsum.photos/seed/music4/400",
           "https://storage.googleapis.com/music-maker-models/music/funky_groove.wav", None),
      Song(5, "Orchestral Epic", "Cinema Sound", "Movie Magic", 180,
           "https://picsum.photos/seed/music5/400",
           "https://storage.googleapis.com/music-maker-models/music/orchestral_epic.wav", None),
      Song(6, "Reggae Vibes", "Island Beats", "Beach Party", 132,
           "https://picsum.photos/seed/music6/400",
           "https://storage.googleapis.com/music-maker-models/music/reggae_vibes.wav", None),
      Song(7, "Hip Hop Flow", "MC Rhyme", "Street Knowledge", 118,
           "https://picsum.photos/seed/music7/400",
           "https://storage.googleapis.com/music-maker-models/music/hip_hop_flow.wav", None),
      Song(8, "Cinematic Atmosphere", "Soundtrack Scapes", "Ethereal Journeys", 210,
           "https://picsum.photos/seed/music8/400",
           "https://storage.googleapis.com/music-maker-models/music/cinematic_atmosphere.wav", None)
    ]

  /** The seed identifiers are 1 to 8 in order, hence distinct. */
  lemma MockSongsIds()
    ensures |MockSongs| == 8
    ensures forall i :: 0 <= i < |MockSongs| ==> MockSongs[i].id == i + 1
    ensures UniqueIds(MockSongs)
  {
  }
}
