/**
  * The catalog record shared by every screen (the `Song` interface of types.ts)
  * and the identifier predicates the catalog operations are stated with.
  */
module Types {

  /** The conventional optional value; `None` stands for JavaScript's null/undefined. */
  datatype Option<+T> = None | Some(value: T)

  /**
    * One track record. `duration` is in whole seconds (the screens floor it before
    * printing); `isLiked` is the interface's optional flag.
    */
  datatype Song = Song(
    id: int,
    title: string,
    artist: string,
    album: string,
    duration: nat,
    coverArtUrl: string,
    audioUrl: string,
    isLiked: Option<bool>)

  /** The identifiers present in a catalog (`new Set(songs.map(s => s.id))`). */
  function IdSet(songs: seq<Song>): set<int>
  {
    set s | s in songs :: s.id
  }

  /** No two records of the catalog share an identifier. */
  predicate UniqueIds(songs: seq<Song>)
  {
    forall i, j :: 0 <= i < j < |songs| ==> songs[i].id != songs[j].id
  }
}
