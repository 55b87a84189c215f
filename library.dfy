/**
 * Books and their playlists (`Book`, `Playlist`, `Audio`) and the
 * track-position projections both reducers read: whether the current track
 * is the first or the last, and the note of the current chapter.
 *
 * `Book.urls` looks every track up in the app bundle; the model assumes
 * every lookup succeeds, so there is one locator per track and
 * `urls.count` equals the number of tracks.
 */
module Library {
  datatype Audio = Audio(id: string, notes: string)

  datatype Playlist = Playlist(audio: seq<Audio>)

  datatype Book = Book(id: string, previewId: string, playlist: Playlist)

  const EmptyPlaylist: Playlist := Playlist([])

  /** `Book.empty`, the placeholder shown before a book is loaded. */
  const EmptyBook: Book := Book("", "", EmptyPlaylist)

  /** `book.urls.count`, under the one-locator-per-track assumption. */
  function UrlCount(b: Book): nat {
    |b.playlist.audio|
  }

  /** `urls[i]` exists. */
  predicate HasTrack(b: Book, i: int) {
    0 <= i < UrlCount(b)
  }

  /** `PlayerControlsReducer.State.urlsCount`: the index of the last track. */
  function UrlsCount(b: Book): (n: int)
    ensures n + 1 == |b.playlist.audio|
  {
    UrlCount(b) - 1
  }

  /** `isFirstAudio`: at the first track of a book there is no previous one; at any other track there is. */
  predicate IsFirstAudio(i: int): (r: bool)
    ensures r ==> forall b: Book | HasTrack(b, i) :: !HasTrack(b, i - 1)
    ensures !r ==> forall b: Book | HasTrack(b, i) :: HasTrack(b, i - 1)
  {
    i == 0
  }

  /** `isLastAudio`: the index is `urlsCount`; on a track, there is no next one. */
  predicate IsLastAudio(b: Book, i: int): (r: bool)
    ensures r <==> i == UrlsCount(b)
    ensures r && i >= 0 ==> HasTrack(b, i) && !HasTrack(b, i + 1)
  {
    i == UrlCount(b) - 1
  }

  /** `currentChapterNote`: empty before a book is loaded, else the current track's note. */
  function CurrentChapterNote(b: Book, i: int): (note: string)
    requires b != EmptyBook ==> HasTrack(b, i)
    ensures b == EmptyBook ==> note == ""
    ensures b != EmptyBook ==> note == b.playlist.audio[i].notes
  {
    if b == EmptyBook then "" else b.playlist.audio[i].notes
  }

  /** For an in-range index: first means there is no previous track, last means there is no next one. */
  lemma FirstAndLastAreEnds(b: Book, i: int)
    requires HasTrack(b, i)
    ensures IsFirstAudio(i) <==> !HasTrack(b, i - 1)
    ensures IsLastAudio(b, i) <==> !HasTrack(b, i + 1)
    ensures IsLastAudio(b, i) <==> i == UrlsCount(b)
  {
  }

  /** A one-track book at its only track is at both ends. */
  lemma SingleTrackIsFirstAndLast(b: Book)
    requires UrlCount(b) == 1
    ensures IsFirstAudio(0) && IsLastAudio(b, 0)
  {
  }

  /** With no tracks, index 0 counts as first but not as last (0 is not -1). */
  lemma NoTracksIsFirstNotLast(b: Book)
    requires UrlCount(b) == 0
    ensures IsFirstAudio(0) && !IsLastAudio(b, 0)
  {
  }
}
