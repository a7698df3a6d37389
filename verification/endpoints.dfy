/** The backend paths the client requests (`endpoints` in src/pages/Player.tsx),
    relative to the configured host, and a parser that recovers the endpoint
    from a path: every path names exactly one endpoint.
 */
module Endpoints {
  import opened JsValue

  /** One entry of the `endpoints` table; the last four take an opaque id. */
  datatype Endpoint =
    | CurrentTrack
    | PlayPause
    | Next
    | Prev
    | VolumeUp
    | VolumeDown
    | Artists
    | Artist(artistId: string)
    | Album(albumId: string)
    | PlayAlbum(albumId: string)
    | PlaySong(songId: string)

  datatype Verb = Get | Post

  const CurrentTrackPath := "/mediaplayer/current_track"
  const PlayPausePath := "/mediaplayer/play_pause"
  const NextPath := "/mediaplayer/next_track"
  const PrevPath := "/mediaplayer/previous_track"
  const VolumeUpPath := "/mediaplayer/volume_up"
  const VolumeDownPath := "/mediaplayer/volume_down"
  const ArtistsPath := "/subsonic/artists"
  const ArtistPrefix := "/subsonic/artist/"
  const AlbumPrefix := "/subsonic/album/"
  const PlayAlbumPrefix := "/mediaplayer/play_album_from_albumid/"
  const PlaySongPrefix := "/mediaplayer/play_song/"

  /** The path string the client sends, ids interpolated verbatim. */
  function Path(e: Endpoint): string {
    match e
    case CurrentTrack => CurrentTrackPath
    case PlayPause => PlayPausePath
    case Next => NextPath
    case Prev => PrevPath
    case VolumeUp => VolumeUpPath
    case VolumeDown => VolumeDownPath
    case Artists => ArtistsPath
    case Artist(id) => ArtistPrefix + id
    case Album(id) => AlbumPrefix + id
    case PlayAlbum(id) => PlayAlbumPrefix + id
    case PlaySong(id) => PlaySongPrefix + id
  }

  /** Status and library reads go through `fetch` with no method (GET); the
      transport and play commands go through `postAction` (POST). */
  function Method(e: Endpoint): Verb {
    match e
    case CurrentTrack => Get
    case Artists => Get
    case Artist(_) => Get
    case Album(_) => Get
    case _ => Post
  }

  predicate HasPrefix(p: string, pre: string) {
    |pre| <= |p| && p[..|pre|] == pre
  }

  /** The endpoint a path names, or `None` for a path the client never sends. */
  function Parse(p: string): (r: Option<Endpoint>) {
    if p == CurrentTrackPath then Some(CurrentTrack)
    else if p == PlayPausePath then Some(PlayPause)
    else if p == NextPath then Some(Next)
    else if p == PrevPath then Some(Prev)
    else if p == VolumeUpPath then Some(VolumeUp)
    else if p == VolumeDownPath then Some(VolumeDown)
    else if p == ArtistsPath then Some(Artists)
    else if HasPrefix(p, ArtistPrefix) then Some(Artist(p[|ArtistPrefix|..]))
    else if HasPrefix(p, AlbumPrefix) then Some(Album(p[|AlbumPrefix|..]))
    else if HasPrefix(p, PlayAlbumPrefix) then Some(PlayAlbum(p[|PlayAlbumPrefix|..]))
    else if HasPrefix(p, PlaySongPrefix) then Some(PlaySong(p[|PlaySongPrefix|..]))
    else None
  }

  /** Two strings that differ at some index are different strings. */
  lemma DifferAt(p: string, q: string, k: nat)
    requires k < |p| && k < |q| && p[k] != q[k]
    ensures p != q
  {
  }

  /** Every path the client builds parses back to the endpoint it was built from. */
  lemma {:induction false} ParsePath(e: Endpoint)
    ensures Parse(Path(e)) == Some(e)
  {
    match e
    case Artist(id) => ParseArtistPath(id);
    case Album(id) => ParseAlbumPath(id);
    case PlayAlbum(id) => ParsePlayAlbumPath(id);
    case PlaySong(id) => ParsePlaySongPath(id);
    case _ =>
  }

  lemma {:induction false} ParseArtistPath(id: string)
    ensures Parse(ArtistPrefix + id) == Some(Artist(id))
  {
    var p := ArtistPrefix + id;
    assert p[1] == 's' && p[10] == 'a' && p[16] == '/';
    assert p[..|ArtistPrefix|] == ArtistPrefix;
    assert p[|ArtistPrefix|..] == id;
  }

  lemma {:induction false} ParseAlbumPath(id: string)
    ensures Parse(AlbumPrefix + id) == Some(Album(id))
  {
    var p := AlbumPrefix + id;
    assert p[1] == 's' && p[10] == 'a' && p[11] == 'l';
    assert p[..|AlbumPrefix|] == AlbumPrefix;
    assert !HasPrefix(p, ArtistPrefix) by {
      if |ArtistPrefix| <= |p| { DifferAt(p[..|ArtistPrefix|], ArtistPrefix, 11); }
    }
    assert p[|AlbumPrefix|..] == id;
  }

  lemma {:induction false} ParsePlayAlbumPath(id: string)
    ensures Parse(PlayAlbumPrefix + id) == Some(PlayAlbum(id))
  {
    var p := PlayAlbumPrefix + id;
    assert p[1] == 'm' && p[13] == 'p' && p[18] == 'a' && |p| >= 37;
    assert p[..|PlayAlbumPrefix|] == PlayAlbumPrefix;
    assert !HasPrefix(p, ArtistPrefix) by { DifferAt(p[..|ArtistPrefix|], ArtistPrefix, 1); }
    assert !HasPrefix(p, AlbumPrefix) by { DifferAt(p[..|AlbumPrefix|], AlbumPrefix, 1); }
    assert p[|PlayAlbumPrefix|..] == id;
  }

  lemma {:induction false} ParsePlaySongPath(id: string)
    ensures Parse(PlaySongPrefix + id) == Some(PlaySong(id))
  {
    var p := PlaySongPrefix + id;
    assert p[1] == 'm' && p[13] == 'p' && p[18] == 's' && |p| >= 23;
    assert p != NextPath by { DifferAt(p, NextPath, 13); }
    assert p[..|PlaySongPrefix|] == PlaySongPrefix;
    assert !HasPrefix(p, ArtistPrefix) by { DifferAt(p[..|ArtistPrefix|], ArtistPrefix, 1); }
    assert !HasPrefix(p, AlbumPrefix) by { DifferAt(p[..|AlbumPrefix|], AlbumPrefix, 1); }
    assert !HasPrefix(p, PlayAlbumPrefix) by { DifferAt(p[..|PlaySongPrefix|], PlayAlbumPrefix[..|PlaySongPrefix|], 18); }
    assert p[|PlaySongPrefix|..] == id;
  }

  /** A path that parses is exactly the path of the endpoint it parses to. */
  lemma {:induction false} PathParse(p: string)
    requires Parse(p).Some?
    ensures Path(Parse(p).value) == p
  {
    var e := Parse(p).value;
    match e
    case Artist(id) => assert p == p[..|ArtistPrefix|] + p[|ArtistPrefix|..];
    case Album(id) => assert p == p[..|AlbumPrefix|] + p[|AlbumPrefix|..];
    case PlayAlbum(id) => assert p == p[..|PlayAlbumPrefix|] + p[|PlayAlbumPrefix|..];
    case PlaySong(id) => assert p == p[..|PlaySongPrefix|] + p[|PlaySongPrefix|..];
    case _ =>
  }

  /** Distinct endpoints are requested under distinct paths. */
  lemma PathInjective(e1: Endpoint, e2: Endpoint)
    requires Path(e1) == Path(e2)
    ensures e1 == e2
  {
    ParsePath(e1);
    ParsePath(e2);
  }
}
