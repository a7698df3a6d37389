/** The `MusicModal` component: what it shows for a navigator state and the
    library data it is given, and which callbacks each click fires.
 */
module MusicModal {
  import opened JsValue
  import opened Library
  import opened Navigator

  /** The normalised library data (`artistsData`, `artistData`, `albumData`);
      `None` is `undefined`. */
  datatype LibraryData = LibraryData(artists: Option<seq<Artist>>, albums: Option<seq<Album>>, songs: Option<seq<Song>>)

  /** The three `isLoading` flags of the library queries. */
  datatype Loading = Loading(artists: bool, albums: bool, songs: bool)

  /** The list in the modal body. */
  datatype Content = NoList | ArtistList(artists: seq<Artist>) | AlbumList(albums: seq<Album>) | SongList(songs: seq<Song>)

  /** The modal body: a spinner, or the optional Back button above the list. */
  datatype Body = Spinner | Panel(backButton: bool, content: Content)

  datatype View = View(open: bool, title: string, body: Body)

  const DefaultTitle := "Artists"

  /** The title and list: songs of the chosen album when its data is there,
      else albums of the chosen artist when theirs is, else the artist list
      when it is there, else nothing; the title follows the list shown. */
  function Select(n: Nav, data: LibraryData): (r: (string, Content))
    ensures r.1.SongList? <==> n.album.Some? && data.songs.Some?
    ensures r.1.AlbumList? <==> !(n.album.Some? && data.songs.Some?) && n.artist.Some? && data.albums.Some?
    ensures r.1.NoList? <==> !r.1.SongList? && !r.1.AlbumList? && data.artists.None?
    ensures r.1.SongList? ==> r == (n.album.value.name, SongList(data.songs.value))
    ensures r.1.AlbumList? ==> r == (n.artist.value.name, AlbumList(data.albums.value))
    ensures r.1.ArtistList? ==> r == (DefaultTitle, ArtistList(data.artists.value))
    ensures r.1.NoList? ==> r.0 == DefaultTitle
  {
    if n.album.Some? && data.songs.Some? then (n.album.value.name, SongList(data.songs.value))
    else if n.artist.Some? && data.albums.Some? then (n.artist.value.name, AlbumList(data.albums.value))
    else if data.artists.Some? then (DefaultTitle, ArtistList(data.artists.value))
    else (DefaultTitle, NoList)
  }

  /** The rendered modal. Any loading flag replaces the whole body with the
      spinner; otherwise the Back button shows exactly when something is chosen. */
  function Render(n: Nav, data: LibraryData, loading: Loading): (v: View)
    ensures v.open == n.open
    ensures v.title == Select(n, data).0
    ensures v.body.Spinner? <==> loading.artists || loading.albums || loading.songs
    ensures v.body.Panel? ==> (v.body.backButton <==> n.artist.Some? || n.album.Some?)
    ensures v.body.Panel? ==> v.body.content == Select(n, data).1
  {
    var (title, content) := Select(n, data);
    if loading.artists || loading.albums || loading.songs then View(n.open, title, Spinner)
    else View(n.open, title, Panel(n.artist.Some? || n.album.Some?, content))
  }

  /** A click inside the modal. */
  datatype Gesture =
    | ClickArtist(artist: Artist)
    | ClickAlbum(album: Album)
    | ClickAlbumPlay(album: Album)
    | ClickSongPlay(song: Song)
    | ClickBack
    | Cancel

  /** The clicks an open modal offers: an item of the list shown, the Back
      button when shown, and cancel (close icon or mask) always. */
  predicate Offers(v: View, g: Gesture) {
    v.open &&
    match g
    case Cancel => true
    case ClickBack => v.body.Panel? && v.body.backButton
    case ClickArtist(a) => v.body.Panel? && v.body.content.ArtistList? && a in v.body.content.artists
    case ClickAlbum(b) => v.body.Panel? && v.body.content.AlbumList? && b in v.body.content.albums
    case ClickAlbumPlay(b) => v.body.Panel? && v.body.content.AlbumList? && b in v.body.content.albums
    case ClickSongPlay(s) => v.body.Panel? && v.body.content.SongList? && s in v.body.content.songs
  }

  /** The callbacks one click fires, as the component is written: the album
      play button sits inside the album row whose own click selects the album,
      and nothing stops the click from reaching the row. */
  function CallbacksAsWritten(g: Gesture): (acts: seq<Action>)
    ensures g.ClickAlbumPlay? ==> acts == [PlayAlbum(g.album.id), SelectAlbum(g.album)]
  {
    match g
    case ClickAlbumPlay(b) => [PlayAlbum(b.id), SelectAlbum(b)]
    case _ => Callbacks(g)
  }

  /** The callbacks one click fires, with the album play click kept to its
      button: a song's play button fires `onPlaySong(song.id)`, an album's
      play button `onPlayAlbum(album.id)`, an album row `onSelectAlbum(album)`,
      an artist row `onSelectArtist(artist)`, Back `onBack`, cancel `onClose`. */
  function Callbacks(g: Gesture): (acts: seq<Action>)
    ensures |acts| == 1
    ensures g.ClickSongPlay? ==> acts[0] == PlaySong(g.song.id)
    ensures g.ClickAlbumPlay? ==> acts[0] == PlayAlbum(g.album.id)
    ensures g.ClickAlbum? ==> acts[0] == SelectAlbum(g.album)
    ensures g.ClickArtist? ==> acts[0] == SelectArtist(g.artist)
    ensures g.ClickBack? ==> acts[0] == Back
    ensures g.Cancel? ==> acts[0] == Close
  {
    match g
    case ClickArtist(a) => [SelectArtist(a)]
    case ClickAlbum(b) => [SelectAlbum(b)]
    case ClickAlbumPlay(b) => [PlayAlbum(b.id)]
    case ClickSongPlay(s) => [PlaySong(s.id)]
    case ClickBack => [Back]
    case Cancel => [Close]
  }

  /** Which of the two click maps a page follows. */
  datatype ClickMap = AsWritten | Corrected

  function Fired(m: ClickMap, g: Gesture): seq<Action> {
    match m
    case AsWritten => CallbacksAsWritten(g)
    case Corrected => Callbacks(g)
  }

  /** Under either click map, `handleBack` never shares a click, so applying a
      click's callbacks in order gives React's batched update. */
  lemma ClicksAreBatched(m: ClickMap, n: Nav, g: Gesture)
    ensures DispatchAll(n, Fired(m, g)).next == Batch(n, n, Fired(m, g))
  {
    InOrderIsBatched(n, Fired(m, g));
  }

  /** Every click the modal offers keeps the navigator invariant: an album can
      only be chosen from the album list, which needs a chosen artist, and
      Back drops the album before the artist. */
  lemma OffersKeepInv(n: Nav, data: LibraryData, loading: Loading, g: Gesture)
    requires Inv(n)
    requires Offers(Render(n, data, loading), g)
    ensures Inv(DispatchAll(n, Callbacks(g)).next)
  {
    var acts := Callbacks(g);
    assert DispatchAll(n, acts).next == Dispatch(n, acts[0]).next;
  }

  /** As written, playing an album from the album list leaves the album chosen
      with no artist and the navigator hidden, so the songs query runs while
      nothing is shown. The starting state is the one reached from the initial
      state by the Music button and a click on artist `a`. */
  lemma AlbumPlayBreaksInv(a: Artist, b: Album)
    ensures var n := Nav(true, Some(a), None);
            var data := LibraryData(None, Some([b]), None);
            var v := Render(n, data, Loading(false, false, false));
            var m := DispatchAll(n, CallbacksAsWritten(ClickAlbumPlay(b))).next;
            && n == DispatchAll(Dispatch(Hidden, OpenMusic).next, Callbacks(ClickArtist(a))).next
            && Inv(n)
            && Offers(v, ClickAlbumPlay(b))
            && m == Nav(false, None, Some(b))
            && !Inv(m)
            && SongsEnabled(m)
  {
    var n := Nav(true, Some(a), None);
    assert DispatchAll(Nav(true, None, None), [SelectArtist(a)]).next == n;
    var acts := CallbacksAsWritten(ClickAlbumPlay(b));
    var first := Dispatch(n, acts[0]);
    assert first.next == Hidden;
    assert acts[1..] == [SelectAlbum(b)];
    assert DispatchAll(Hidden, acts[1..]).next == Nav(false, None, Some(b));
  }

  /** When the data for the chosen level is present, the list shown is that
      level's list; for an open, invariant-respecting state the list follows
      the cursor. */
  lemma ListFollowsCursor(n: Nav, data: LibraryData)
    requires Inv(n) && n.open
    ensures CursorOf(n).AtAlbum? && data.songs.Some? ==>
              Select(n, data) == (CursorOf(n).album.name, SongList(data.songs.value))
    ensures CursorOf(n).AtArtist? && data.albums.Some? ==>
              Select(n, data) == (CursorOf(n).artist.name, AlbumList(data.albums.value))
    ensures CursorOf(n).Root? && data.artists.Some? ==>
              Select(n, data) == (DefaultTitle, ArtistList(data.artists.value))
  {
  }

  /** With the chosen artist's albums missing (query failed or payload had no
      array), the modal falls back to the artist list under the Back button,
      titled "Artists". */
  lemma MissingAlbumsShowArtists(a: Artist, artists: seq<Artist>)
    ensures var v := Render(Nav(true, Some(a), None), LibraryData(Some(artists), None, None), Loading(false, false, false));
            v.title == DefaultTitle && v.body == Panel(true, ArtistList(artists))
  {
  }
}
