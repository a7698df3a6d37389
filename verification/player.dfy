/** The `Player` component as a whole: one render from the navigator state and
    the query results, the clicks the rendered page offers, and what each click
    does. Renders and clicks alternate; the navigator invariant holds along
    every such run from the initial state.
 */
module Player {
  import opened JsValue
  import opened Library
  import opened Normalization
  import opened Navigator
  import opened MusicModal
  import opened NowPlaying
  import Endpoints
  import opened Commands

  /** The `currentTrack` query as the render sees it. */
  datatype Poll = Poll(isLoading: bool, isError: bool, data: Option<Json>)

  /** The raw `data` of the three library queries (`None` is `undefined`). */
  datatype RawLibrary = RawLibrary(artists: Option<Json>, albums: Option<Json>, songs: Option<Json>)

  /** How list elements are read as records. The client casts them without a
      check (`as Artist[]`), so the reading is a parameter of the model. */
  datatype Readers = Readers(artist: Json -> Artist, album: Json -> Album, song: Json -> Song)

  /** Everything a render reads besides the navigator state. */
  datatype Inputs = Inputs(poll: Poll, pending: bool, raw: RawLibrary, loading: Loading, read: Readers)

  /** The outcome of one render. A TypeError in a normalisation block or in
      `data.current_track` fails the whole render. */
  datatype Page =
    | Crashed
    | LoadingCard
    | ErrorCard
    | Screen(now: Display, buttons: seq<Button>, modal: View)

  /** A normalised block as the list handed to the modal. */
  function ListOf<T>(r: Normalized, read: Json -> T): (l: Option<seq<T>>)
    requires !r.Threw?
    ensures l.None? <==> r.Undefined?
    ensures l.Some? ==> |l.value| == |r.list| && forall i :: 0 <= i < |r.list| ==> l.value[i] == read(r.list[i])
  {
    match r
    case Items(xs) => Some(seq(|xs|, i requires 0 <= i < |xs| => read(xs[i])))
    case Undefined => None
  }

  /** One render of `Player`. The three blocks run first, so a block that
      throws fails every render; then the loading card, then the error card;
      otherwise the card shows `current_track` and the modal gets the
      normalised lists. */
  function RenderPlayer(n: Nav, inp: Inputs): (p: Page)
    ensures (|| Normalize(inp.raw.artists, "artists").Threw?
             || Normalize(inp.raw.albums, "albums").Threw?
             || Normalize(inp.raw.songs, "songs").Threw?) ==> p == Crashed
    ensures p == LoadingCard <==> inp.poll.isLoading && !p.Crashed?
    ensures p == ErrorCard <==> !inp.poll.isLoading && inp.poll.isError && !p.Crashed?
    ensures p.Screen? ==> p.buttons == Buttons(inp.pending)
    ensures p.Screen? ==> inp.poll.data.Some? && !inp.poll.data.value.JNull?
                          && p.now == Project(TrackOf(inp.poll.data.value))
    ensures p.Screen? ==> p.modal.open == n.open
    ensures p.Crashed? <==>
              || Normalize(inp.raw.artists, "artists").Threw?
              || Normalize(inp.raw.albums, "albums").Threw?
              || Normalize(inp.raw.songs, "songs").Threw?
              || (!inp.poll.isLoading && !inp.poll.isError && (inp.poll.data.None? || inp.poll.data.value.JNull?))
    ensures p.Screen? <==>
              && !Normalize(inp.raw.artists, "artists").Threw?
              && !Normalize(inp.raw.albums, "albums").Threw?
              && !Normalize(inp.raw.songs, "songs").Threw?
              && !inp.poll.isLoading && !inp.poll.isError
              && inp.poll.data.Some? && !inp.poll.data.value.JNull?
    ensures p.Screen? ==>
              p.modal == Render(n, LibraryData(ListOf(Normalize(inp.raw.artists, "artists"), inp.read.artist),
                                               ListOf(Normalize(inp.raw.albums, "albums"), inp.read.album),
                                               ListOf(Normalize(inp.raw.songs, "songs"), inp.read.song)),
                                inp.loading)
  {
    var artists := Normalize(inp.raw.artists, "artists");
    var albums := Normalize(inp.raw.albums, "albums");
    var songs := Normalize(inp.raw.songs, "songs");
    if artists.Threw? || albums.Threw? || songs.Threw? then Crashed
    else if inp.poll.isLoading then LoadingCard
    else if inp.poll.isError then ErrorCard
    else if inp.poll.data.None? || inp.poll.data.value.JNull? then Crashed
    else
      var data := LibraryData(ListOf(artists, inp.read.artist), ListOf(albums, inp.read.album), ListOf(songs, inp.read.song));
      Screen(Project(TrackOf(inp.poll.data.value)), Buttons(inp.pending), Render(n, data, inp.loading))
  }

  /** A click on the page: the Music button, a click in the modal, or a
      transport button. */
  datatype PageGesture = Music | InModal(g: Gesture) | Transport(control: Control)

  /** Only a rendered screen takes clicks; a transport button only while enabled. */
  predicate PageOffers(p: Page, g: PageGesture) {
    p.Screen? &&
    match g
    case Music => true
    case InModal(mg) => Offers(p.modal, mg)
    case Transport(c) => IndexOf(c) < |p.buttons| && !p.buttons[IndexOf(c)].disabled
  }

  /** What a click does to the navigator and which mutations it starts; a
      click in the modal fires the callbacks of the click map `m`. */
  function Handle(m: ClickMap, n: Nav, pending: bool, g: PageGesture): (t: Transition)
    ensures g.Transport? ==> t.next == n
    ensures g.Transport? ==> (t.commands == [] <==> pending)
    ensures g.Transport? && !pending ==> t.commands == [Command(TransportMutation, ControlEndpoint(g.control))]
  {
    match g
    case Music => Dispatch(n, OpenMusic)
    case InModal(mg) => DispatchAll(n, Fired(m, mg))
    case Transport(c) =>
      match Press(Button(c, pending))
      case Some(cmd) => Transition(n, [cmd])
      case None => Transition(n, [])
  }

  /** Every mutation a click starts is a POST (`postAction`), and every
      library request an enabled query makes is a plain `fetch` (GET). */
  lemma RequestVerbs(m: ClickMap, n: Nav, pending: bool, g: PageGesture)
    ensures forall c :: c in Handle(m, n, pending, g).commands ==> Endpoints.Method(c.endpoint) == Endpoints.Post
    ensures forall e :: e in Fetches(n) ==> Endpoints.Method(e) == Endpoints.Get
  {
  }

  /** With the corrected click map, every click a page offers keeps the
      navigator invariant. */
  lemma HandleKeepsInv(n: Nav, inp: Inputs, g: PageGesture)
    requires Inv(n)
    requires PageOffers(RenderPlayer(n, inp), g)
    ensures Inv(Handle(Corrected, n, inp.pending, g).next)
  {
    var p := RenderPlayer(n, inp);
    if g.InModal? {
      var artists := Normalize(inp.raw.artists, "artists");
      var albums := Normalize(inp.raw.albums, "albums");
      var songs := Normalize(inp.raw.songs, "songs");
      var data := LibraryData(ListOf(artists, inp.read.artist), ListOf(albums, inp.read.album), ListOf(songs, inp.read.song));
      assert p.modal == Render(n, data, inp.loading);
      OffersKeepInv(n, data, inp.loading, g.g);
    }
  }

  /** One render followed by one click on it. */
  datatype Frame = Frame(inp: Inputs, g: PageGesture)

  /** The navigator state after a run of frames. */
  function Run(m: ClickMap, n: Nav, frames: seq<Frame>): Nav
    decreases |frames|
  {
    if |frames| == 0 then n
    else Run(m, Handle(m, n, frames[0].inp.pending, frames[0].g).next, frames[1..])
  }

  /** Every click of the run is one its render offered. */
  predicate Offered(m: ClickMap, n: Nav, frames: seq<Frame>)
    decreases |frames|
  {
    |frames| == 0 ||
    (PageOffers(RenderPlayer(n, frames[0].inp), frames[0].g)
     && Offered(m, Handle(m, n, frames[0].inp.pending, frames[0].g).next, frames[1..]))
  }

  /** With the corrected click map, the navigator invariant holds along every
      run of offered clicks: an album is never chosen without an artist, and a
      hidden navigator has nothing chosen. */
  lemma {:induction false} RunKeepsInv(n: Nav, frames: seq<Frame>)
    requires Inv(n)
    requires Offered(Corrected, n, frames)
    ensures Inv(Run(Corrected, n, frames))
    decreases |frames|
  {
    if |frames| > 0 {
      HandleKeepsInv(n, frames[0].inp, frames[0].g);
      RunKeepsInv(Handle(Corrected, n, frames[0].inp.pending, frames[0].g).next, frames[1..]);
    }
  }

  /** Consequently, with the corrected click map, no library request is made
      while the navigator is hidden and at most one is made at a time. */
  lemma RunGating(frames: seq<Frame>)
    requires Offered(Corrected, Hidden, frames)
    ensures var m := Run(Corrected, Hidden, frames);
            && (!m.open ==> Fetches(m) == [])
            && |Fetches(m)| <= 1
  {
    RunKeepsInv(Hidden, frames);
    OneFetchWhileOpen(Run(Corrected, Hidden, frames));
  }

  /** A page with a track loaded, listing artist `a` and, under it, album
      `b`; each payload is a one-element array of the record's own fields, and
      the readers return the record that element encodes. */
  function ShowcaseInputs(a: Artist, b: Album): Inputs {
    Inputs(
      Poll(false, false, Some(JObj([]))),
      false,
      RawLibrary(Some(JArr([ArtistJson(a)])), Some(JArr([AlbumJson(b)])), None),
      Loading(false, false, false),
      Readers(_ => a, _ => b, _ => Song("", "", None)))
  }

  /** An artist as the server sends it. */
  function ArtistJson(a: Artist): Json {
    JObj([("id", JStr(a.id)), ("name", JStr(a.name))])
  }

  /** An album as the server sends it. */
  function AlbumJson(b: Album): Json {
    JObj([("id", JStr(b.id)), ("name", JStr(b.name))]
         + if b.year.Some? then [("year", JStr(b.year.value))] else [])
  }

  /** On the page as written, Music, a click on artist `a` and the play button
      of album `b` end with the navigator hidden, album `b` chosen under no
      artist, and the songs request still made; the same offered clicks under
      the corrected click map end in the initial state. */
  lemma AsWrittenRunFetchesWhileHidden(a: Artist, b: Album)
    ensures var inp := ShowcaseInputs(a, b);
            var frames := [Frame(inp, Music), Frame(inp, InModal(ClickArtist(a))), Frame(inp, InModal(ClickAlbumPlay(b)))];
            && Offered(AsWritten, Hidden, frames)
            && Run(AsWritten, Hidden, frames) == Nav(false, None, Some(b))
            && Fetches(Run(AsWritten, Hidden, frames)) == [Endpoints.Album(b.id)]
            && Offered(Corrected, Hidden, frames)
            && Run(Corrected, Hidden, frames) == Hidden
  {
    var inp := ShowcaseInputs(a, b);
    var f0, f1, f2 := Frame(inp, Music), Frame(inp, InModal(ClickArtist(a))), Frame(inp, InModal(ClickAlbumPlay(b)));
    var frames := [f0, f1, f2];
    assert frames[1..] == [f1, f2] && [f1, f2][1..] == [f2] && [f2][1..] == [];
    var root := Nav(true, None, None);
    var atA := Nav(true, Some(a), None);
    ShowcaseOffers(a, b);
    ShowcaseSteps(AsWritten, a, b);
    ShowcaseSteps(Corrected, a, b);
    assert Offered(AsWritten, Nav(false, None, Some(b)), []);
    assert Offered(AsWritten, atA, [f2]);
    assert Offered(AsWritten, root, [f1, f2]);
    assert Offered(Corrected, Hidden, []);
    assert Offered(Corrected, atA, [f2]);
    assert Offered(Corrected, root, [f1, f2]);
    assert Run(AsWritten, atA, [f2]) == Nav(false, None, Some(b));
    assert Run(Corrected, atA, [f2]) == Hidden;
  }

  /** Each frame of the showcase run offers its click. */
  lemma ShowcaseOffers(a: Artist, b: Album)
    ensures var inp := ShowcaseInputs(a, b);
            && PageOffers(RenderPlayer(Hidden, inp), Music)
            && PageOffers(RenderPlayer(Nav(true, None, None), inp), InModal(ClickArtist(a)))
            && PageOffers(RenderPlayer(Nav(true, Some(a), None), inp), InModal(ClickAlbumPlay(b)))
  {
    var inp := ShowcaseInputs(a, b);
    ListedAs(a, b);
    var data := LibraryData(Some([a]), Some([b]), None);
    assert RenderPlayer(Hidden, inp).Screen?;
    assert RenderPlayer(Nav(true, None, None), inp).modal == Render(Nav(true, None, None), data, inp.loading);
    assert RenderPlayer(Nav(true, Some(a), None), inp).modal == Render(Nav(true, Some(a), None), data, inp.loading);
  }

  /** The navigator states along the showcase run, under either click map. */
  lemma ShowcaseSteps(m: ClickMap, a: Artist, b: Album)
    ensures Handle(m, Hidden, false, Music).next == Nav(true, None, None)
    ensures Handle(m, Nav(true, None, None), false, InModal(ClickArtist(a))).next == Nav(true, Some(a), None)
    ensures m == AsWritten ==> Handle(m, Nav(true, Some(a), None), false, InModal(ClickAlbumPlay(b))).next == Nav(false, None, Some(b))
    ensures m == Corrected ==> Handle(m, Nav(true, Some(a), None), false, InModal(ClickAlbumPlay(b))).next == Hidden
  {
    assert DispatchAll(Nav(true, None, None), [SelectArtist(a)]).next == Nav(true, Some(a), None);
    assert [PlayAlbum(b.id), SelectAlbum(b)][1..] == [SelectAlbum(b)];
    assert DispatchAll(Hidden, [SelectAlbum(b)]).next == Nav(false, None, Some(b));
    assert DispatchAll(Nav(true, Some(a), None), [PlayAlbum(b.id)]).next == Hidden;
  }

  /** The showcase readers turn each one-element payload into that record. */
  lemma ListedAs(a: Artist, b: Album)
    ensures ListOf(Items([ArtistJson(a)]), ShowcaseInputs(a, b).read.artist) == Some([a])
    ensures ListOf(Items([AlbumJson(b)]), ShowcaseInputs(a, b).read.album) == Some([b])
  {
    var r := ShowcaseInputs(a, b).read;
    assert r.artist(ArtistJson(a)) == a && r.album(AlbumJson(b)) == b;
    var la := ListOf(Items([ArtistJson(a)]), r.artist).value;
    var lb := ListOf(Items([AlbumJson(b)]), r.album).value;
    assert |la| == 1 && la[0] == a;
    assert |lb| == 1 && lb[0] == b;
    assert la == [a];
    assert lb == [b];
  }

  /** The play mutation is separate from the transport mutation: playing from
      the modal starts a command even while a transport command is pending. */
  lemma PlayIgnoresTransportPending(m: ClickMap, n: Nav, s: Song, b: Album)
    ensures Handle(m, n, true, InModal(ClickSongPlay(s))).commands
            == [Command(PlayMutation, Endpoints.PlaySong(s.id))]
    ensures Handle(m, n, true, InModal(ClickAlbumPlay(b))).commands
            == [Command(PlayMutation, Endpoints.PlayAlbum(b.id))]
  {
    assert DispatchAll(n, [PlaySong(s.id)]).commands == Dispatch(n, PlaySong(s.id)).commands;
    assert Fired(Corrected, ClickAlbumPlay(b)) == [PlayAlbum(b.id)];
    assert [PlayAlbum(b.id), SelectAlbum(b)][1..] == [SelectAlbum(b)];
    assert DispatchAll(n, [PlayAlbum(b.id)]).commands == Dispatch(n, PlayAlbum(b.id)).commands;
  }
}
