/** The music navigator's state in the `Player` component (`musicOpen`,
    `selectedArtist`, `selectedAlbum`), the callbacks that change it, the
    query gating derived from it, and its reading as the three-level cursor
    Root / AtArtist / AtAlbum.
 */
module Navigator {
  import opened JsValue
  import opened Library
  import Endpoints
  import opened Commands

  /** The three `useState` hooks of the navigator. */
  datatype Nav = Nav(open: bool, artist: Option<Artist>, album: Option<Album>)

  /** The initial state, also the state every reset returns to. */
  const Hidden := Nav(false, None, None)

  /** The callbacks the navigator UI can fire (`onSelectArtist`, `onSelectAlbum`,
      `onPlayAlbum`, `onPlaySong`, `onBack`, `onClose`, and the Music button). */
  datatype Action =
    | OpenMusic
    | SelectArtist(artist: Artist)
    | SelectAlbum(album: Album)
    | PlayAlbum(albumId: string)
    | PlaySong(songId: string)
    | Back
    | Close

  /** The result of one callback: the next state and the mutations it started. */
  datatype Transition = Transition(next: Nav, commands: seq<Command>)

  /** The Music button: `setMusicOpen(true)`. */
  function Open(n: Nav): (r: Nav)
    ensures r.open
    ensures r.artist == n.artist && r.album == n.album
  {
    n.(open := true)
  }

  /** `onSelectArtist` is the plain setter `setSelectedArtist`. */
  function ChooseArtist(n: Nav, a: Artist): (r: Nav)
    ensures r.artist == Some(a)
    ensures r.open == n.open && r.album == n.album
  {
    n.(artist := Some(a))
  }

  /** `onSelectAlbum` is the plain setter `setSelectedAlbum`. */
  function ChooseAlbum(n: Nav, b: Album): (r: Nav)
    ensures r.album == Some(b)
    ensures r.open == n.open && r.artist == n.artist
  {
    n.(album := Some(b))
  }

  /** `handleBack`: unwind one level, closing the navigator at the top. */
  function GoBack(n: Nav): (r: Nav)
    ensures n.album.Some? ==> r.album.None? && r.artist == n.artist && r.open == n.open
    ensures n.album.None? && n.artist.Some? ==> r.artist.None? && r.album.None? && r.open == n.open
    ensures n.album.None? && n.artist.None? ==> !r.open && r.artist.None? && r.album.None?
  {
    if n.album.Some? then n.(album := None)
    else if n.artist.Some? then n.(artist := None)
    else n.(open := false)
  }

  /** Every callback. `onClose` and the two play handlers end in the hidden,
      empty state; each play handler starts exactly one play mutation. */
  function Dispatch(n: Nav, act: Action): (t: Transition)
    ensures act.PlayAlbum? ==> t.commands == [Command(PlayMutation, Endpoints.PlayAlbum(act.albumId))]
    ensures act.PlaySong? ==> t.commands == [Command(PlayMutation, Endpoints.PlaySong(act.songId))]
    ensures !(act.PlayAlbum? || act.PlaySong?) ==> t.commands == []
    ensures act.Close? || act.PlayAlbum? || act.PlaySong? ==> t.next == Hidden
  {
    match act
    case OpenMusic => Transition(Open(n), [])
    case SelectArtist(a) => Transition(ChooseArtist(n, a), [])
    case SelectAlbum(b) => Transition(ChooseAlbum(n, b), [])
    case PlayAlbum(id) => Transition(Hidden, [Command(PlayMutation, Endpoints.PlayAlbum(id))])
    case PlaySong(id) => Transition(Hidden, [Command(PlayMutation, Endpoints.PlaySong(id))])
    case Back => Transition(GoBack(n), [])
    case Close => Transition(Hidden, [])
  }

  /** The callbacks fired by one click, applied in order. Only the two play
      handlers start anything, and only on the play mutation. */
  function DispatchAll(n: Nav, acts: seq<Action>): (t: Transition)
    ensures |t.commands| <= |acts|
    ensures forall c :: c in t.commands ==> c.slot == PlayMutation && (c.endpoint.PlayAlbum? || c.endpoint.PlaySong?)
    ensures t.commands == [] <==> forall i :: 0 <= i < |acts| ==> !acts[i].PlayAlbum? && !acts[i].PlaySong?
    decreases |acts|
  {
    if |acts| == 0 then Transition(n, [])
    else
      var first := Dispatch(n, acts[0]);
      var rest := DispatchAll(first.next, acts[1..]);
      assert forall i :: 1 <= i < |acts| ==> acts[i] == acts[1..][i - 1];
      Transition(rest.next, first.commands + rest.commands)
  }

  /** One callback alone is that callback. */
  lemma DispatchAllSingle(n: Nav, act: Action)
    ensures DispatchAll(n, [act]) == Dispatch(n, act)
  {
    assert [act][1..] == [];
  }

  /** Firing `xs` and then `ys` ends where firing `xs + ys` ends. */
  lemma {:induction false} DispatchAllAppend(n: Nav, xs: seq<Action>, ys: seq<Action>)
    ensures DispatchAll(n, xs + ys).next == DispatchAll(DispatchAll(n, xs).next, ys).next
    decreases |xs|
  {
    if |xs| == 0 {
      assert xs + ys == ys;
    } else {
      assert (xs + ys)[0] == xs[0];
      assert (xs + ys)[1..] == xs[1..] + ys;
      DispatchAllAppend(Dispatch(n, xs[0]).next, xs[1..], ys);
    }
  }

  /** ... and starts the commands of `xs`, then those of `ys`. */
  lemma {:induction false} DispatchAllAppendCommands(n: Nav, xs: seq<Action>, ys: seq<Action>)
    ensures DispatchAll(n, xs + ys).commands
            == DispatchAll(n, xs).commands + DispatchAll(DispatchAll(n, xs).next, ys).commands
    decreases |xs|
  {
    if |xs| == 0 {
      assert xs + ys == ys;
    } else {
      var first := Dispatch(n, xs[0]);
      assert (xs + ys)[0] == xs[0];
      assert (xs + ys)[1..] == xs[1..] + ys;
      var mid := DispatchAll(first.next, xs[1..]);
      var last := DispatchAll(mid.next, ys);
      calc {
        DispatchAll(n, xs + ys).commands;
        first.commands + DispatchAll(first.next, xs[1..] + ys).commands;
        { DispatchAllAppendCommands(first.next, xs[1..], ys); }
        first.commands + (mid.commands + last.commands);
        { assert first.commands + (mid.commands + last.commands) == (first.commands + mid.commands) + last.commands; }
        (first.commands + mid.commands) + last.commands;
        DispatchAll(n, xs).commands + last.commands;
      }
    }
  }

  // React batches the setter calls of one click: every handler reads the
  // state the click was rendered with, the calls are queued, and then each
  // field takes the last value written to it.

  /** The setter calls of one callback; `None` leaves a field alone. */
  datatype Writes = Writes(open: Option<bool>, artist: Option<Option<Artist>>, album: Option<Option<Album>>)

  /** The setter calls a callback makes, reading the rendered state `n`. */
  function WritesOf(n: Nav, act: Action): Writes {
    match act
    case OpenMusic => Writes(Some(true), None, None)
    case SelectArtist(a) => Writes(None, Some(Some(a)), None)
    case SelectAlbum(b) => Writes(None, None, Some(Some(b)))
    case PlayAlbum(_) => Writes(Some(false), Some(None), Some(None))
    case PlaySong(_) => Writes(Some(false), Some(None), Some(None))
    case Close => Writes(Some(false), Some(None), Some(None))
    case Back =>
      if n.album.Some? then Writes(None, None, Some(None))
      else if n.artist.Some? then Writes(None, Some(None), None)
      else Writes(Some(false), None, None)
  }

  /** Queued writes overwrite the fields they name. */
  function Apply(n: Nav, w: Writes): Nav {
    Nav(w.open.GetOr(n.open), w.artist.GetOr(n.artist), w.album.GetOr(n.album))
  }

  /** The batched update: the writes of every callback, each computed from
      the rendered state, applied to `acc` in order, so the last write to a
      field wins. */
  function Batch(rendered: Nav, acc: Nav, acts: seq<Action>): Nav
    decreases |acts|
  {
    if |acts| == 0 then acc
    else Batch(rendered, Apply(acc, WritesOf(rendered, acts[0])), acts[1..])
  }

  /** Each callback is exactly its setter calls. */
  lemma WritesMatchDispatch(n: Nav, act: Action)
    ensures Apply(n, WritesOf(n, act)) == Dispatch(n, act).next
  {
  }

  /** Without `handleBack`, no callback reads the state, so applying the
      callbacks one after another gives the batched update. */
  lemma {:induction false} BatchWithoutBack(rendered: Nav, s: Nav, acts: seq<Action>)
    requires forall i :: 0 <= i < |acts| ==> !acts[i].Back?
    ensures DispatchAll(s, acts).next == Batch(rendered, s, acts)
    decreases |acts|
  {
    if |acts| > 0 {
      assert WritesOf(rendered, acts[0]) == WritesOf(s, acts[0]);
      WritesMatchDispatch(s, acts[0]);
      BatchWithoutBack(rendered, Dispatch(s, acts[0]).next, acts[1..]);
    }
  }

  /** A click whose callbacks have `handleBack` at most first ends in React's
      batched state when its callbacks are applied in order. */
  lemma {:induction false} InOrderIsBatched(n: Nav, acts: seq<Action>)
    requires forall i :: 1 <= i < |acts| ==> !acts[i].Back?
    ensures DispatchAll(n, acts).next == Batch(n, n, acts)
  {
    if |acts| > 0 {
      WritesMatchDispatch(n, acts[0]);
      BatchWithoutBack(n, Dispatch(n, acts[0]).next, acts[1..]);
    }
  }

  /** The side condition is needed: `handleBack` after a selection in the same
      click reads the rendered state, not the selection. */
  lemma BackAfterSelectNotInOrder(a: Artist, b: Album)
    ensures var n := Nav(true, Some(a), None);
            && DispatchAll(n, [SelectAlbum(b), Back]).next == n
            && Batch(n, n, [SelectAlbum(b), Back]) == Nav(true, None, Some(b))
  {
    var n := Nav(true, Some(a), None);
    assert [SelectAlbum(b), Back][1..] == [Back];
    assert DispatchAll(Nav(true, Some(a), Some(b)), [Back]).next == n;
  }

  /** The play paths are the endpoint paths with the id appended. */
  lemma PlayPaths(n: Nav, id: string)
    ensures Endpoints.Path(Dispatch(n, PlayAlbum(id)).commands[0].endpoint) == "/mediaplayer/play_album_from_albumid/" + id
    ensures Endpoints.Path(Dispatch(n, PlaySong(id)).commands[0].endpoint) == "/mediaplayer/play_song/" + id
  {
  }

  // Query gating: each library query runs only while its `enabled` holds.

  predicate ArtistsEnabled(n: Nav) { n.open && n.artist.None? }

  predicate AlbumsEnabled(n: Nav) { n.artist.Some? && n.album.None? }

  predicate SongsEnabled(n: Nav) { n.album.Some? }

  /** The library requests the enabled queries make: `fetchArtists()`,
      `fetchArtist(selectedArtist.id)` and `fetchAlbum(selectedAlbum.id)`. */
  function Fetches(n: Nav): (es: seq<Endpoints.Endpoint>)
    ensures Endpoints.Artists in es <==> ArtistsEnabled(n)
    ensures forall id :: Endpoints.Artist(id) in es <==> AlbumsEnabled(n) && id == n.artist.value.id
    ensures forall id :: Endpoints.Album(id) in es <==> SongsEnabled(n) && id == n.album.value.id
    ensures forall e :: e in es ==> e.Artists? || e.Artist? || e.Album?
  {
    (if ArtistsEnabled(n) then [Endpoints.Artists] else [])
    + (if AlbumsEnabled(n) then [Endpoints.Artist(n.artist.value.id)] else [])
    + (if SongsEnabled(n) then [Endpoints.Album(n.album.value.id)] else [])
  }

  /** The navigator invariant: an album is only chosen under an artist, and a
      hidden navigator has nothing chosen. */
  predicate Inv(n: Nav) {
    && (n.album.Some? ==> n.artist.Some?)
    && (!n.open ==> n.artist.None? && n.album.None?)
  }

  /** Under the invariant, exactly one library query is enabled while the
      navigator is open and none while it is hidden. */
  lemma GatingExclusive(n: Nav)
    requires Inv(n)
    ensures n.open <==> ArtistsEnabled(n) || AlbumsEnabled(n) || SongsEnabled(n)
    ensures !(ArtistsEnabled(n) && AlbumsEnabled(n))
    ensures !(ArtistsEnabled(n) && SongsEnabled(n))
    ensures !(AlbumsEnabled(n) && SongsEnabled(n))
  {
  }

  /** Under the invariant one library request is made while the navigator is
      open, and none while it is hidden. */
  lemma OneFetchWhileOpen(n: Nav)
    requires Inv(n)
    ensures |Fetches(n)| == if n.open then 1 else 0
  {
  }

  /** After closing or playing nothing is fetched, whatever the state was. */
  lemma ResetDisablesFetches(n: Nav, act: Action)
    requires act.Close? || act.PlayAlbum? || act.PlaySong?
    ensures var m := Dispatch(n, act).next;
            !ArtistsEnabled(m) && !AlbumsEnabled(m) && !SongsEnabled(m) && Inv(m)
  {
  }

  // The navigator read as a cursor: a tagged variant with one level active.

  datatype Cursor = Closed | Root | AtArtist(artist: Artist) | AtAlbum(artist: Artist, album: Album)

  /** The cursor an invariant-respecting state stands for. */
  function CursorOf(n: Nav): (c: Cursor)
    requires Inv(n)
  {
    if !n.open then Closed
    else if n.artist.None? then Root
    else if n.album.None? then AtArtist(n.artist.value)
    else AtAlbum(n.artist.value, n.album.value)
  }

  /** The state a cursor is stored as. */
  function NavOf(c: Cursor): (n: Nav)
    ensures Inv(n)
  {
    match c
    case Closed => Hidden
    case Root => Nav(true, None, None)
    case AtArtist(a) => Nav(true, Some(a), None)
    case AtAlbum(a, b) => Nav(true, Some(a), Some(b))
  }

  /** The state and the cursor determine each other. */
  lemma CursorRoundTrip(n: Nav, c: Cursor)
    requires Inv(n)
    ensures NavOf(CursorOf(n)) == n
    ensures CursorOf(NavOf(c)) == c
  {
  }

  /** The intended cursor machine Closed -> Root -> AtArtist -> AtAlbum, with
      back unwinding one level: `None` where an action is not offered at a level. */
  function CursorStep(c: Cursor, act: Action): Option<Cursor> {
    match act
    case OpenMusic => if c == Closed then Some(Root) else None
    case SelectArtist(a) =>
      (match c
       case Root => Some(AtArtist(a))
       case AtArtist(_) => Some(AtArtist(a))
       case _ => None)
    case SelectAlbum(b) =>
      (match c
       case AtArtist(a) => Some(AtAlbum(a, b))
       case AtAlbum(a, _) => Some(AtAlbum(a, b))
       case _ => None)
    case Back =>
      (match c
       case AtAlbum(a, _) => Some(AtArtist(a))
       case AtArtist(_) => Some(Root)
       case Root => Some(Closed)
       case Closed => None)
    case Close => if c == Closed then None else Some(Closed)
    case PlayAlbum(_) => if c == Closed then None else Some(Closed)
    case PlaySong(_) => if c == Closed then None else Some(Closed)
  }

  /** Wherever the cursor machine defines a step, the state's callbacks take
      the same step: back is a strict one-level unwind, selection replaces
      only its own level, and close and play return to the closed cursor. */
  lemma {:induction false} Simulation(n: Nav, act: Action)
    requires Inv(n)
    requires CursorStep(CursorOf(n), act).Some?
    ensures Inv(Dispatch(n, act).next)
    ensures CursorOf(Dispatch(n, act).next) == CursorStep(CursorOf(n), act).value
  {
    match act
    case Back =>
      if n.album.Some? {
        assert GoBack(n) == Nav(true, n.artist, None);
      }
    case _ =>
  }

  /** Selecting an artist and going back returns to the root; selecting an
      artist and an album and going back twice passes through that artist. */
  lemma BackUnwinds(a: Artist, b: Album)
    ensures var root := Nav(true, None, None);
            var s1 := Dispatch(root, SelectArtist(a)).next;
            var s2 := Dispatch(s1, SelectAlbum(b)).next;
            var s3 := Dispatch(s2, Back).next;
            && Dispatch(s1, Back).next == root
            && CursorOf(s3) == AtArtist(a)
            && Dispatch(s3, Back).next == root
  {
  }
}
