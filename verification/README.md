# Media-player remote: library navigator and now-playing card

A Dafny model of the logic inside the `Player` and `MusicModal` components of a
React remote control for a home media player. The model covers five things:

- **Normalisation of library payloads.** The raw JSON of the artists, albums
  or songs request becomes the list the modal shows. The rules are applied in
  order: an array is used as it is; an object's property named `artists` /
  `albums` / `songs` is used when it is an array; otherwise the object's first
  array-valued property is used; otherwise the result is `undefined`. The
  three copies in the client differ only in the key, so the model defines one
  function with the key as a parameter.
- **The navigator state** `{open, artist, album}` and its callbacks: the Music
  button, select artist, select album, back, close, play album and play song.
  Each play handler starts one POST and resets the state.
- **What is derived from that state**: which library query is enabled, and
  what the modal shows. That covers the title, the list, the Back button and
  the spinner, and which callbacks each click fires.
- **The now-playing card.** It shows the title or "No track", the pause icon
  exactly when the status is `"playing"`, and the slider at the volume or 50.
  It also has five transport buttons, and all of them are disabled while the
  shared mutation is pending.
- **The endpoint paths**, with a parser showing that every path names exactly
  one endpoint.

Modules: `JsValue` (JSON values, truthiness, property reads), `Endpoints`,
`Commands` (the two mutation hooks and a `mutate(path)` call), `Library` (the `Artist` / `Album` / `Song` records), `Normalization`,
`Navigator`, `MusicModal`, `NowPlaying`, and `Player`. `Player` puts one whole
render together and lists the clicks a rendered page offers. A page is
parameterised by its click map: `AsWritten` is the modal as the source wires
it, and `Corrected` keeps the album play click to its button (see Findings).
The navigator invariant is proved along every run of renders and clicks under
`Corrected`. Under `AsWritten` a concrete run breaks it.

Some behaviour is outside the files and is taken as a parameter or a
convention:

- The network, the JSON parser and react-query's timing are inputs to a
  render: the `Poll` record, the raw library payloads, the loading flags and
  the pending flag.
- The unchecked `as Artist[]` casts become reader functions passed in as
  parameters.
- React batches the setters fired by one click into a single update: every
  handler reads the state the click was rendered with, and each field takes
  the last value written to it. This is `Navigator.Batch`. `DispatchAll`
  applies the callbacks one after another instead. `Navigator.InOrderIsBatched`
  proves the two agree whenever `handleBack` comes first or not at all, and
  `MusicModal.ClicksAreBatched` shows that this holds for every click.

In two places the component does not behave as one would expect, and the
model follows the code:

- One would expect normalisation never to throw and an unrecognised shape to
  give an empty list. In the code, a truthy string, number or boolean payload
  makes `'artists' in raw` throw a TypeError. That is modelled as `Threw`, and
  it fails the whole render. An object without any array leaves the result
  `undefined`, not an empty list.
- One would expect no library request while the navigator is hidden. The
  code breaks this after an album is played from the album list: see Findings.

## Model

| member | source | states |
|---|---|---|
| JsValue.Lookup | src/pages/Player.tsx:87-88 | for the names the blocks test (`artists`, `albums`, `songs`), `key in o` holds exactly when some own property is named `key`, and `o[key]` is the value of the first such property |
| JsValue.DistinctKeysLookup | src/pages/Player.tsx:87-88 | in an object with distinct keys, reading `key` yields the one property named `key`, wherever it stands |
| JsValue.Truthy | src/pages/Player.tsx:83 | JavaScript truthiness: `undefined`, `null`, `false`, `0`, `""` are falsy; every array and object is truthy |
| JsValue.Get | src/pages/Player.tsx:179-235 | for the keys this client reads (`current_track`, `title`, `artist`, `album`, `year`, `status`, `volume`), reading a property of a non-null value: strings, numbers, booleans and arrays yield `undefined`; an object yields the value of its first own property named `key`, and a value exactly when it has the key |
| Endpoints.Path | src/pages/Player.tsx:12-24 | the eleven paths of the `endpoints` table, with ids appended verbatim |
| Endpoints.ParsePath | src/pages/Player.tsx:12-24 | every path the client builds, ids included, parses back to the endpoint it came from |
| Endpoints.PathParse | src/pages/Player.tsx:12-24 | any path that parses is exactly the path of its endpoint (the other half of the round trip) |
| Endpoints.PathInjective | src/pages/Player.tsx:12-24 | two different endpoints never share a path, so a POST path determines the command and its id |
| Normalization.FirstArray | src/pages/Player.tsx:91 | the scan `Object.values(o).find(Array.isArray)` finds nothing iff no property is an array, and otherwise returns the items of the first array-valued property in enumeration order |
| Normalization.NormalizeObject | src/pages/Player.tsx:87-93 | an object never throws; a named array property is the result; without one, the result is the first array-valued property, and `undefined` iff there is none |
| Normalization.Normalize | src/pages/Player.tsx:82-94 | a falsy payload gives `undefined`; an array is returned unchanged; an object is searched by name and then by scan; only a truthy non-array, non-object payload throws |
| Normalization.NamedBeatsScan | src/pages/Player.tsx:87-88 | when the property named `key` is an array, it is the result even if an earlier property is also an array, and that earlier array is not returned |
| Normalization.NamedNonArraySkipped | src/pages/Player.tsx:89-92 | a property named `key` that is not an array causes no error; the result is the first array-valued property |
| Normalization.UndefinedIff | src/pages/Player.tsx:82-94 | the result is `undefined` (never an empty list) exactly when the payload is falsy or is an object without an array-valued property |
| Normalization.ItemsComeFromPayload | src/pages/Player.tsx:85-92 | a normalised list is always the payload itself or the value of one of its own properties |
| Normalization.LoneArrayAnyKey | src/pages/Player.tsx:87-92 | an object whose only property is an array yields that array, whatever the property is called and whatever the expected key |
| Normalization.Examples | src/pages/Player.tsx:82-140 | a named array after a string property is found; a lone array property is found under an unrelated name such as `foo`; `{}` and `{foo:"bar"}` stay `undefined`; a string payload throws |
| Navigator.Open | src/pages/Player.tsx:190 | the Music button opens the navigator and keeps both selections |
| Navigator.ChooseArtist | src/pages/Player.tsx:260 | `onSelectArtist` sets only the artist; `open` and the album are unchanged |
| Navigator.ChooseAlbum | src/pages/Player.tsx:261 | `onSelectAlbum` sets only the album; `open` and the artist are unchanged |
| Navigator.GoBack | src/pages/Player.tsx:166-174 | back clears only the album if one is set, else only the artist if one is set, else only closes the navigator |
| Navigator.Dispatch | src/pages/Player.tsx:152-164 | the play handlers and close end in the hidden, empty state; each play handler starts exactly one play-mutation POST to its endpoint; no other callback starts anything |
| Navigator.DispatchAll | src/pages/Player.tsx:152-164 | a click's callbacks applied in order start at most one command per callback, all on the play mutation and all to a play endpoint, and start none exactly when no play handler is among them |
| Navigator.DispatchAllSingle | src/pages/Player.tsx:152-174 | a click firing one callback has exactly that callback's effect |
| Navigator.DispatchAllAppend | src/pages/Player.tsx:152-174 | firing two lists of callbacks one after the other ends where firing their concatenation ends |
| Navigator.DispatchAllAppendCommands | src/pages/Player.tsx:152-164 | firing a concatenation starts the first list's commands, then those of the second list from the state the first left |
| Navigator.WritesMatchDispatch | src/pages/Player.tsx:152-174 | each callback is exactly its setter calls, read against the current state |
| Navigator.BatchWithoutBack | src/pages/Player.tsx:152-164 | without `handleBack`, no callback reads the state, so applying callbacks in order equals the batched update from any rendered state |
| Navigator.InOrderIsBatched | src/pages/Player.tsx:152-174 | callbacks with `handleBack` at most first, applied in order, end in React's batched state where each field takes its last write |
| Navigator.BackAfterSelectNotInOrder | src/pages/Player.tsx:166-174 | the side condition matters: `handleBack` after a selection in the same click reads the rendered state, so in-order and batched results differ |
| Navigator.PlayPaths | src/pages/Player.tsx:22-23 | playing posts to `/mediaplayer/play_album_from_albumid/` + id or `/mediaplayer/play_song/` + id |
| Navigator.ArtistsEnabled | src/pages/Player.tsx:78 | the artists query runs while the navigator is open and no artist is chosen |
| Navigator.AlbumsEnabled | src/pages/Player.tsx:101 | the albums query runs while an artist is chosen and no album is |
| Navigator.SongsEnabled | src/pages/Player.tsx:124 | the songs query runs while an album is chosen, open or not |
| Navigator.Fetches | src/pages/Player.tsx:75-125 | the library requests made: `/subsonic/artists` iff the artists query is enabled, the chosen artist's path iff the albums query is, the chosen album's path iff the songs query is, and nothing else |
| Navigator.OneFetchWhileOpen | src/pages/Player.tsx:75-125 | under the invariant, exactly one library request is made while the navigator is open and none while it is hidden |
| Navigator.GatingExclusive | src/pages/Player.tsx:75-125 | under the invariant, a library query is enabled iff the navigator is open, and no two of the artists / albums / songs queries are enabled together |
| Navigator.ResetDisablesFetches | src/pages/Player.tsx:265-269 | after close or either play, no library query is enabled and the invariant holds, from any state |
| Navigator.NavOf | src/pages/Player.tsx:70-72 | every cursor level (closed, root, at artist, at album) is stored as a state satisfying the invariant |
| Navigator.CursorRoundTrip | src/pages/Player.tsx:70-72 | invariant-respecting states and cursors correspond one to one |
| Navigator.Simulation | src/pages/Player.tsx:166-174 | wherever the intended cursor machine Closed → Root → AtArtist → AtAlbum defines a step, the callbacks take the same step: back unwinds one level, a selection replaces its own level, close and play return to closed |
| Navigator.BackUnwinds | src/pages/Player.tsx:166-174 | select artist then back returns to the root; select artist, select album, back, back passes through that artist and ends at the root |
| MusicModal.Select | src/pages/MusicModal.tsx:56-118 | songs titled with the album name if an album is chosen and its songs are present; else albums titled with the artist name if an artist is chosen and its albums are present; else artists titled "Artists" if present; else nothing, titled "Artists" |
| MusicModal.Render | src/pages/MusicModal.tsx:120-148 | the modal is open iff the navigator is; any loading flag replaces the whole body with the spinner; otherwise Back shows iff an artist or an album is chosen |
| MusicModal.Offers | src/pages/MusicModal.tsx:63-145 | an open modal offers a click on each item of the list shown, on Back when it is shown, and cancel always; a spinner offers no item |
| MusicModal.Callbacks | src/pages/MusicModal.tsx:63-124 | (corrected: album play fires only `onPlayAlbum`) each click fires exactly one callback: song play `onPlaySong(song.id)`, album play `onPlayAlbum(album.id)`, album row `onSelectAlbum(album)`, artist row `onSelectArtist(artist)`, Back `onBack`, cancel `onClose` |
| MusicModal.CallbacksAsWritten | src/pages/MusicModal.tsx:85-98 | as written, the album play click also reaches the row and fires `onPlayAlbum(album.id)` and then `onSelectAlbum(album)` |
| MusicModal.ClicksAreBatched | src/pages/MusicModal.tsx:63-124 | under either click map, a click's callbacks applied in order give React's batched update |
| MusicModal.OffersKeepInv | src/pages/MusicModal.tsx:80-96 | (corrected: album play fires only `onPlayAlbum`) every click the modal offers keeps the invariant: an album is chosen only with an artist, and a hidden navigator has nothing chosen |
| MusicModal.AlbumPlayBreaksInv | src/pages/MusicModal.tsx:86-98 | from the initial state, after Music and a click on an artist, playing an album from the list as written leaves a hidden navigator holding an album and no artist, with the songs query enabled |
| MusicModal.ListFollowsCursor | src/pages/MusicModal.tsx:56-118 | for an open navigator, when the chosen level's data is present the modal shows that level's list with that level's title |
| MusicModal.MissingAlbumsShowArtists | src/pages/MusicModal.tsx:80-117 | with an artist chosen and its albums missing, the modal falls back to the artists list, titled "Artists", under a Back button |
| NowPlaying.TrackOf | src/pages/Player.tsx:179 | the track is `current_track` when truthy, otherwise `{}`, so it is always truthy |
| NowPlaying.Project | src/pages/Player.tsx:195-235 | the title shown is the track's title when truthy, else "No track"; the pause icon shows iff the status is exactly `"playing"`; the slider shows the volume when truthy, else 50; the shown title and volume are never falsy |
| NowPlaying.ZeroVolumeShowsFifty | src/pages/Player.tsx:235 | a volume of 0 is shown as 50 |
| NowPlaying.PlayIconUnlessPlaying | src/pages/Player.tsx:212 | any status other than the string `"playing"`, including a missing one, shows the play icon |
| NowPlaying.ControlEndpoint | src/pages/Player.tsx:204-245 | every transport control posts to a command endpoint, never to a library or play endpoint |
| NowPlaying.ControlPathsDistinct | src/pages/Player.tsx:13-18 | different transport controls post to different paths |
| NowPlaying.Buttons | src/pages/Player.tsx:204-245 | there is one button per control, and each button is disabled exactly when the transport mutation is pending |
| NowPlaying.Press | src/pages/Player.tsx:148-150 | a disabled button starts nothing; an enabled one starts the transport mutation on its control's endpoint |
| NowPlaying.PendingExcludesTransport | src/pages/Player.tsx:207-242 | while a transport command is pending no button starts another; otherwise every button starts its own, distinct command |
| Player.ListOf | src/pages/Player.tsx:255-257 | the modal receives `undefined` exactly when the block left it undefined, and otherwise a list of the same length read element by element |
| Player.RenderPlayer | src/pages/Player.tsx:82-179 | a throwing normalisation block fails every render, even while loading; otherwise the loading card comes first and the error card second; the render fails exactly when a block throws or, past both cards, the data is missing or null; a screen renders exactly when no block throws, nothing is loading or failed and the data is not null; it shows the projected track, the gated buttons, and the modal rendered from the navigator with the three normalised lists in the artists, albums and songs slots |
| Player.PageOffers | src/pages/Player.tsx:176-245 | only a rendered screen takes clicks (the loading and error cards have no buttons); the Music button is always offered; a modal click is offered as `MusicModal.Offers` says; a transport button is offered only while enabled. Clicks on the card under the modal's mask are treated as offered (see "Left out") |
| Player.Handle | src/pages/Player.tsx:148-150 | a transport click leaves the navigator unchanged and starts its command iff no transport command is pending |
| Player.RequestVerbs | src/pages/Player.tsx:26-54 | every mutation a click starts goes through `postAction` (POST), and every library request is a plain `fetch` (GET) |
| Player.HandleKeepsInv | src/pages/Player.tsx:250-270 | (corrected: album play fires only `onPlayAlbum`) every click a rendered page offers keeps the navigator invariant |
| Player.RunKeepsInv | src/pages/Player.tsx:250-270 | (corrected: album play fires only `onPlayAlbum`) the invariant holds after every run of renders and offered clicks |
| Player.RunGating | src/pages/Player.tsx:75-125 | (corrected: album play fires only `onPlayAlbum`) from the initial state, no library request is made while the navigator is hidden, and at most one at a time |
| Player.ShowcaseOffers | src/pages/MusicModal.tsx:80-117 | a page whose payloads are the records' own `{id, name}` objects, listing artist A and, under A, album B, offers Music, then a click on A, then B's play button |
| Player.ShowcaseSteps | src/pages/MusicModal.tsx:86-98 | along that run both click maps open and select A; B's play button then leaves album B under no artist as written, and the initial state when corrected |
| Player.AsWrittenRunFetchesWhileHidden | src/pages/MusicModal.tsx:86-98 | on the page as written, three offered clicks from the initial state end hidden with album B chosen under no artist and B's songs still requested; the corrected page ends in the initial state |
| Player.PlayIgnoresTransportPending | src/pages/Player.tsx:143-164 | under either click map, both play clicks (song and album) start their command on the separate play mutation, so it is sent even while a transport command is pending |

## Findings

| source | as written | input that shows it | evidently intended | confidence | as-written member | corrected member |
|---|---|---|---|---|---|---|
| src/pages/MusicModal.tsx:86-98 | The album's play button is rendered inside the album `List.Item`, whose `onClick` is `onSelectAlbum(album)`. The button's handler does not stop propagation, so one click fires `onPlayAlbum(album.id)` and then `onSelectAlbum(album)`. React batches both into `{open: false, artist: null, album: album}`. | Open the navigator, select artist A, and press play on album B in A's list. The result is a hidden navigator holding album B with no artist. The songs query (`enabled: !!selectedAlbum`) then runs while nothing is shown, and reopening shows B's songs even though no artist is chosen. | The play button fires only `onPlayAlbum`. Then every offered click keeps "album implies artist" and "hidden implies nothing chosen", and no query runs while the navigator is hidden. | medium — depends on click bubbling from the action button to the list row; not executed | MusicModal.CallbacksAsWritten, MusicModal.AlbumPlayBreaksInv, Player.AsWrittenRunFetchesWhileHidden | MusicModal.Callbacks, MusicModal.OffersKeepInv, Player.HandleKeepsInv, Player.RunKeepsInv, Player.RunGating |

## Left out

- HTTP transport, `res.ok` and `res.json()` (src/pages/Player.tsx:26-54). This is I/O. The raw payloads and the poll outcome are inputs to a render, and a POST is the emitted `Command`.
- react-query's internals are library and asynchronous semantics, so they are left out. This covers the 2000 ms refetch interval, caching per query key, how `isLoading` and `isPending` evolve, and late or stale responses, so no guard against a stale response is modelled. Invalidating the `currentTrack` query on a mutation's success is not modelled either: a refetch is just the next render's poll input.
- Rendering, antd components, styling and `console.log`. These are presentation. The model keeps only what a view shows and which clicks it offers. Clicks on the player card while the modal's mask covers it are treated as offered. This does not affect the invariant.
- src/App.tsx. It only sets up the query client.
- The `API_BASE` host. Paths are modelled relative to it.
- The number keys of an object. JavaScript's `Object.values` lists integer-like keys first. Here an object is its own properties already in enumeration order.
- JSON numbers are modelled as reals. Precision, `-0` and very large numbers are not modelled.
- Player.RenderPlayer: the track's title, artist, album and year are rendered as React children (src/pages/Player.tsx:195-201). React throws on an object child, so the page fails to render when one of them is an object. The model still gives a `Screen` there. What a value looks like on screen is presentation, and the model does not constrain it.
- Player.ListOf: the `as Artist[]` / `as Album[]` / `as Song[]` casts are unchecked in TypeScript. How a JSON element is read as a record is a parameter, so a malformed element is not modelled. A `null` element never reaches a click: `renderItem` reads `artist.name` or `album.name` (src/pages/MusicModal.tsx:99, 113), so the render would throw first. That crash is not modelled.
- Navigator.Simulation: the intended cursor machine offers some actions at no level. The code can still take them when the modal falls back to an earlier list, for example selecting an artist while an album is chosen. Those steps are modelled by `Dispatch`, but the simulation lemma does not cover them.
