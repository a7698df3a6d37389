/** The music-library records the navigator shows (the `Artist`, `Album` and
    `Song` interfaces of src/pages/MusicModal.tsx). Ids are opaque strings;
    `year` and a song's `artist` are optional.
 */
module Library {
  import opened JsValue

  datatype Artist = Artist(id: string, name: string)

  datatype Album = Album(id: string, name: string, year: Option<string>)

  datatype Song = Song(id: string, title: string, artist: Option<string>)
}
