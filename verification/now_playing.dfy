/** The now-playing card of the `Player` component: what it displays from the
    polled `current_track` object, and the five transport buttons that share
    one mutation's pending flag.
 */
module NowPlaying {
  import opened JsValue
  import Endpoints
  import opened Commands

  /** What the card displays. Values are shown as received, so they stay JSON. */
  datatype Display = Display(
    title: Json,
    artist: Option<Json>,
    album: Option<Json>,
    year: Option<Json>,
    pauseIcon: bool,
    volume: Json)

  const NoTrack := JStr("No track")
  const DefaultVolume := JNum(50.0)

  /** `data.current_track || {}` for a response that is not `null`. */
  function TrackOf(data: Json): (track: Json)
    requires !data.JNull?
    ensures Truthy(Some(track))
    ensures Truthy(Get(data, "current_track")) ==> track == Get(data, "current_track").value
    ensures !Truthy(Get(data, "current_track")) ==> track == JObj([])
  {
    var t := Get(data, "current_track");
    if Truthy(t) then t.value else JObj([])
  }

  /** The card for a track object: the title, or "No track" when the title is
      falsy; artist, album and year as they are; the pause icon exactly when
      the status is the string "playing"; the slider at the volume, or at 50
      when the volume is falsy. */
  function Project(track: Json): (d: Display)
    requires !track.JNull?
    ensures Truthy(Some(d.title)) && Truthy(Some(d.volume))
    ensures Truthy(Get(track, "title")) ==> d.title == Get(track, "title").value
    ensures !Truthy(Get(track, "title")) ==> d.title == NoTrack
    ensures d.artist == Get(track, "artist") && d.album == Get(track, "album") && d.year == Get(track, "year")
    ensures d.pauseIcon <==> Get(track, "status") == Some(JStr("playing"))
    ensures Truthy(Get(track, "volume")) ==> d.volume == Get(track, "volume").value
    ensures !Truthy(Get(track, "volume")) ==> d.volume == DefaultVolume
  {
    var title := Get(track, "title");
    var volume := Get(track, "volume");
    Display(
      if Truthy(title) then title.value else NoTrack,
      Get(track, "artist"),
      Get(track, "album"),
      Get(track, "year"),
      Get(track, "status") == Some(JStr("playing")),
      if Truthy(volume) then volume.value else DefaultVolume)
  }

  /** A volume of 0 is falsy, so the slider shows 50 for it. */
  lemma ZeroVolumeShowsFifty(fields: seq<(string, Json)>)
    requires DistinctKeys(fields)
    requires exists i :: 0 <= i < |fields| && fields[i] == ("volume", JNum(0.0))
    ensures Project(JObj(fields)).volume == DefaultVolume
  {
    var i :| 0 <= i < |fields| && fields[i] == ("volume", JNum(0.0));
    DistinctKeysLookup(fields, "volume", i);
  }

  /** Any status other than the exact string "playing" (paused, stopped, a
      number, absent) shows the play icon. */
  lemma PlayIconUnlessPlaying(track: Json, status: Option<Json>)
    requires !track.JNull? && Get(track, "status") == status
    requires status != Some(JStr("playing"))
    ensures !Project(track).pauseIcon
  {
  }

  /** The five transport controls, in the order they are rendered. */
  datatype Control = Prev | PlayPause | Next | VolumeDown | VolumeUp

  const ControlOrder: seq<Control> := [Prev, PlayPause, Next, VolumeDown, VolumeUp]

  /** The command endpoint each control posts to. */
  function ControlEndpoint(c: Control): (e: Endpoints.Endpoint)
    ensures Endpoints.Method(e) == Endpoints.Post
    ensures !e.PlayAlbum? && !e.PlaySong?
  {
    match c
    case Prev => Endpoints.Prev
    case PlayPause => Endpoints.PlayPause
    case Next => Endpoints.Next
    case VolumeDown => Endpoints.VolumeDown
    case VolumeUp => Endpoints.VolumeUp
  }

  /** Distinct controls post to distinct paths. */
  lemma ControlPathsDistinct(c1: Control, c2: Control)
    requires c1 != c2
    ensures Endpoints.Path(ControlEndpoint(c1)) != Endpoints.Path(ControlEndpoint(c2))
  {
    if Endpoints.Path(ControlEndpoint(c1)) == Endpoints.Path(ControlEndpoint(c2)) {
      Endpoints.PathInjective(ControlEndpoint(c1), ControlEndpoint(c2));
    }
  }

  datatype Button = Button(control: Control, disabled: bool)

  /** The transport buttons: one per control, each disabled exactly while the
      transport mutation is pending. (The volume slider is always disabled.) */
  function Buttons(pending: bool): (bs: seq<Button>)
    ensures |bs| == |ControlOrder|
    ensures forall i :: 0 <= i < |bs| ==> bs[i] == Button(ControlOrder[i], pending)
    ensures forall c: Control :: bs[IndexOf(c)] == Button(c, pending)
  {
    seq(|ControlOrder|, i requires 0 <= i < |ControlOrder| => Button(ControlOrder[i], pending))
  }

  /** The position of a control's button. */
  function IndexOf(c: Control): (i: nat)
    ensures i < |ControlOrder| && ControlOrder[i] == c
  {
    match c
    case Prev => 0
    case PlayPause => 1
    case Next => 2
    case VolumeDown => 3
    case VolumeUp => 4
  }

  /** Clicking a button: a disabled button does nothing; an enabled one
      starts the transport mutation on its control's endpoint. */
  function Press(b: Button): (r: Option<Command>)
    ensures r.Some? <==> !b.disabled
    ensures r.Some? ==> r.value.slot == TransportMutation && r.value.endpoint == ControlEndpoint(b.control)
  {
    if b.disabled then None else Some(Command(TransportMutation, ControlEndpoint(b.control)))
  }

  /** While a transport command is pending no button starts another; when
      none is pending every button starts its own, distinct command. */
  lemma PendingExcludesTransport(pending: bool, i: int, j: int)
    requires 0 <= i < |ControlOrder| && 0 <= j < |ControlOrder|
    ensures pending ==> Press(Buttons(pending)[i]).None?
    ensures !pending ==> Press(Buttons(pending)[i]).Some?
    ensures !pending && i != j ==> Press(Buttons(pending)[i]) != Press(Buttons(pending)[j])
  {
    var bs := Buttons(pending);
    if !pending && i != j {
      assert bs[i].control != bs[j].control;
    }
  }
}
