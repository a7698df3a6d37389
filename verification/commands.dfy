/** The two mutation hooks of the `Player` component and the calls made on
    them. Both POST to a path; the transport buttons watch only the first
    one's pending flag, and the navigator's play handlers use the second.
 */
module Commands {
  import Endpoints

  /** `mutation` (transport buttons) and `playMutation` (play album / song). */
  datatype Slot = TransportMutation | PlayMutation

  /** One `mutate(path)` call. */
  datatype Command = Command(slot: Slot, endpoint: Endpoints.Endpoint)
}
