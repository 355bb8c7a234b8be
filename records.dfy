/**
 * The values the guest logger handles: sites from the organisation's site
 * list, inbound stream messages and their decoded client data, the per-client
 * statistics returned by the enrichment lookup, the guest profile written to
 * the day's file, and the (mac, ip) identity kept in the guest list.
 */
module Records {
  import opened Wrappers

  /** One site of the organisation (`{'id': ..., 'name': ...}`). */
  datatype Site = Site(id: string, name: string)

  /**
   * The decoded `data` of a stream message. `isGuest` is the truthiness of its
   * `is_guest` key (a missing key is falsy); `None` marks a missing key.
   */
  datatype EventData = EventData(isGuest: bool, ssid: Option<string>, mac: Option<string>, ip: Option<string>)

  /**
   * The `data` entry of a stream message: absent, present but not a string,
   * or a string whose JSON decoding gives client data (`None` when it does not
   * decode to an object).
   */
  datatype Payload = Missing | NotString | Encoded(decoded: Option<EventData>)

  /** A decoded stream message; `channel` is `None` when missing or not a string. */
  datatype Message = Message(channel: Option<string>, data: Payload)

  /** The deduplication key `{'mac': ..., 'ip': ...}`, compared structurally. */
  datatype GuestIdentity = GuestIdentity(mac: string, ip: string)

  /**
   * The optional keys of the `guest` block of a client's statistics, each
   * `None` when absent. `authorizedTime` is the already formatted timestamp.
   */
  datatype GuestBlock = GuestBlock(
    authorizedTime: Option<string>,
    authMethod: Option<string>,
    accessCodeEmail: Option<string>,
    name: Option<string>,
    email: Option<string>,
    company: Option<string>,
    sponsorName: Option<string>,
    sponsorEmail: Option<string>)

  /** A guest block with none of its keys. */
  const NoDetails := GuestBlock(None, None, None, None, None, None, None, None)

  /**
   * The decoded body of the per-client statistics lookup; `assocTime` is the
   * already formatted association time, `guest` the optional guest block.
   */
  datatype ClientStat = ClientStat(
    mac: Option<string>,
    ip: Option<string>,
    assocTime: Option<string>,
    ssid: Option<string>,
    guest: Option<GuestBlock>)

  /** Outcome of the per-client lookup: its status and its decoded body (`None`: not JSON). */
  datatype Lookup = Lookup(status: int, body: Option<ClientStat>)

  /** The per-client lookup the logger issues: site id and MAC address. */
  datatype Query = Query(siteId: string, mac: string)

  /**
   * The record appended to the day's file. `guestDataPresent` is true when the
   * key `guest_data_present` is written (always with the value True) and false
   * when it is absent; `details` holds the optional keys copied from the
   * client's guest block.
   */
  datatype GuestProfile = GuestProfile(
    mac: string,
    ip: string,
    assocTime: string,
    ssid: string,
    siteId: string,
    siteName: Option<string>,
    eventDate: string,
    guestDataPresent: bool,
    details: GuestBlock)

  /** The subscription request `{'subscribe': topic}` sent when the stream opens. */
  datatype Subscription = Subscription(topic: string)

  /** No value occurs twice in `s`. */
  predicate NoDuplicates<T(==)>(s: seq<T>) {
    forall i, j :: 0 <= i < j < |s| ==> s[i] != s[j]
  }
}
