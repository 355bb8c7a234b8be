/**
 * What one inbound stream message does, as a function of the site list, the
 * guest list before it, the message, and the outcomes of the two external
 * steps it may take: the per-client lookup and the append to the day's file.
 * The class GuestLogger (module Session) performs these steps on its fields
 * and is proved to agree with `Handle`.
 */
module Pipeline {
  import opened Wrappers
  import opened Records
  import opened Classifier
  import opened Channel
  import opened Enrichment

  /** The lookup status that lets a guest be recorded. */
  const StatusOk := 200

  /** How a message was handled, one case per way out of `on_message`. */
  datatype Handling =
    | Unreadable                      // the message is not JSON
    | NoSite                          // no channel, or no site id in it
    | NoData                          // `data` missing or not a string
    | Malformed                       // `data` not a JSON object, or a key read unconditionally is missing
    | NotGuest                        // the client is not classified as a guest
    | KnownGuest                      // the (mac, ip) identity is already in the guest list
    | LookupFailed(query: Query, status: int)
    | BadClientStat(query: Query)     // status 200 but a body without a required key, or not JSON
    | Recorded(query: Query, identity: GuestIdentity, profile: GuestProfile, written: bool)

  /** What the handling appends to the guest list. */
  function NewEntries(h: Handling): seq<GuestIdentity> {
    if h.Recorded? then [h.identity] else []
  }

  /** The handling issued the per-client lookup. */
  predicate IssuesLookup(h: Handling) {
    h.LookupFailed? || h.BadClientStat? || h.Recorded?
  }

  /** The site id a raw message names in its channel, if any. */
  function SiteOf(raw: Option<Message>): Option<string> {
    if raw.Some? && raw.value.channel.Some? then ExtractSiteId(raw.value.channel.value) else None
  }

  /** `handle_guest_data` after a successful lookup: build the profile, then record the identity. */
  function Enrich(sites: seq<Site>, siteId: string, query: Query, identity: GuestIdentity,
                  stat: ClientStat, writeOk: bool, now: string): Handling
  {
    match Profile(stat, siteId, sites, now)
    case None => BadClientStat(query)
    case Some(p) => Recorded(query, identity, p, writeOk)
  }

  /** `process_message` for a message from site `siteId`. */
  function Process(sites: seq<Site>, ledger: seq<GuestIdentity>, siteId: string, data: Payload,
                   lookup: Lookup, writeOk: bool, now: string): Handling
  {
    match data
    case Missing => NoData
    case NotString => NoData
    case Encoded(None) => Malformed
    case Encoded(Some(ev)) =>
      if !IsGuest(ev.isGuest, ev.ssid) then
        if ev.mac.Some? then NotGuest else Malformed
      else if ev.mac.None? || ev.ip.None? then Malformed
      else
        var identity := GuestIdentity(ev.mac.value, ev.ip.value);
        if identity in ledger then KnownGuest
        else
          var query := Query(siteId, ev.mac.value);
          if lookup.status != StatusOk then LookupFailed(query, lookup.status)
          else if lookup.body.None? then BadClientStat(query)
          else Enrich(sites, siteId, query, identity, lookup.body.value, writeOk, now)
  }

  /** `on_message`: decode, take the site id from the channel, then process. */
  function Handle(sites: seq<Site>, ledger: seq<GuestIdentity>, raw: Option<Message>,
                  lookup: Lookup, writeOk: bool, now: string): Handling
  {
    match raw
    case None => Unreadable
    case Some(m) =>
      match SiteOf(raw)
      case None => NoSite
      case Some(siteId) => Process(sites, ledger, siteId, m.data, lookup, writeOk, now)
  }

  /** The guest identity a message announces, when it is a decodable guest message with mac and ip. */
  function AnnouncedGuest(raw: Option<Message>): Option<GuestIdentity> {
    if raw.Some? && raw.value.data.Encoded? && raw.value.data.decoded.Some? then
      var ev := raw.value.data.decoded.value;
      if IsGuest(ev.isGuest, ev.ssid) && ev.mac.Some? && ev.ip.Some?
      then Some(GuestIdentity(ev.mac.value, ev.ip.value)) else None
    else None
  }

  /**
   * A guest is recorded exactly when the message names a site, announces a
   * guest whose identity is not in the guest list, the lookup returns 200
   * with a usable body; the identity recorded is the message's, and the
   * lookup was keyed by the message's site id and mac. The outcome of the
   * file write plays no part.
   */
  lemma RecordedIff(sites: seq<Site>, ledger: seq<GuestIdentity>, raw: Option<Message>,
                    lookup: Lookup, writeOk: bool, now: string)
    ensures Handle(sites, ledger, raw, lookup, writeOk, now).Recorded? <==>
      && SiteOf(raw).Some? && AnnouncedGuest(raw).Some?
      && AnnouncedGuest(raw).value !in ledger
      && lookup.status == StatusOk && lookup.body.Some?
      && Profile(lookup.body.value, SiteOf(raw).value, sites, now).Some?
    ensures Handle(sites, ledger, raw, lookup, writeOk, now).Recorded? ==>
      var h := Handle(sites, ledger, raw, lookup, writeOk, now);
      && h.identity == AnnouncedGuest(raw).value
      && h.query == Query(SiteOf(raw).value, h.identity.mac)
      && Some(h.profile) == Profile(lookup.body.value, SiteOf(raw).value, sites, now)
      && h.written == writeOk
  {
  }

  /** Only a message classified as a guest, with an identity not yet listed, leads to a lookup. */
  lemma LookupOnlyForNewGuests(sites: seq<Site>, ledger: seq<GuestIdentity>, raw: Option<Message>,
                               lookup: Lookup, writeOk: bool, now: string)
    ensures IssuesLookup(Handle(sites, ledger, raw, lookup, writeOk, now)) <==>
      SiteOf(raw).Some? && AnnouncedGuest(raw).Some? && AnnouncedGuest(raw).value !in ledger
  {
  }

  /** A message that names no site changes nothing and reaches no later step. */
  lemma NoSiteNoEffect(sites: seq<Site>, ledger: seq<GuestIdentity>, raw: Option<Message>,
                       lookup: Lookup, writeOk: bool, now: string)
    requires SiteOf(raw).None?
    ensures var h := Handle(sites, ledger, raw, lookup, writeOk, now);
      (h == Unreadable || h == NoSite) && NewEntries(h) == []
  {
  }

  /**
   * The cases that leave the guest list as it was: no usable `data`, not a
   * guest, a guest already listed, or a lookup that did not return 200.
   */
  lemma UnchangedCases(sites: seq<Site>, ledger: seq<GuestIdentity>, raw: Option<Message>,
                       lookup: Lookup, writeOk: bool, now: string)
    requires
      || (raw.Some? && !raw.value.data.Encoded?)
      || AnnouncedGuest(raw).None?
      || AnnouncedGuest(raw).value in ledger
      || lookup.status != StatusOk
    ensures NewEntries(Handle(sites, ledger, raw, lookup, writeOk, now)) == []
  {
  }

  /**
   * A failed lookup is retried: the guest list is unchanged, so the same
   * message, whatever the next lookup returns, issues the lookup again.
   */
  lemma FailedLookupIsRetried(sites: seq<Site>, ledger: seq<GuestIdentity>, raw: Option<Message>,
                              lookup: Lookup, writeOk: bool, now: string,
                              lookup': Lookup, writeOk': bool, now': string)
    requires Handle(sites, ledger, raw, lookup, writeOk, now).LookupFailed?
    ensures NewEntries(Handle(sites, ledger, raw, lookup, writeOk, now)) == []
    ensures IssuesLookup(Handle(sites, ledger, raw, lookup', writeOk', now'))
  {
  }

  /**
   * A recorded guest is recorded once: after its identity is appended, the
   * same message, whatever the lookup and write would return, finds it known.
   */
  lemma RecordedOnce(sites: seq<Site>, ledger: seq<GuestIdentity>, raw: Option<Message>,
                     lookup: Lookup, writeOk: bool, now: string,
                     lookup': Lookup, writeOk': bool, now': string)
    requires Handle(sites, ledger, raw, lookup, writeOk, now).Recorded?
    ensures Handle(sites, ledger + NewEntries(Handle(sites, ledger, raw, lookup, writeOk, now)),
                   raw, lookup', writeOk', now') == KnownGuest
  {
  }

  /** A failed write still records the guest: the write outcome changes only the `written` flag. */
  lemma WriteFailureStillRecords(sites: seq<Site>, ledger: seq<GuestIdentity>, raw: Option<Message>,
                                 lookup: Lookup, now: string)
    ensures var ok := Handle(sites, ledger, raw, lookup, true, now);
            var failed := Handle(sites, ledger, raw, lookup, false, now);
      && (ok.Recorded? <==> failed.Recorded?)
      && (ok.Recorded? ==> failed == ok.(written := false))
      && (!ok.Recorded? ==> failed == ok)
      && NewEntries(ok) == NewEntries(failed)
  {
  }

  /** One message keeps the guest list free of duplicates, extends it, and adds at most one identity. */
  lemma HandleKeepsLedger(sites: seq<Site>, ledger: seq<GuestIdentity>, raw: Option<Message>,
                          lookup: Lookup, writeOk: bool, now: string)
    requires NoDuplicates(ledger)
    ensures var after := ledger + NewEntries(Handle(sites, ledger, raw, lookup, writeOk, now));
      NoDuplicates(after) && ledger <= after && |after| <= |ledger| + 1
  {
  }

  /** One inbound message with the outcomes of the external steps it may take. */
  datatype Delivery = Delivery(raw: Option<Message>, lookup: Lookup, writeOk: bool, now: string)

  /** The guest list after a sequence of messages, starting from `ledger`. */
  function Run(sites: seq<Site>, ledger: seq<GuestIdentity>, ds: seq<Delivery>): seq<GuestIdentity>
    decreases |ds|
  {
    if ds == [] then ledger
    else
      var d := ds[0];
      Run(sites, ledger + NewEntries(Handle(sites, ledger, d.raw, d.lookup, d.writeOk, d.now)), ds[1..])
  }

  /**
   * Over any sequence of messages the guest list only grows, by at most one
   * identity per message, and never holds an identity twice: each guest is
   * recorded at most once per process lifetime.
   */
  lemma {:induction false} RunKeepsLedger(sites: seq<Site>, ledger: seq<GuestIdentity>, ds: seq<Delivery>)
    requires NoDuplicates(ledger)
    ensures NoDuplicates(Run(sites, ledger, ds))
    ensures ledger <= Run(sites, ledger, ds)
    ensures |Run(sites, ledger, ds)| <= |ledger| + |ds|
    decreases |ds|
  {
    if ds != [] {
      var d := ds[0];
      HandleKeepsLedger(sites, ledger, d.raw, d.lookup, d.writeOk, d.now);
      var next := ledger + NewEntries(Handle(sites, ledger, d.raw, d.lookup, d.writeOk, d.now));
      RunKeepsLedger(sites, next, ds[1..]);
    }
  }
  /**
   * A flagged guest on network "Corp-Guest" announced on site S1's topic,
   * whose lookup returns a guest block naming Jane, is recorded with
   * `guest_data_present`, the name Jane and the site id S1.
   */
  lemma JaneScenario(t: string, now: string)
    ensures
      var raw := Some(Message(Some(Topic("S1")),
        Encoded(Some(EventData(true, Some("Corp-Guest"), Some("AA:BB"), Some("10.0.0.5"))))));
      var stat := ClientStat(Some("AA:BB"), Some("10.0.0.5"), Some(t), Some("Corp-Guest"),
        Some(NoDetails.(name := Some("Jane"))));
      var h := Handle([], [], raw, Lookup(StatusOk, Some(stat)), true, now);
      && h.Recorded?
      && h.identity == GuestIdentity("AA:BB", "10.0.0.5")
      && h.profile.guestDataPresent
      && h.profile.details.name == Some("Jane")
      && h.profile.siteId == "S1"
  {
  }
}
