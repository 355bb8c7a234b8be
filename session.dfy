/**
 * The stream connection's state and callbacks. The program keeps one guest
 * list for its whole run and hands the same list object to every connection
 * it opens; a connection also holds the site list and the site id of the
 * message being handled.
 */
module Session {
  import opened Wrappers
  import opened Records
  import opened Classifier
  import opened Channel
  import opened Enrichment
  import opened Pipeline

  /**
   * The optional keys of `guest_data` set one by one, each only when the
   * client's guest block has it: the result holds exactly the block's keys.
   */
  method CopyGuestBlock(block: GuestBlock) returns (details: GuestBlock)
    ensures details == block
  {
    details := NoDetails;
    if block.authorizedTime.Some? { details := details.(authorizedTime := block.authorizedTime); }
    assert details.authorizedTime == block.authorizedTime;
    if block.authMethod.Some? { details := details.(authMethod := block.authMethod); }
    assert details.authMethod == block.authMethod;
    if block.accessCodeEmail.Some? { details := details.(accessCodeEmail := block.accessCodeEmail); }
    assert details.accessCodeEmail == block.accessCodeEmail;
    if block.name.Some? { details := details.(name := block.name); }
    assert details.name == block.name;
    if block.email.Some? { details := details.(email := block.email); }
    assert details.email == block.email;
    if block.company.Some? { details := details.(company := block.company); }
    assert details.company == block.company;
    if block.sponsorName.Some? { details := details.(sponsorName := block.sponsorName); }
    assert details.sponsorName == block.sponsorName;
    if block.sponsorEmail.Some? { details := details.(sponsorEmail := block.sponsorEmail); }
  }

  /** The guest list: identities of the guests already written, in order. */
  class GuestList {
    var items: seq<GuestIdentity>

    constructor ()
      ensures items == []
    {
      items := [];
    }

    /** `any(element == identity for element in guest_list)`. */
    method Contains(identity: GuestIdentity) returns (found: bool)
      ensures found <==> identity in items
    {
      found := false;
      var k := 0;
      while k < |items| && !found
        invariant 0 <= k <= |items|
        invariant found <==> identity in items[..k]
      {
        found := items[k] == identity;
        k := k + 1;
      }
      assert !found ==> items[..k] == items;
    }

    /** `guest_list.append(identity)`. */
    method Append(identity: GuestIdentity)
      modifies this
      ensures items == old(items) + [identity]
    {
      items := items + [identity];
    }
  }

  /** One stream connection (the `ws` object and the fields the program sets on it). */
  class GuestLogger {
    const sites: seq<Site>
    var currentSiteId: Option<string>
    const guestList: GuestList

    /** The guest list never holds an identity twice. */
    ghost predicate Valid()
      reads this, guestList
    {
      NoDuplicates(guestList.items)
    }

    /** A connection over the normalised site list, sharing the program's guest list. */
    constructor (sites: seq<Site>, guestList: GuestList)
      requires NoDuplicates(guestList.items)
      ensures Valid()
      ensures this.sites == sites && this.guestList == guestList && currentSiteId == None
    {
      this.sites := sites;
      this.guestList := guestList;
      currentSiteId := None;
    }

    /**
     * `on_open`: one subscription per site, in site order, to the site's
     * client-statistics topic; every topic whose site id is a valid capture
     * names its site again when it comes back as a message channel.
     */
    method OnOpen() returns (sent: seq<Subscription>)
      ensures |sent| == |sites|
      ensures forall i :: 0 <= i < |sites| ==> sent[i] == Subscription(Topic(sites[i].id))
      ensures forall i :: 0 <= i < |sites| && ValidSiteId(sites[i].id) ==>
        ExtractSiteId(sent[i].topic) == Some(sites[i].id)
    {
      sent := [];
      for k := 0 to |sites|
        invariant |sent| == k
        invariant forall i :: 0 <= i < k ==> sent[i] == Subscription(Topic(sites[i].id))
      {
        var topic := SitesMarker + sites[k].id + ClientsSuffix;
        sent := sent + [Subscription(topic)];
      }
      forall i | 0 <= i < |sites| && ValidSiteId(sites[i].id)
        ensures ExtractSiteId(sent[i].topic) == Some(sites[i].id)
      {
        TopicRoundTrip(sites[i].id);
      }
    }

    /**
     * `on_message`: a message naming a site sets the current site id and is
     * processed; the guest list gains exactly the identity the handling
     * records, so it stays free of duplicates.
     */
    method OnMessage(raw: Option<Message>, lookup: Lookup, writeOk: bool, now: string)
      returns (h: Handling)
      requires Valid()
      modifies this`currentSiteId, guestList
      ensures Valid()
      ensures h == Handle(sites, old(guestList.items), raw, lookup, writeOk, now)
      ensures guestList.items == old(guestList.items) + NewEntries(h)
      ensures currentSiteId == if SiteOf(raw).Some? then SiteOf(raw) else old(currentSiteId)
    {
      if raw.None? {
        return Unreadable;
      }
      var message := raw.value;
      if message.channel.None? {
        return NoSite;
      }
      var siteId := ExtractSiteId(message.channel.value);
      if siteId.None? {
        return NoSite;
      }
      currentSiteId := siteId;
      h := ProcessMessage(message.data, lookup, writeOk, now);
    }

    /** `process_message` for the current site. */
    method ProcessMessage(data: Payload, lookup: Lookup, writeOk: bool, now: string)
      returns (h: Handling)
      requires Valid() && currentSiteId.Some?
      modifies guestList
      ensures Valid()
      ensures h == Process(sites, old(guestList.items), currentSiteId.value, data, lookup, writeOk, now)
      ensures guestList.items == old(guestList.items) + NewEntries(h)
    {
      if !data.Encoded? {
        return NoData;
      }
      if data.decoded.None? {
        return Malformed;
      }
      var event := data.decoded.value;
      if !IsGuest(event.isGuest, event.ssid) {
        // the log line for a non-guest reads the mac too
        return if event.mac.Some? then NotGuest else Malformed;
      }
      if event.mac.None? || event.ip.None? {
        return Malformed;
      }
      var identity := GuestIdentity(event.mac.value, event.ip.value);
      var known := guestList.Contains(identity);
      if known {
        return KnownGuest;
      }
      var query := Query(currentSiteId.value, event.mac.value);
      if lookup.status != StatusOk {
        return LookupFailed(query, lookup.status);
      }
      if lookup.body.None? {
        return BadClientStat(query);
      }
      h := HandleGuestData(query, identity, lookup.body.value, writeOk, now);
    }

    /**
     * `handle_guest_data`: builds the profile key by key, appends it to the
     * day's file (outcome `writeOk`) and appends the identity to the guest
     * list whether or not that write succeeded.
     */
    method HandleGuestData(query: Query, identity: GuestIdentity, stat: ClientStat,
                           writeOk: bool, now: string)
      returns (h: Handling)
      requires Valid() && currentSiteId.Some? && identity !in guestList.items
      modifies guestList
      ensures Valid()
      ensures h == Enrich(sites, currentSiteId.value, query, identity, stat, writeOk, now)
      ensures guestList.items == old(guestList.items) + NewEntries(h)
    {
      if stat.mac.None? || stat.ip.None? || stat.assocTime.None? || stat.ssid.None? {
        return BadClientStat(query);
      }
      var siteId := currentSiteId.value;
      var profile := GuestProfile(
        mac := stat.mac.value,
        ip := stat.ip.value,
        assocTime := stat.assocTime.value,
        ssid := stat.ssid.value,
        siteId := siteId,
        siteName := SiteName(sites, siteId),
        eventDate := now,
        guestDataPresent := false,
        details := NoDetails);
      if stat.guest.Some? {
        var block := stat.guest.value;
        profile := profile.(guestDataPresent := true);
        var details := CopyGuestBlock(block);
        profile := profile.(details := details);
      }
      h := Recorded(query, identity, profile, writeOk);
      guestList.Append(identity);
    }
  }
}
