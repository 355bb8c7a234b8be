/**
 * The guest profile built from a successful per-client lookup: the client's
 * own mac, ip, association time and SSID, the site id and name the message
 * came from, the event date, and the keys copied from the optional guest block.
 */
module Enrichment {
  import opened Wrappers
  import opened Records

  /** Site `i` is the first site of `sites` whose id is `siteId`. */
  ghost predicate FirstSiteWithId(sites: seq<Site>, siteId: string, i: int) {
    0 <= i < |sites| && sites[i].id == siteId &&
    forall j :: 0 <= j < i ==> sites[j].id != siteId
  }

  /**
   * `next((item['name'] for item in sites if item['id'] == siteId), None)`:
   * the name of the first site with that id, or none when no site has it.
   */
  function SiteName(sites: seq<Site>, siteId: string): (r: Option<string>)
    ensures r.None? <==> forall i :: 0 <= i < |sites| ==> sites[i].id != siteId
    ensures r.Some? ==> exists i :: FirstSiteWithId(sites, siteId, i) && sites[i].name == r.value
    decreases |sites|
  {
    if sites == [] then None
    else if sites[0].id == siteId then Some(sites[0].name)
    else SiteName(sites[1..], siteId)
  }

  /**
   * The dictionary `guest_data` for a client's statistics, or `None` when one
   * of the keys it reads unconditionally (mac, ip, assoc_time, ssid) is
   * missing, which raises a KeyError and abandons the guest.
   */
  function Profile(stat: ClientStat, siteId: string, sites: seq<Site>, now: string): Option<GuestProfile> {
    if stat.mac.None? || stat.ip.None? || stat.assocTime.None? || stat.ssid.None? then None
    else Some(GuestProfile(
      mac := stat.mac.value,
      ip := stat.ip.value,
      assocTime := stat.assocTime.value,
      ssid := stat.ssid.value,
      siteId := siteId,
      siteName := SiteName(sites, siteId),
      eventDate := now,
      guestDataPresent := stat.guest.Some?,
      details := stat.guest.GetOr(NoDetails)))
  }

  /**
   * What the profile holds: a profile exists iff the four required keys are
   * there; its client fields come from the looked-up statistics; its site name
   * is that of the first site with the message's site id; `guest_data_present`
   * is written iff a guest block exists, and each optional key is present iff
   * it is present in that block.
   */
  lemma ProfileFields(stat: ClientStat, siteId: string, sites: seq<Site>, now: string)
    ensures Profile(stat, siteId, sites, now).Some? <==>
      stat.mac.Some? && stat.ip.Some? && stat.assocTime.Some? && stat.ssid.Some?
    ensures Profile(stat, siteId, sites, now).Some? ==>
      var p := Profile(stat, siteId, sites, now).value;
      && Some(p.mac) == stat.mac && Some(p.ip) == stat.ip
      && Some(p.assocTime) == stat.assocTime && Some(p.ssid) == stat.ssid
      && p.siteId == siteId && p.eventDate == now
      && (p.siteName.None? <==> forall i :: 0 <= i < |sites| ==> sites[i].id != siteId)
      && (p.siteName.Some? ==> exists i :: FirstSiteWithId(sites, siteId, i) && sites[i].name == p.siteName.value)
      && (p.guestDataPresent <==> stat.guest.Some?)
      && (stat.guest.Some? ==> p.details == stat.guest.value)
      && (stat.guest.None? ==> p.details == NoDetails)
  {
  }
}
