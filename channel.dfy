/**
 * The stream channel names: the topic `/sites/<id>/stats/clients` the logger
 * subscribes to for each site, and the extraction of the site id from an
 * inbound message's channel with the pattern `/sites/([^/]+)/stats`, searched
 * for leftmost-first as Python's `re.search` does.
 */
module Channel {
  import opened Wrappers

  const SitesMarker: string := "/sites/"
  const StatsMarker: string := "/stats"
  const ClientsSuffix: string := "/stats/clients"

  predicate NoSlash(s: string) {
    forall i :: 0 <= i < |s| ==> s[i] != '/'
  }

  /** What the group `[^/]+` can capture: a non-empty run without '/'. */
  predicate ValidSiteId(id: string) {
    id != [] && NoSlash(id)
  }

  /** The topic subscribed to for a site. */
  function Topic(siteId: string): string {
    SitesMarker + siteId + ClientsSuffix
  }

  /** The longest prefix of `s` without '/' (what the greedy `[^/]+` consumes). */
  function SlashFreePrefix(s: string): (r: string)
    ensures r <= s && NoSlash(r)
    ensures |r| < |s| ==> s[|r|] == '/'
    decreases |s|
  {
    if s == [] || s[0] == '/' then []
    else [s[0]] + SlashFreePrefix(s[1..])
  }

  /** The slash-free prefix is determined by any slash-free prefix followed by '/'. */
  lemma SlashFreePrefixOf(s: string, id: string)
    requires NoSlash(id) && id + "/" <= s
    ensures SlashFreePrefix(s) == id
  {
    var r := SlashFreePrefix(s);
    assert forall k :: 0 <= k < |id| ==> s[k] == id[k] != '/';
    assert s[|id|] == '/';
    assert forall k :: 0 <= k < |r| ==> s[k] == r[k] != '/';
    assert |r| == |id|;
    assert r == s[..|r|] && id == s[..|id|];
  }

  /** The pattern anchored at the start of `s`: the captured site id, if it matches there. */
  function MatchAt(s: string): Option<string> {
    if SitesMarker <= s then
      var rest := s[|SitesMarker|..];
      var seg := SlashFreePrefix(rest);
      if seg != [] && StatsMarker <= rest[|seg|..] then Some(seg) else None
    else None
  }

  /** The pattern matches at the start of `s` capturing `id` iff `s` begins `/sites/<id>/stats` with `id` a valid capture. */
  lemma MatchAtIff(s: string, id: string)
    ensures MatchAt(s) == Some(id) <==> ValidSiteId(id) && SitesMarker + id + StatsMarker <= s
  {
    var n := |SitesMarker|;
    if ValidSiteId(id) && SitesMarker + id + StatsMarker <= s {
      assert SitesMarker <= s;
      var rest := s[n..];
      assert (SitesMarker + id + StatsMarker)[n..] == id + StatsMarker;
      assert id + StatsMarker <= rest;
      assert id + "/" <= rest;
      SlashFreePrefixOf(rest, id);
      assert rest[|id|..][..|StatsMarker|] == (id + StatsMarker)[|id|..];
    }
    if MatchAt(s) == Some(id) {
      var rest := s[n..];
      assert SlashFreePrefix(rest) == id;
      assert s[..n + |id| + |StatsMarker|] == SitesMarker + id + StatsMarker;
    }
  }

  /** `re.search`: the capture of the leftmost position where the pattern matches. */
  function ExtractSiteId(channel: string): Option<string>
    decreases |channel|
  {
    if MatchAt(channel).Some? then MatchAt(channel)
    else if channel == [] then None
    else ExtractSiteId(channel[1..])
  }

  /** The pattern matches at index `p` of `channel`, capturing `id`, and at no earlier index. */
  ghost predicate FirstMatchAt(channel: string, p: int, id: string) {
    0 <= p <= |channel| && MatchAt(channel[p..]) == Some(id) &&
    forall q :: 0 <= q < p ==> MatchAt(channel[q..]).None?
  }

  /** Extraction yields `id` iff the leftmost match of the pattern captures `id`. */
  lemma {:induction false} ExtractSiteIdSome(channel: string, id: string)
    ensures ExtractSiteId(channel) == Some(id) <==> exists p :: FirstMatchAt(channel, p, id)
    decreases |channel|
  {
    assert channel[0..] == channel;
    if MatchAt(channel).Some? {
      if ExtractSiteId(channel) == Some(id) {
        assert FirstMatchAt(channel, 0, id);
      }
      forall p | FirstMatchAt(channel, p, id) ensures ExtractSiteId(channel) == Some(id) {
        assert p == 0;
      }
    } else if channel == [] {
    } else {
      ExtractSiteIdSome(channel[1..], id);
      if ExtractSiteId(channel) == Some(id) {
        var p :| FirstMatchAt(channel[1..], p, id);
        assert channel[1..][p..] == channel[p + 1..];
        forall q | 0 <= q < p + 1 ensures MatchAt(channel[q..]).None? {
          if q > 0 {
            assert channel[1..][q - 1..] == channel[q..];
          }
        }
        assert FirstMatchAt(channel, p + 1, id);
      }
      forall p | FirstMatchAt(channel, p, id) ensures ExtractSiteId(channel) == Some(id) {
        assert p > 0;
        assert channel[1..][p - 1..] == channel[p..];
        forall q | 0 <= q < p - 1 ensures MatchAt(channel[1..][q..]).None? {
          assert channel[1..][q..] == channel[q + 1..];
        }
        assert FirstMatchAt(channel[1..], p - 1, id);
      }
    }
  }

  /** Extraction fails iff the pattern matches at no index of `channel`. */
  lemma {:induction false} ExtractSiteIdNone(channel: string)
    ensures ExtractSiteId(channel).None? <==> forall p :: 0 <= p <= |channel| ==> MatchAt(channel[p..]).None?
    decreases |channel|
  {
    assert channel[0..] == channel;
    if MatchAt(channel).None? && channel != [] {
      ExtractSiteIdNone(channel[1..]);
      forall p | 0 < p <= |channel| ensures channel[1..][p - 1..] == channel[p..] {}
    }
  }

  /** The topic subscribed to for a site names that site back when it arrives as a channel. */
  lemma TopicRoundTrip(siteId: string)
    requires ValidSiteId(siteId)
    ensures ExtractSiteId(Topic(siteId)) == Some(siteId)
  {
    var t := Topic(siteId);
    assert t == SitesMarker + siteId + StatsMarker + "/clients";
    MatchAtIff(t, siteId);
  }
}
