/**
 * The guest test applied to each decoded stream message: a client is a guest
 * when its `is_guest` flag is truthy or its lower-cased SSID contains "guest",
 * "invite" or "hotspot". A heuristic: it can flag a staff network whose name
 * contains one of the words, and miss a guest network named otherwise.
 */
module Classifier {
  import opened Wrappers
  import opened Strings

  /** The words whose presence in the lower-cased SSID marks a guest. */
  const GuestKeywords: seq<string> := ["guest", "invite", "hotspot"]

  /** The classification, on the flag and the SSID (a missing SSID reads as ""). */
  predicate IsGuest(flag: bool, ssid: Option<string>) {
    var name := Lower(ssid.GetOr(""));
    flag || Contains(name, "guest") || Contains(name, "invite") || Contains(name, "hotspot")
  }

  /** A client is a guest iff flagged, or some keyword occurs somewhere in its lower-cased SSID. */
  lemma IsGuestIff(flag: bool, ssid: Option<string>)
    ensures IsGuest(flag, ssid) <==>
      flag || exists k, i :: k in GuestKeywords && OccursAt(Lower(ssid.GetOr("")), k, i)
  {
    var name := Lower(ssid.GetOr(""));
    ContainsIff(name, "guest");
    ContainsIff(name, "invite");
    ContainsIff(name, "hotspot");
    if exists k, i :: k in GuestKeywords && OccursAt(name, k, i) {
      var k, i :| k in GuestKeywords && OccursAt(name, k, i);
      assert k == "guest" || k == "invite" || k == "hotspot";
    }
  }

  /** The test ignores letter case: lower-casing the SSID first changes nothing. */
  lemma CaseInsensitive(flag: bool, ssid: string)
    ensures IsGuest(flag, Some(ssid)) == IsGuest(flag, Some(Lower(ssid)))
  {
    LowerIdempotent(ssid);
  }

  /** Without an SSID, the flag alone decides. */
  lemma MissingSsid(flag: bool)
    ensures IsGuest(flag, None) == IsGuest(flag, Some("")) == flag
  {
  }

  /** The network "Corp-Guest" marks an unflagged client as a guest. */
  lemma CorpGuestIsGuest()
    ensures IsGuest(false, Some("Corp-Guest"))
  {
    var name := Lower("Corp-Guest");
    assert name == "corp-guest";
    assert OccursAt(name, "guest", 5);
    ContainsIff(name, "guest");
  }

  /** The network "Guesswork" holds none of the keywords, so an unflagged client on it is not a guest. */
  lemma GuessworkIsNotGuest()
    ensures !IsGuest(false, Some("Guesswork"))
  {
    var name := Lower("Guesswork");
    assert name == "guesswork";
    // neither 't' (in "guest" and "hotspot") nor 'v' (in "invite") occurs in it
    assert forall j :: 0 <= j < |name| ==> name[j] != 't' && name[j] != 'v';
    forall i ensures !OccursAt(name, "guest", i) && !OccursAt(name, "hotspot", i) {
      if 0 <= i && i + 5 <= |name| {
        assert name[i..i + 5][4] == name[i + 4];
      }
      if 0 <= i && i + 7 <= |name| {
        assert name[i..i + 7][6] == name[i + 6];
      }
    }
    forall i ensures !OccursAt(name, "invite", i) {
      if 0 <= i && i + 6 <= |name| {
        assert name[i..i + 6][2] == name[i + 2];
      }
    }
    IsGuestIff(false, Some("Guesswork"));
  }
}
