# mist-guest-logger, modelled in Dafny

The logger subscribes, for every site of a Mist organisation, to the stream
topic `/sites/<id>/stats/clients`. For each inbound message it takes the site
id from the channel, decodes the client data, and decides whether the client
is a guest (the `is_guest` flag, or an SSID containing "guest", "invite" or
"hotspot", case-insensitively). A guest whose `(mac, ip)` identity is not yet
in the guest list is looked up through the per-client statistics endpoint; on
status 200 a guest profile is built (client fields from the lookup, site id and
name, optional keys from the `guest` block), appended to the day's file, and
the identity is appended to the guest list. At start-up the site list is
fetched with up to five requests, honouring HTTP 429 with Retry-After and an
exponential backoff, and site names have their spaces replaced by underscores.

The model:

- `Strings`: ASCII lower-casing, the substring test `sub in s` (with its
  characterisation by an occurrence index) and one-character substitution.
- `Records`: the data model (sites, messages, decoded client data, lookup
  results, guest identity and profile).
- `Classifier`: the guest test of line 86.
- `Channel`: the site-id pattern `/sites/([^/]+)/stats` searched leftmost-first,
  and the subscription topic; extraction is proved to invert topic building.
- `Names`: `sanitize_filename` (defined but never called by the program) and
  the in-place normalisation of site names.
- `Enrichment`: the site-name lookup and the profile dictionary.
- `Pipeline`: `Handle`, the effect of one message as a function of the guest
  list and of the outcomes of the lookup and the file write, with the
  deduplication properties proved about it, also over sequences of messages.
- `Session`: the connection object as a class (`sites`, `currentSiteId`, and
  the guest list, itself an object shared by every connection the program
  opens), whose callbacks are proved to agree with `Handle`.
- `Directory`: the `fetch_sites` retry loop over a scripted sequence of
  request outcomes, returning the site list and the sleeps taken.

A failed write still marks the guest as seen. The append to the guest list
at line 163 comes after the `try`/`except` around the write, so a guest whose
record could not be written is never retried
(`Pipeline.WriteFailureStillRecords`).

## Model

| member | source | states |
|---|---|---|
| `Strings.ContainsIff` | mist-guest-logger.py:86 | `sub in s` holds iff `sub` occurs in `s` at some index |
| `Strings.LowerIdempotent` | mist-guest-logger.py:86 | lower-casing an already lower-cased string changes nothing |
| `Strings.Substitute` | mist-guest-logger.py:73 | one-character substitution keeps the length, replaces every target character and keeps every other character |
| `Classifier.IsGuestIff` | mist-guest-logger.py:86 | a client is a guest iff its `is_guest` flag is truthy or one of "guest", "invite", "hotspot" occurs in its lower-cased SSID |
| `Classifier.CaseInsensitive` | mist-guest-logger.py:86 | the guest test gives the same answer for an SSID and its lower-cased form |
| `Classifier.MissingSsid` | mist-guest-logger.py:86 | a missing SSID is read as the empty string, so the flag alone decides |
| `Classifier.CorpGuestIsGuest` | mist-guest-logger.py:86 | an unflagged client on "Corp-Guest" is a guest |
| `Classifier.GuessworkIsNotGuest` | mist-guest-logger.py:86 | an unflagged client on "Guesswork" is not a guest: none of the keywords occurs in it |
| `Channel.SlashFreePrefix` | mist-guest-logger.py:173 | the greedy `[^/]+` run is a prefix without '/', ended by '/' or by the end of the string |
| `Channel.SlashFreePrefixOf` | mist-guest-logger.py:173 | a slash-free prefix followed by '/' is exactly what the greedy run captures |
| `Channel.MatchAtIff` | mist-guest-logger.py:173 | the pattern matches at the start of a string capturing `id` iff the string begins `/sites/<id>/stats` with `id` non-empty and slash-free |
| `Channel.ExtractSiteIdSome` | mist-guest-logger.py:173 | extraction gives `id` iff the leftmost position where the pattern matches captures `id` |
| `Channel.ExtractSiteIdNone` | mist-guest-logger.py:173-180 | extraction fails iff the pattern matches at no position of the channel |
| `Channel.TopicRoundTrip` | mist-guest-logger.py:193-196 | for a non-empty slash-free site id, extraction from its subscription topic gives the id back |
| `Names.SanitizeFilename` | mist-guest-logger.py:72-73 | the result has the same length, no unsafe character (slash, colon, star, question mark, double quote, angle brackets, vertical bar), '_' where the input had one, and every other character unchanged |
| `Names.SanitizeIdempotent` | mist-guest-logger.py:72-73 | sanitising a sanitised name changes nothing |
| `Names.NormaliseSiteName` | mist-guest-logger.py:218 | the result has the same length, no space, '_' where the input had a space and every other character unchanged |
| `Names.NormaliseKeepsSpaceFree` | mist-guest-logger.py:218 | a name without spaces is left unchanged |
| `Names.NormaliseSiteNames` | mist-guest-logger.py:217-218 | every site of the array keeps its id and gets its normalised name, in place |
| `Enrichment.SiteName` | mist-guest-logger.py:133 | the result is the name of the first site whose id matches, and none iff no site has that id |
| `Enrichment.ProfileFields` | mist-guest-logger.py:127-150 | a profile exists iff mac, ip, assoc_time and ssid are in the lookup body; those fields come from the lookup, not the event; `guest_data_present` is written iff a guest block exists; each optional key is present iff it is in the block |
| `Pipeline.RecordedIff` | mist-guest-logger.py:76-163 | a guest is recorded iff the message names a site, announces a guest not in the list, and the lookup returns 200 with a usable body; the identity recorded is the message's (mac, ip) and the lookup is keyed by site id and mac |
| `Pipeline.LookupOnlyForNewGuests` | mist-guest-logger.py:86-101 | the lookup is issued iff the message names a site and announces a guest whose identity is not in the list |
| `Pipeline.NoSiteNoEffect` | mist-guest-logger.py:168-180 | a message that is not JSON or names no site is dropped before processing and leaves the guest list as it was |
| `Pipeline.UnchangedCases` | mist-guest-logger.py:79-113 | no usable `data`, no guest, a guest already listed, or a status other than 200 leave the guest list unchanged |
| `Pipeline.FailedLookupIsRetried` | mist-guest-logger.py:101-109 | after a failed lookup the list is unchanged and the same message issues the lookup again |
| `Pipeline.RecordedOnce` | mist-guest-logger.py:91-93 | once a guest is recorded, the same message finds it known, whatever the lookup would return |
| `Pipeline.WriteFailureStillRecords` | mist-guest-logger.py:153-163 | the outcome of the file write changes only the `written` flag: the identity is appended either way |
| `Pipeline.HandleKeepsLedger` | mist-guest-logger.py:91-163 | one message keeps the guest list free of duplicates, only extends it, and adds at most one identity |
| `Pipeline.RunKeepsLedger` | mist-guest-logger.py:91-163 | over any sequence of messages the guest list only grows, by at most one identity per message, and never holds an identity twice |
| `Pipeline.JaneScenario` | mist-guest-logger.py:86-148 | a flagged guest on site S1 whose lookup returns a guest block naming Jane is recorded with `guest_data_present`, name Jane and site id S1 |
| `Session.CopyGuestBlock` | mist-guest-logger.py:138-148 | the conditional key copies produce exactly the keys of the guest block |
| `Session.GuestList.constructor` | mist-guest-logger.py:209 | the program's guest list starts empty |
| `Session.GuestList.Contains` | mist-guest-logger.py:92 | the scan over the list answers true iff an equal identity is in it |
| `Session.GuestList.Append` | mist-guest-logger.py:163 | the identity is added at the end and nothing else changes |
| `Session.GuestLogger.constructor` | mist-guest-logger.py:234-235 | a connection holds the site list and shares the given guest list object |
| `Session.GuestLogger.OnOpen` | mist-guest-logger.py:192-196 | one subscription per site, in order, to `/sites/<id>/stats/clients`, each of which names its site back when it arrives as a channel |
| `Session.GuestLogger.OnMessage` | mist-guest-logger.py:168-180 | the current site id is set iff the channel names one; the guest list gains exactly the identity `Handle` records and stays duplicate-free |
| `Session.GuestLogger.ProcessMessage` | mist-guest-logger.py:76-119 | the data gate, classification, list check and lookup outcome are handled as `Process` says, appending at most the new identity |
| `Session.GuestLogger.HandleGuestData` | mist-guest-logger.py:123-163 | the profile is built key by key and the identity is appended whatever the write outcome, unless the lookup body lacks a required key |
| `Directory.FetchSites` | mist-guest-logger.py:47-70 | at most five requests; the first success returns its sites and stops; five failures give the empty list; the sleeps are the schedule of the failed attempts, with the backoff doubling after each 429 only |
| `Directory.ScheduleLength` | mist-guest-logger.py:57-67 | every failed attempt is followed by a sleep, and a 429 by two |
| `Directory.ScheduleStep` | mist-guest-logger.py:57-67 | the sleeps after attempt k are Retry-After (or the backoff 2^throttles) then the doubled backoff for a 429, and the unchanged backoff otherwise |
| `Directory.UnthrottledSchedule` | mist-guest-logger.py:63-67 | without a 429 the backoff stays 1 and every failure sleeps 1 |
| `Directory.RetryAfterHonoured` | mist-guest-logger.py:58-62 | a 429 with Retry-After 3 sleeps 3, not the backoff, and then the doubled backoff 2 |

## Left out

- The WebSocket connection itself: `run_forever`, the reconnect loop and its counter, the 5-second sleeps in `on_close` and before reconnecting, `on_error`, and the SIGINT handler that closes the connection. They are connection plumbing and signal handling; only the callbacks' effects on the connection's fields are modelled.
- HTTP requests (site list and per-client lookup) are not made: their outcomes are parameters (`Directory.Attempt`, `Records.Lookup`).
- The file append via `json.dump` is not performed: only its success is a parameter, and the file name built from today's date is not modelled.
- Logging setup and every log call; `datetime_converter`, which nothing calls.
- JSON decoding: messages, `data` and lookup bodies are decoded values, with `None` for text that does not decode to an object.
- Date formatting: `assoc_time`, `authorized_time` and `event_date` are opaque strings supplied already formatted. An `assoc_time` that cannot be formatted abandons the guest like a missing key, which the model captures. An `authorized_time` that cannot be formatted raises at line 141, before the append, so the program does not record the guest and retries it on its next message; the model cannot represent such a value and records the guest (without the key, if it is marked absent).
- Strings.Lower: only ASCII letters are lower-cased; Python's `str.lower` also maps other Unicode letters.
- Classifier.IsGuest: `is_guest` is modelled by its truthiness, and an SSID that is present but not a string (for which `.lower()` raises) cannot be represented.
- Records: the event's `mac` and `ip`, the `channel`, the lookup body's `mac`, `ip` and `ssid`, and the guest-block values are strings or absent; a key present with a JSON null or another non-string value is not distinguished from an absent key.
- Records.ClientStat: a lookup body whose `mac`, `ip` or `ssid` is null or another non-string value is copied into the profile by lines 128-131 without raising, so the program writes that profile and appends the identity; the model can only mark such a key absent, reports `BadClientStat`, and does not record the guest.
- Records.ClientStat: a `guest` value that is null, a number or a boolean makes the key test at line 141 raise, so the program does not record the guest; the model can only mark the block absent, and then records the guest without details. A `guest` value that is a list or a string does not raise (the tests are membership or substring tests); the program then records the guest with `guest_data_present` and no details, which the model expresses as a block with no keys.
- Records.Lookup: an exception from the lookup request itself (a timeout or connection error at line 99) has no status; it is caught at line 118 with the same effect as a status other than 200, and the model represents it by such a status.
- Directory.FetchSites: Retry-After is an optional natural number; a negative or non-integer header value, which makes `int()` or `time.sleep` raise out of the function, is not modelled. The method takes one scripted outcome for each of the five possible requests.
- The exit when the fetched site list is empty, and the start-up sequence that fetches, normalises and hands the sites to each new connection, are not modelled as a method; their pieces are (`Directory.FetchSites`, `Names.NormaliseSiteNames`, `Session.GuestLogger.constructor`).
- Persistence across restarts: none exists; the guest list lives only as long as the process.
