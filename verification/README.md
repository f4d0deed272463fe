# URL shortener controller, modelled in Dafny

This project models the controller of a URL-shortening service
(`controllers/url.js`): creating short links, resolving an alias to its
target through a cache in front of the link store, recording one visit per
redirect, and the three analytics reports built from the visit log. All I/O
is abstracted. The link collection, the Redis cache and the visit log become
one immutable `State` record. The geo lookup, `nanoid`, the clock and
`moment` date handling become inputs.

Modules, one per concern:

- `Wrappers` (`wrappers.dfy`): `Option`. A JavaScript `undefined` or `null` field is `None`.
- `Text` (`text.dfy`): ASCII lower/upper casing and substring search. A case-insensitive regex made of ASCII letters (`/windows/i`) tests exactly this.
- `UserAgent` (`user_agent.dfy`): `getOS` and `getDeviceType`. Each is written as the controller's chain of tests and proved equal to an ordered rule table (`OsRules`, `DeviceRules`) with a first-match-wins `Classify`. It also holds `GetOSIntended`, the corrected OS classifier of the second finding.
- `Store` (`store.dfy`): the entities (`ShortLink`, `VisitEvent`, `CacheValue = Raw(url) | Snapshot(link)`, `CacheEntry` with a TTL) and the `findOne`/`find` lookups. It also defines the state invariant `Inv`: ids unique, targets unique, and every cache entry agreeing with the store.
- `Counting` (`counting.dfy`): the per-key accumulation the handlers repeat (`{ uniqueUsers: Set, uniqueClicks: n }` per key, keys kept in first-insertion order). It is proved against reference counts.
- `Shortener` (`shorten.dfy`): `generateShortUrl` as a state transition.
- `Redirector` (`redirect.dfy`): `redirecturl`. A cache-aside resolution with store fallback and a 3600-second repopulation, then one appended visit.
- `Analytics` (`analytics.dfy`): `getAnalytics`, `getTopicAnalytics` (a loop method, like the controller's) and `getOverallAnalytics`.
- `Ownership` (`ownership.dfy`): the overall-analytics finding below (first row of the Findings table).
- `Scenarios` (`scenarios.dfy`): properties that span several operations.

Notes on the controller's behaviour that the model reproduces:

- Request fields are tested for JavaScript truthiness: a missing `longUrl` or an empty one is a validation error. An empty `customAlias` counts as no alias, and an empty `topic` is stored as `null`.
- The target-URL dedup check runs before the alias check. So an already-shortened target is returned unchanged even when a taken alias is also given.
- `nanoid(8)` has no collision retry. A colliding generated id makes `save()` fail on the unique index, and the request ends in a 500 (`DuplicateKey`).
- The creation path writes the bare URL into the cache with no expiry. The redirect path writes a JSON snapshot with a 3600-second expiry. An empty cached string reads as a miss.
- The repopulating cache write is issued before the geo lookup. A geo failure therefore leaves the cache repopulated, appends no visit and answers 500.
- A missing `User-Agent` header reaches the regular expressions as `undefined`, which they test as the text "undefined". It classifies as Other / Desktop.
- In the OS and device breakdowns, the field the controller calls `uniqueClicks` counts events; `uniqueUsers` counts distinct IPs.
- Only the per-alias histogram is limited to days after the seven-day cutoff. The topic and overall histograms cover every date.
- Only the per-alias report has a "no data yet" answer. A topic or an owner whose links have no visits gets a summary of zeros.
- The OS test for macOS (`macintosh|mac os`) runs before the iOS test, so an iPhone user agent, which says "like Mac OS X", is reported as macOS. This is the second finding below.

## Model

| member | source | states |
|---|---|---|
| UserAgent.GetOS | controllers/url.js:366-373 | getOS equals the table-driven classification over Windows, macOS (macintosh or mac os), Android, iOS (iphone, ipad, ipod), Linux, default Other; its rank is the index of the first matching rule |
| UserAgent.GetDeviceType | controllers/url.js:376-380 | getDeviceType equals the table-driven classification over Mobile then Tablet, default Desktop; its rank is the first matching rule |
| UserAgent.FirstMatch | controllers/url.js:366-380 | the index found is a rule that matches and no earlier rule matches, or no rule matches at all |
| UserAgent.OsFirstMatchWins | controllers/url.js:366-373 | if rule i matches, the reported OS is at or before i, it matches, and it is exactly i iff no earlier rule matches (e.g. windows beats android) |
| UserAgent.OsDefault | controllers/url.js:372 | Other is reported exactly when none of the five rules matches |
| UserAgent.DeviceFirstMatchWins | controllers/url.js:377-378 | if rule i matches, the device is at or before i; Mobile wins over Tablet when both occur |
| UserAgent.DeviceDefault | controllers/url.js:379 | Desktop is reported exactly when neither mobile nor tablet occurs |
| UserAgent.ClassifiersIgnoreCase | controllers/url.js:367-378 | the /i flag: upper- or lower-casing the user agent changes neither classification (the corrected OS classifier included) |
| UserAgent.FirstOfFive | controllers/url.js:367-372 | in a five-rule table the first match is found by testing the rules in order, 5 when none matches |
| UserAgent.IPhoneReadAsMacOS | controllers/url.js:368-370 | as written: the iOS 17 iPhone Safari user agent contains both "iphone" and "mac os", and getOS reports it as macOS |
| UserAgent.GetOSIntended | controllers/url.js:366-373 | corrected: the OS classifier equals the table classification with the iOS rule moved ahead of the macOS rule |
| UserAgent.IntendedOsChangesOnlyIOS | controllers/url.js:366-373 | the correction differs from getOS only by answering iOS (in place of macOS or Android) when an Apple mobile device is named and Windows is not |
| UserAgent.IPhoneUaMentionsMobile | controllers/url.js:377 | the iPhone user agent contains "Mobile", so getDeviceType reports it as Mobile |
| UserAgent.IPhoneReadAsIOS | controllers/url.js:370 | corrected: the iPhone user agent is classified iOS |
| Text.CaseInsensitiveMatch | controllers/url.js:367-378 | `/p/i.test(s)` holds iff some position of s matches p character by character up to ASCII letter case |
| UserAgent.ClassifiersMonotoneUnderAppend | controllers/url.js:366-380 | appending text to a user agent can only move it to an earlier category, never a later one |
| UserAgent.MissingUserAgent | controllers/url.js:96 | a request without a user-agent header (tested as "undefined") is classified Other and Desktop |
| Store.FindById | controllers/url.js:84 | the link found carries the id and is in the store; none is found iff no link has that id |
| Store.FindByUrl | controllers/url.js:19 | the link found has that target and is in the store; none is found iff no link has that target |
| Store.Events | controllers/url.js:138 | the events selected are exactly the logged events with that shortId, in log order, never more than the log holds |
| Store.EventsSnoc | controllers/url.js:138 | a one-event log yields that event exactly when it has the shortId; a log extended by one event yields the earlier selection followed by that event's |
| Store.EventsOrder | controllers/url.js:138 | selecting from a concatenated log concatenates the selections; with EventsSnoc this fixes the events and their log order |
| Store.EventsCount | controllers/url.js:138 | each of the alias's events is selected as many times as the log holds it, every other event never |
| Store.EmptyInv | models/url.js:4-7 | the empty store satisfies the invariant (unique ids, unique targets, coherent cache) |
| Store.FindByIdUnique | models/url.js:4-7 | with unique ids, looking up any stored link's id finds that very link |
| Store.EvictionKeepsInv | controllers/url.js:91 | dropping a cache entry (expiry, eviction) keeps the store/cache invariant |
| Shortener.Shorten | controllers/url.js:9-61 | missing target: validation error; target already shortened: existing link, even with a taken alias; taken alias: conflict; generated-id collision: internal error; all leave the state unchanged; otherwise one link with the alias or generated id, the target, the topic or null, and a no-expiry raw cache entry |
| Shortener.ShortenFrame | controllers/url.js:37-50 | a successful shorten adds exactly one link and one cache key; every other id lookup and cache entry is unchanged |
| Shortener.ShortenKeepsInv | controllers/url.js:18-50 | shorten keeps ids unique, targets unique and every cache entry in agreement with the store |
| Shortener.DedupBeforeAliasCheck | controllers/url.js:18-34 | when the target already exists and the alias is taken, the existing link is returned and nothing changes |
| Shortener.ShortenIdempotent | controllers/url.js:18-26 | shortening the same target again returns the link made first, changes nothing, and exactly one stored link has that target |
| Shortener.GeneratedIdIsFresh | controllers/url.js:36-47 | without an alias the new id is 8 URL-safe characters and differs from every existing id |
| Ownership.ShortenAsWritten | controllers/url.js:40-45 | as written, a created link never records its creator |
| Ownership.AsWrittenStaysOwnerless | controllers/url.js:40-45 | as written, neither shorten nor redirect ever gives a link an owner |
| Ownership.OverallNeverFindsLinksAsWritten | controllers/url.js:282-285 | with no owner ever stored, the overall report is NotFound for every user |
| Ownership.OverallMissesNewLinkAsWritten | controllers/url.js:282-285 | a user shortens https://example.com into an empty store and still gets NotFound from the overall report |
| Ownership.OverallSeesOwnLink | controllers/url.js:282-285 | corrected: a link created for a user appears in that user's overall report, which lists one more link than before |
| Redirector.Resolve | controllers/url.js:67-92 | a usable (non-empty) cache entry is a hit naming the cached URL or the snapshot's target; otherwise a store hit is exactly the findOne result; unresolved iff neither has the alias |
| Redirector.Record | controllers/url.js:100-123 | geo answered: a redirect to the target with exactly one visit appended carrying the alias, IP, user agent and geo fields; geo failed: internal error and the state unchanged; links and cache never change |
| Redirector.Redirect | controllers/url.js:64-125 | unknown alias: NotFound, nothing changes; geo failure: internal error, no visit; else a redirect to the resolved target with exactly one visit appended; a store fallback caches a snapshot with TTL 3600, a cache hit leaves the cache alone; links never change |
| Redirector.ResolveAgreesWithStore | controllers/url.js:73-92 | in a coherent state the resolution finds the alias iff the store has it and names the stored target, whichever path it took |
| Redirector.RedirectFollowsStore | controllers/url.js:67-119 | with the geo lookup answering, the redirect outcome depends on the store alone: NotFound or the stored target |
| Redirector.RedirectKeepsInv | controllers/url.js:84-91 | a redirect keeps the store/cache invariant; the repopulated snapshot is the stored link |
| Redirector.SecondResolutionHitsCache | controllers/url.js:91 | after a store fallback the next resolution is a cache hit with the same target, even if the geo lookup failed |
| Counting.Tally | controllers/url.js:169-186 | the buckets have distinct keys, each with at least one click, and their clicks sum to the number of observations |
| Counting.BumpOrder | controllers/url.js:173-178 | one observation keeps every existing key in place and adds a new key as a one-click bucket at the end (first-insertion order) |
| Counting.BumpSpec | controllers/url.js:173-178 | one observation adds one click and its IP to its key's bucket and changes no other key's counts |
| Counting.BumpKeys | controllers/url.js:173-175 | one observation adds its key and no other |
| Counting.BumpShape | controllers/url.js:173-178 | one observation adds one to the total and keeps keys distinct and counts positive |
| Counting.TallyCorrect | controllers/url.js:169-186 | the per-key buckets have distinct keys and cover exactly the keys seen; each holds that key's event count and distinct IPs (at least one, at most the count); the counts sum to the events |
| Counting.ClientsBound | controllers/url.js:175-178 | a key has no more distinct clients than clicks, and at least one once it has a click |
| Analytics.Recent | controllers/url.js:151-158 | the windowed events are exactly those whose day starts after the cutoff |
| Analytics.RecentSnoc | controllers/url.js:153-157 | a single event is kept exactly when its day starts after the cutoff; one more event extends the window by it or by nothing |
| Analytics.RecentOrder | controllers/url.js:153-157 | windowing a concatenation concatenates the windows; with RecentSnoc this fixes the windowed events and their log order |
| Analytics.RecentCount | controllers/url.js:153-157 | each windowed event is kept as many times as it occurs, every other event never |
| Analytics.TopicLinks | controllers/url.js:219 | the topic's links are exactly the stored links with that topic |
| Analytics.TopicLinksSnoc | controllers/url.js:219 | a single link is selected exactly when it has the topic; one more stored link extends the selection by it or by nothing |
| Analytics.TopicLinksOrder | controllers/url.js:219 | selecting from a concatenated store concatenates the selections; with TopicLinksSnoc this fixes the links and their store order |
| Analytics.TopicLinksCount | controllers/url.js:219 | each link of the topic is selected as many times as the store holds it, every other link never |
| Analytics.OwnedLinks | controllers/url.js:282 | the user's links are exactly the stored links recording that owner |
| Analytics.OwnedLinksSnoc | controllers/url.js:282 | a single link is selected exactly when it records the owner; one more stored link extends the selection by it or by nothing |
| Analytics.OwnedLinksOrder | controllers/url.js:282 | selecting from a concatenated store concatenates the selections; with OwnedLinksSnoc this fixes the links and their store order |
| Analytics.OwnedLinksCount | controllers/url.js:282 | each of the user's links is selected as many times as the store holds it, every other link never |
| Analytics.IpsMembers | controllers/url.js:147 | the distinct-IP set holds exactly the addresses that occur in the events |
| Analytics.IpsBound | controllers/url.js:147 | there are no more distinct IPs than events, and at least one when there are events |
| Analytics.SumEventCountsIsSize | controllers/url.js:295-302 | the running sum of per-link counts equals the size of the combined event stream |
| Analytics.AliasAnalytics | controllers/url.js:132-144 | NotFound iff the alias is unknown; "no data yet" iff it is known and has no events; a summary's totalClicks is the number of its events |
| Analytics.AliasClicks | controllers/url.js:143-147 | totalClicks is the number of the alias's events; uniqueClicks the number of distinct IPs, between 1 and totalClicks |
| Analytics.AliasHistogram | controllers/url.js:149-163 | only days after the cutoff appear, once each, counting that day's events; the histogram sums to the recent events, at most totalClicks |
| Analytics.WindowedHistogram | controllers/url.js:149-163 | a windowed date histogram sums to the recent events, at most all events, lists each date once with its count, and only dates after the cutoff |
| Analytics.AliasBreakdowns | controllers/url.js:165-199 | one entry per OS / device seen, counting its events and distinct IPs (between 1 and the count); each breakdown sums to totalClicks |
| Analytics.TopicReference | controllers/url.js:219-223 | NotFound iff the topic has no links; a summary's totalClicks is the size of its links' combined visit stream |
| Analytics.TopicAnalytics | controllers/url.js:214-275 | getTopicAnalytics's loop answers exactly the reference report: NotFound when the topic has no links, else the combined visit count, the distinct IPs of all the topic's visits, the unwindowed date histogram and one entry per link in store order |
| Analytics.TopicLoop | controllers/url.js:231-256 | after the loop the accumulators hold the aggregate of every link of the topic |
| Analytics.TopicFacts | controllers/url.js:219-270 | no links in the topic: NotFound; else one entry per link with its clicks and distinct IPs; the entries' clicks sum to totalClicks; uniqueClicks is at most the summed per-link distinct counts, which is at most totalClicks; the date histogram lists each date once and sums to totalClicks |
| Analytics.LinkStatSums | controllers/url.js:238-242 | summed per-link click counts equal the combined stream; the topic's distinct IPs are at most the summed per-link distinct counts, at most the clicks |
| Analytics.AddLink | controllers/url.js:232-255 | one loop iteration keeps the accumulators equal to the aggregate of the links processed so far |
| Analytics.AddDays | controllers/url.js:245-248 | bumping each event's day extends the histogram to the longer stream |
| Analytics.Histogram | controllers/url.js:259-262 | a date histogram lists each date seen once with its count, and sums to the events |
| Analytics.Breakdown | controllers/url.js:336-347 | an OS or device breakdown lists each category once with its count and distinct IPs, and sums to the events |
| Analytics.OverallAnalytics | controllers/url.js:282-300 | NotFound iff the user has no links; else totalUrls is the link count, totalClicks the combined stream's size and uniqueClicks its distinct IPs |
| Analytics.OverallFacts | controllers/url.js:277-357 | NotFound iff the user has no links; else totalUrls is the link count, totalClicks the combined stream's size, uniqueClicks at most totalClicks, and the histogram, OS and device counts each sum to totalClicks |
| Scenarios.CreatedLinkResolves | controllers/url.js:47-92 | a new link redirects to its exact target from the write-through cache entry, and from the store once that entry is gone |
| Scenarios.ShortenRedirectReport | controllers/url.js:37-208 | shorten into an empty store, then redirect: the redirect goes to the target, the log holds exactly that visit, the invariant holds, and the per-alias report shows 1 click from 1 client on that day (if recent) under its OS and device |
| Scenarios.SingleVisitReport | controllers/url.js:138-208 | a known alias with one visit reports 1 click, 1 client, that day (if recent) with 1 click, and its OS and device with 1 click and 1 client |
| Scenarios.IPhoneVisitReportedAsMacOS | controllers/url.js:165-199 | as written, a link visited once from an iPhone gets a per-alias report whose OS breakdown is macOS with 1 click and 1 client, and whose device breakdown is Mobile |
| Scenarios.SingleVisitBreakdowns | controllers/url.js:166-197 | one visit gives one OS entry and one device entry, each with 1 click and 1 client |
| Scenarios.SingleVisitDates | controllers/url.js:150-163 | one visit gives its date with 1 click when the date is in the window, and no date otherwise |

## Findings

| source | as written | input that shows it | evidently intended | confidence | as-written member | corrected member |
|---|---|---|---|---|---|---|
| controllers/url.js:282 | getOverallAnalytics selects `Url.find({ userId })`, but the link schema (models/url.js) has no `userId` field and generateShortUrl (lines 40-45) never stores the caller, so no link matches and the report is always 404 (if Mongoose's `strictQuery` option is on, the unknown filter key is dropped instead and every user's links are reported) | an authenticated user POSTs /api/shorten with longUrl https://example.com, then GETs /api/analytics/overall | links record their creator's id and the overall report covers exactly the caller's links | medium, not executed | Ownership.OverallMissesNewLinkAsWritten | Ownership.OverallSeesOwnLink |
| controllers/url.js:368-370 | getOS tests `macintosh\|mac os` before `iphone\|ipad\|ipod`, and iPhone and iPad user agents say "like Mac OS X", so they are reported as macOS and the iOS branch is reached only by user agents that do not mention Mac OS | `Mozilla/5.0 (iPhone; CPU iPhone OS 17_0 like Mac OS X) AppleWebKit/605.1.15 (KHTML, like Gecko) Version/17.0 Mobile/15E148 Safari/604.1` | the iOS test comes before the macOS test, so Apple mobile devices are iOS | high, not executed | UserAgent.IPhoneReadAsMacOS | UserAgent.IPhoneReadAsIOS |

`Shortener.Shorten` carries the corrected `owner` parameter. The rest of the
model uses it, and `Ownership.ShortenAsWritten` is the controller as written:
`Shorten` with no owner.

`UserAgent.GetOS` is getOS as written. The analytics reports classify with
it, as the controller does, so an iPhone visit is reported under macOS
(`Scenarios.IPhoneVisitReportedAsMacOS`). The corrected classifier
`UserAgent.GetOSIntended` stands beside it, and
`UserAgent.IntendedOsChangesOnlyIOS` bounds the difference to the iOS answer.

## Left out

- HTTP encoding: status codes, JSON bodies and the `protocol://host/shortId` short-URL strings. Outcomes are result datatypes, and the topic report's per-link entry carries the shortId.
- Cache and store I/O failures, which end in a 500 through the outer `catch`. The exception is the unique-index failure on a colliding generated id, which is modelled.
- The geo lookup, `nanoid`, the clock and `moment` are inputs. Date formatting is an abstract `day` function, date parsing an abstract `dayStart`, and "seven days ago" a `cutoff` value.
- Cache expiry as real time. The TTL is recorded on the entry, and expiry is modelled as the entry being dropped (`Store.EvictionKeepsInv`).
- A raw cached URL that happens to be valid JSON text (e.g. the target "42"). `JSON.parse` would succeed on it and the redirect target would be undefined. Cached values are the datatype `Raw | Snapshot`.
- Non-string request fields, such as an object passed as `longUrl` and used as a query operator. Fields are optional strings.
- The repopulating `setEx` is not awaited in the controller. It is modelled as taking effect immediately.
- Concurrency, including the lookup-then-insert race on custom aliases. The model is sequential.
- The always-empty `visitHistory` field, logging, and the OAuth, session, rate-limit and routing glue.
