# Packages for Gmail back end: the tracking core, in Dafny

Packages for Gmail reads a user's Gmail for shipping mail. It finds FedEx, UPS
and USPS tracking numbers in the message bodies, asks each carrier for the
status of each number, and keeps a list of packages on the user's account.

This project models the core of that back end and proves properties of the
model. The core has three layers:

- **Carrier adapters** (`_helpers/tracking/`):
  - the eight-state status enumeration and the `PackageInfo` record;
  - the FedEx event-code table;
  - one adapter per carrier, which builds the carrier's HTTP request and turns
    its reply into a `PackageInfo`;
  - the shared `Provider.track`, which fetches, decodes and parses;
  - the registry (`index.js`), which maps a courier code to its adapter and to
    the tracking-number formats it accepts.
- **The tracking helper** (`_helpers/tracking.js`):
  - a one-hour cache in front of an upstream tracking library;
  - the refresh of the stored packages;
  - the Gmail search, fetch and sort;
  - the MIME-part descent that finds a message's text body;
  - the deduplicated discovery of new packages;
  - the retry on a stale access token.
- **The account service** (`accounts/account.service.js`):
  - the hourly sync (`getPackages`), with its own refresh and discovery loops;
  - adding one package by hand;
  - deleting selected packages.

Times are milliseconds since the epoch, as `Date.now()` gives them. A value
JavaScript could leave `undefined` is an `Option`. A thrown error is an `Err`;
a property read off `undefined` is `Err(TypeError)`.

What the environment supplies is given as parameters:

- the HTTP transport;
- the XML and JSON decoders;
- the UPS and USPS status tables;
- the date parsers;
- Gmail's list, get and token-refresh calls, indexed by try number;
- base64url decoding, `textversionjs` and the link-stripping pattern;
- the From-header patterns;
- `findTracking`;
- the upstream `track` of ts-shipment-tracking;
- the lookup the account service calls;
- the current time.

Code that works step by step is modelled imperatively:

- `TrackingCache.Cache` holds node-cache's entries as a `map`.
- `AccountService.Account` holds an account's `packages` and `updated` fields;
  its methods change them in place.
- Each loop of the source is a `while` loop with invariants. It is proved equal
  to a prefix-recursive specification function, and the properties are proved
  as lemmas about that function.

The FedEx, UPS and USPS `parse` functions are pure, so they are modelled as
functions.

| file | module | models |
|---|---|---|
| common.dfy | Common | Option, Result, truthiness of strings, number-to-text |
| package_status.dfy | Status | `PackageStatus.js` |
| package_info.dfy | Info | `PackageInfo.js` |
| fedex_status_code.dfy | FedexStatusCode | `fedexStatusCode.js` |
| provider.dfy | Provider | `Provider.js` |
| fedex_provider.dfy | FedexProvider | `FedexProvider.js` |
| ups_provider.dfy | UpsProvider | `UpsProvider.js` |
| usps_provider.dfy | UspsProvider | `UspsProvider.js` |
| registry.dfy | Registry | `_helpers/tracking/index.js` |
| packages.dfy | Packages | the stored package, the retention window and the Gmail query |
| tracking_cache.dfy | TrackingCache | `getInfo`, `getTrackingInfo` and `getTracking` of `_helpers/tracking.js` |
| message_parts.dfy | Messages | MIME parts, headers, fetch, sort and retry of `_helpers/tracking.js` |
| tracking_helper.dfy | TrackingHelper | the remaining operations of `_helpers/tracking.js` |
| account_service.dfy | AccountService | the package operations of `accounts/account.service.js` |

### Where the model follows the code rather than its design

- **Retention window.** The comments at `_helpers/tracking.js:39-40` and
  `accounts/account.service.js:52` promise 90 days. The tests divide a
  difference of milliseconds by `24 * 60 * 60`, which is seconds per day. The
  window they enforce is therefore 7,776,000 ms, about 2.2 hours. The same holds
  for the choice between an `after:` and a `newer_than:90d` search. The model
  keeps the code's arithmetic (`Packages.WindowIsMilliseconds`).
- **Unmapped status codes.** The design says an unmapped code resolves to
  IN_TRANSIT once an event exists. Only USPS does that. For FedEx and UPS,
  `codes.get` gives `undefined` and the `PackageInfo` constructor turns that
  into UNAVAILABLE (`FedexProvider.UnmappedCodeIsUnavailable`,
  `UpsProvider.UnmappedTypeIsUnavailable`).
- **USPS most recent event.** The design says this is the track summary
  when present, else the first detail event. The code always takes the summary.
  A reply without one throws (`UspsProvider.TrackDetailIsIgnored`,
  `UspsProvider.MissingSummaryThrows`).
- **When a number joins the "seen" set** differs between the two discovery
  paths:
  - The helper marks a number before looking it up.
  - The service marks it only when the lookup answers. A number whose lookup
    answers nothing is looked up again at its next occurrence.
- **A page without messages** differs too:
  - The helper skips it and follows the next-page token.
  - The service's `if (!data.messages) return;` ends the whole discovery with
    nothing added (`AccountService.PageWithoutMessagesEndsSearch`).
- **Adding a stored number.** The design rejects a duplicate add and calls the
  wiping of the collection unintended. The code still sets
  `account.packages = []` before it throws (`accounts/account.service.js:253-254`),
  and the model keeps that (`AccountService.Added`). The throw comes before any
  `account.save()`, so the empty list lives only in the in-memory document. That
  document is then dropped, and the database keeps every package.

## Model

| member | source | states |
|---|---|---|
| Status.Code | _helpers/tracking/package/PackageStatus.js:1-10 | each state's number is between 0 and 7; it is 0 exactly for UNAVAILABLE and 7 exactly for DELIVERED |
| Status.FromCode | _helpers/tracking/package/PackageStatus.js:1-10 | a number names a state exactly when it is 0..7, and then names the state with that number |
| Status.CodeIsInjective | _helpers/tracking/package/PackageStatus.js:1-10 | distinct states have distinct numbers; reading a state's number back gives the state |
| Status.CodesCoverZeroToSeven | _helpers/tracking/package/PackageStatus.js:1-10 | the numbers in use are exactly 0..7 |
| Status.CodeBounds | _helpers/tracking/package/PackageStatus.js:1-10 | every state lies between UNAVAILABLE and DELIVERED in the numbering |
| Status.NameIsInjective | _helpers/tracking/package/PackageStatus.js:1-10 | the keys of the enumeration are pairwise distinct |
| Info.NewPackageInfo | _helpers/tracking/package/PackageInfo.js:4-8 | the status given, or UNAVAILABLE when it is undefined; label and delivery time as given |
| Info.Default | _helpers/tracking/package/PackageInfo.js:4-8 | `new PackageInfo()` is UNAVAILABLE with no label and no time |
| Info.StatusOnly | _helpers/tracking/package/PackageInfo.js:4-8 | `new PackageInfo(s)` has status s, no label and no time |
| Info.NewPackageInfoRoundTrip | _helpers/tracking/package/PackageInfo.js:4-8 | rebuilding a record from its own three fields gives it back |
| FedexStatusCode.Pairs | _helpers/tracking/provider/statusCode/fedexStatusCode.js:62-130 | a group of codes sharing one status yields one entry per code, and only those |
| FedexStatusCode.Entries | _helpers/tracking/provider/statusCode/fedexStatusCode.js:62-130 | the table literal has 56 entries |
| FedexStatusCode.GetOpt | _helpers/tracking/provider/FedexProvider.js:48 | `codes.get(type)`: nothing for a missing event type, else the table's entry |
| FedexStatusCode.InTransitGroup | _helpers/tracking/provider/statusCode/fedexStatusCode.js:87-129 | every code of the IN_TRANSIT group maps to IN_TRANSIT |
| FedexStatusCode.InTransitByIndex | _helpers/tracking/provider/statusCode/fedexStatusCode.js:87-129 | each position of the IN_TRANSIT group maps to IN_TRANSIT |
| FedexStatusCode.SmallGroups | _helpers/tracking/provider/statusCode/fedexStatusCode.js:63-85 | the DELIVERED, RETURNED_TO_SENDER, EXCEPTION, OUT_FOR_DELIVERY and LABEL_CREATED groups map to their status |
| FedexStatusCode.EntriesAgreeWithGet | _helpers/tracking/provider/statusCode/fedexStatusCode.js:62-130 | every entry of the literal is what the lookup answers for its code |
| FedexStatusCode.GetComesFromEntries | _helpers/tracking/provider/statusCode/fedexStatusCode.js:62-130 | every answer of the lookup is an entry of the literal |
| FedexStatusCode.EntriesAreFunctional | _helpers/tracking/provider/statusCode/fedexStatusCode.js:62-130 | no code appears with two statuses, so building the Map loses nothing |
| FedexStatusCode.MapOfAgreeing | _helpers/tracking/provider/statusCode/fedexStatusCode.js:62 | a Map built from entries that agree with the lookup has exactly their codes as keys and agrees with it |
| FedexStatusCode.MapIsTableInAnyOrder | _helpers/tracking/provider/statusCode/fedexStatusCode.js:62-130 | the Map built from any ordering of the entries is the lookup |
| FedexStatusCode.UnlistedCodeIsAbsent | _helpers/tracking/provider/statusCode/fedexStatusCode.js:62-130 | a code that is not in the literal has no status |
| FedexStatusCode.DeliveredAndOutForDelivery | _helpers/tracking/provider/statusCode/fedexStatusCode.js:63-81 | DL is DELIVERED and OD is OUT_FOR_DELIVERY |
| FedexStatusCode.NeverUnavailableOrAttempted | _helpers/tracking/provider/statusCode/fedexStatusCode.js:62-130 | no FedEx code maps to UNAVAILABLE or to DELIVERY_ATTEMPTED |
| Provider.Track | _helpers/tracking/provider/Provider.js:7-32 | a failed fetch is the default answer; otherwise the body decoded as the adapter's response type (the SOAP body for SOAP), then parsed |
| Provider.TransportFailureIgnoresParse | _helpers/tracking/provider/Provider.js:8-15 | after a failed fetch the parser makes no difference: the answer is UNAVAILABLE with nothing else |
| Provider.TrackIsParseOfDecoded | _helpers/tracking/provider/Provider.js:17-31 | once the body decodes, the answer is the adapter's parse of what it decoded to |
| Provider.TableLookup | _helpers/tracking/provider/UpsProvider.js:46-47 | `codes.get(code)` on a carrier's table, as UPS and USPS call it: nothing for a missing code, else the table's answer |
| FedexProvider.FirstEvent | _helpers/tracking/provider/FedexProvider.js:41-43 | `[events].flat()[0]`: a lone event, or the first of a list; nothing exactly when there is no event |
| FedexProvider.Parse | _helpers/tracking/provider/FedexProvider.js:33-55 | it throws exactly when the notification or the first event is missing and the severity is not ERROR; it never answers DELIVERY_ATTEMPTED; an answer without a time is the default one |
| FedexProvider.ErrorSeverityIsDefault | _helpers/tracking/provider/FedexProvider.js:34-39 | a Severity of ERROR gives the default answer, whatever the events say |
| FedexProvider.ParseReportsFirstEvent | _helpers/tracking/provider/FedexProvider.js:41-54 | otherwise the first event gives the status through the table (UNAVAILABLE when it lacks the code) and the label; the time is the estimate, else the event's own time stamp |
| FedexProvider.SingleEventActsAsList | _helpers/tracking/provider/FedexProvider.js:41-43 | a lone Events element and a list that starts with it give the same answer |
| FedexProvider.UnmappedCodeIsUnavailable | _helpers/tracking/provider/FedexProvider.js:48-54 | an event type the table lacks gives UNAVAILABLE |
| FedexProvider.RequestXmlFieldsInOrder | _helpers/tracking/provider/FedexProvider.js:57-87 | the request carries the key, password, account number, meter number and tracking number in their elements, in that order |
| FedexProvider.RequestXmlDeterminesNumber | _helpers/tracking/provider/FedexProvider.js:57-87 | two numbers give the same request only if they are the same number |
| FedexProvider.RequestFor | _helpers/tracking/provider/FedexProvider.js:15-27 | a POST to the web-services URL with a text/xml body that is the request document |
| UpsProvider.Select | _helpers/tracking/provider/UpsProvider.js:32-39 | no package exactly when the reply has errors or its first shipment has warnings or no package array; a throw exactly when, without errors, the shipment list is missing or empty or the first package array is empty; a package it selects is the first package of a first shipment without warnings |
| UpsProvider.ParseArguments | _helpers/tracking/provider/UpsProvider.js:54-63 | date and time are parsed with yyyyMMdd and Hmmss, concatenated, whichever of the two is present; neither gives no time |
| UpsProvider.StatusOf | _helpers/tracking/provider/UpsProvider.js:46-52 | it throws exactly when EXCEPTION has no label; the answer is DELIVERY_ATTEMPTED exactly for that status or for an EXCEPTION whose label contains DELIVERY ATTEMPT; any other answer is the table's |
| UpsProvider.FromPackage | _helpers/tracking/provider/UpsProvider.js:39-65 | it throws exactly when the activity array is missing or empty, the delivery-date array is empty, the last activity has no status, or `StatusOf` throws; an answer's label is the first activity's description; its status is `StatusOf`'s (UNAVAILABLE for nothing); its time is the parse of the delivery date and time |
| UpsProvider.Parse | _helpers/tracking/provider/UpsProvider.js:31-66 | errors, warnings and a missing package give the default; an error selecting throws; otherwise it is the selected package's answer |
| UpsProvider.WarningsOrNoPackageIsDefault | _helpers/tracking/provider/UpsProvider.js:32-37 | a first shipment with warnings or without a package array is answered with the default, whatever the table and the date parser |
| UpsProvider.MissingShipmentOrEmptyPackageThrows | _helpers/tracking/provider/UpsProvider.js:34-40 | without errors, a missing or empty shipment list, or an empty first package array, throws |
| UpsProvider.DeliveryAttemptOverridesException | _helpers/tracking/provider/UpsProvider.js:48-52 | an EXCEPTION whose label contains DELIVERY ATTEMPT is reported as DELIVERY_ATTEMPTED |
| UpsProvider.ExceptionWithoutLabelThrows | _helpers/tracking/provider/UpsProvider.js:48-50 | an EXCEPTION without a label throws on `label.includes` |
| UpsProvider.UnmappedTypeIsUnavailable | _helpers/tracking/provider/UpsProvider.js:46-65 | a type the table lacks gives UNAVAILABLE |
| UpsProvider.MappedTypeIsReported | _helpers/tracking/provider/UpsProvider.js:40-65 | a type the table maps to a status other than EXCEPTION gives exactly that status, the activity's label and the parsed delivery time |
| UpsProvider.DeliveredReplyParsesDelivered | _helpers/tracking/provider/UpsProvider.js:31-65 | a reply whose first package's last activity maps to DELIVERED parses to a DELIVERED answer with that label and time |
| UpsProvider.Url | _helpers/tracking/provider/UpsProvider.js:14-16 | the details URL is the fixed prefix followed by the number |
| UpsProvider.UrlDeterminesNumber | _helpers/tracking/provider/UpsProvider.js:14-16 | distinct numbers give distinct URLs |
| UpsProvider.RequestFor | _helpers/tracking/provider/UpsProvider.js:14-25 | a GET of that URL with the license number and an Accept of JSON, and no body |
| UspsProvider.FromInfo | _helpers/tracking/provider/UspsProvider.js:40-62 | it throws exactly without a summary; the label is the summary event; the status is the table's, IN_TRANSIT for a code it lacks; DELIVERED takes the event's date and time, any other status the expected date at 9 pm, or no time |
| UspsProvider.Parse | _helpers/tracking/provider/UspsProvider.js:29-63 | error number -2147219283 is LABEL_CREATED; any other error, a top-level error or no TrackInfo is the default; a missing TrackResponse throws; otherwise it is the TrackInfo's answer |
| UspsProvider.TrackDetailIsIgnored | _helpers/tracking/provider/UspsProvider.js:42-45 | the detail events never change the answer |
| UspsProvider.MissingSummaryThrows | _helpers/tracking/provider/UspsProvider.js:42-47 | a reply past the guards without a summary throws |
| UspsProvider.LabelOnlyBeatsTopLevelError | _helpers/tracking/provider/UspsProvider.js:30-35 | the label-only error number gives LABEL_CREATED even when the reply also carries a top-level Error |
| UspsProvider.UnmappedCodeIsInTransit | _helpers/tracking/provider/UspsProvider.js:50 | a code the table lacks gives IN_TRANSIT |
| UspsProvider.ExpectedDateIsNinePm | _helpers/tracking/provider/UspsProvider.js:52-60 | a package that is not delivered and has an expected date is due at that date plus 21 hours |
| UspsProvider.Url | _helpers/tracking/provider/UspsProvider.js:13-17 | the TrackV2 URL is the fixed prefix followed by the request document |
| UspsProvider.UrlDeterminesNumber | _helpers/tracking/provider/UspsProvider.js:65-72 | for one user id, distinct numbers give distinct URLs |
| UspsProvider.RequestFor | _helpers/tracking/provider/UspsProvider.js:13-23 | a POST of that URL with no headers and no body |
| Registry.Couriers | _helpers/tracking/index.js:15-19 | fedex and ups accept their own format, usps accepts USPS and S10; other codes have no formats |
| Registry.Providers | _helpers/tracking/index.js:24-36 | each of the three codes gets its adapter, built with its own credentials; other codes get nothing |
| Registry.IsCourierValid | _helpers/tracking/index.js:43-45 | a code is valid exactly when it is one of the three, that is, exactly when it has an adapter |
| Registry.CouriersMatchProviders | _helpers/tracking/index.js:15-36 | a code has formats exactly when it has an adapter |
| Registry.IsNumberValid | _helpers/tracking/index.js:53-55 | a number is valid when the recognizer matches it against the code's formats, or against no format for an unknown code |
| Registry.FormatsPerCourier | _helpers/tracking/index.js:15-19 | S10 is accepted by the USPS code only |
| Registry.Track | _helpers/tracking/index.js:63-70 | an unknown code throws the "does not exist" error; a known one is its adapter's answer |
| Registry.TrackDispatch | _helpers/tracking/index.js:63-70 | fedex, ups and usps reach the FedEx, UPS and USPS adapters, each with its credentials |
| Registry.UnknownCourierMessageNamesCode | _helpers/tracking/index.js:66-68 | the error message is the fixed words around the code itself |
| Packages.WindowIsMilliseconds | _helpers/tracking.js:84 | the retention test, as written, puts the boundary at 7,776,000 ms: a message that old is outside, one a millisecond younger inside |
| Packages.DivisionCleared | _helpers/tracking.js:84 | comparing the real quotient with 90 is the same as comparing the difference with 90 * 86400 |
| Packages.ToInt32 | _helpers/tracking.js:181 | a bitwise or with 0 gives a signed 32-bit number congruent to x modulo 2^32 |
| Packages.ToInt32OfSmall | _helpers/tracking.js:181 | a bitwise or with 0 leaves a number that fits in 32 bits alone |
| Packages.TruncDiv | _helpers/tracking.js:181 | division rounded toward zero, for both signs |
| Packages.Query | _helpers/tracking.js:179-182 | a truthy last sync inside the window asks after that time in seconds; anything else asks for newer_than:90d |
| Packages.QueryUsesSeconds | accounts/account.service.js:76-80 | for any sync time before 2038 the after: value is the time in whole seconds: its digits stand for `u / 1000` |
| Common.NatToStringValue | accounts/account.service.js:79 | the decimal digits written for a natural number stand for that number |
| Packages.QueryFallsBackToNinetyDays | accounts/account.service.js:76-80 | no sync time, a time of 0 or a time outside the window gives the 90-day query |
| TrackingCache.StatusNumbersAgreeWithCodes | _helpers/tracking.js:51-60 | the helper's status table numbers every status name as the enumeration does, and numbers nothing else |
| TrackingCache.GetInfo | _helpers/tracking.js:62-72 | nothing for nothing; it throws exactly when there is no event; the label is the newest event's status, and the number is that status's |
| TrackingCache.DeliveryDateRule | _helpers/tracking.js:67-70 | the date is the event's own exactly when the event says DELIVERED, else the estimate |
| TrackingCache.AnswerAsWritten | _helpers/tracking.js:74-81 | as written, a live entry throws instead of answering; a miss asks upstream |
| TrackingCache.CacheHitThrowsAsWritten | _helpers/tracking.js:74-81 | a DELIVERED answer cached a minute ago: the second lookup throws as written, and answers DELIVERED as meant |
| TrackingCache.Stored | _helpers/tracking.js:79 | `set` adds the key with a one-hour expiry and leaves every other key alone |
| TrackingCache.Checked | _helpers/tracking.js:75 | `has` keeps a key exactly when it is live, and leaves every other key alone |
| TrackingCache.HitSkipsUpstream | _helpers/tracking.js:74-75 | a live entry answers with the cached value, whatever upstream would say |
| TrackingCache.AnswerIsKeptForAnHour | _helpers/tracking.js:77-81 | after an answer, the cache gives it back for exactly the next hour and not after |
| TrackingCache.OtherNumbersUntouched | _helpers/tracking.js:77-81 | a lookup changes no other number's entry |
| TrackingCache.Cache.constructor | _helpers/tracking.js:37 | the cache starts empty |
| TrackingCache.Cache.GetTracking | _helpers/tracking.js:74-81 | the answer and the new entries are those of the cache specification |
| Messages.FirstContainer | _helpers/tracking.js:94 | `find(p => p.parts)`: the index of the first Container, all parts before it leaves; nothing when all are leaves |
| Messages.Deepest | _helpers/tracking.js:93-98 | the descent stops at a list of leaves only |
| Messages.FindMime | _helpers/tracking.js:99 | the first part with the MIME type, and none before it has that type; nothing when none has it |
| Messages.PickBody | _helpers/tracking.js:99 | the chosen part is one of the list, text/plain or text/html |
| Messages.PlainBeforeHtml | _helpers/tracking.js:99 | a plain part wins and is the first one; html is taken only without plain; nothing exactly when neither exists |
| Messages.NestedPart | _helpers/tracking.js:93-100 | `getNestedPart` answers a text/plain or text/html leaf, or nothing |
| Messages.BodyPart | _helpers/tracking.js:102 | a leaf payload is its own body part; a Container payload is searched |
| Messages.FlatListIsSearchedInPlace | _helpers/tracking.js:93-100 | a list without Containers is not descended into |
| Messages.OnlyFirstContainerIsFollowed | _helpers/tracking.js:94-98 | only the first Container is followed; the parts after it never matter |
| Messages.FirstContainerAfterLeaves | _helpers/tracking.js:94-98 | after leaves, the first Container is found where it is and the descent continues inside it |
| Messages.FromHeader | _helpers/tracking.js:129-131 | the first From header's value; nothing exactly when there is no From header |
| Messages.FetchAll | _helpers/tracking.js:156-168 | every message in id order, each the answer for its id; a failure means some id failed |
| Messages.SortByDate | _helpers/tracking.js:169 | the messages ascending by internal date, and a permutation of the input |
| Messages.OnlyInvalidCredentialsIsRetried | _helpers/tracking.js:201-205 | any outcome other than Invalid Credentials is final |
| Messages.StaleTriesAreRetried | _helpers/tracking.js:202-203 | each stale try whose token refresh succeeds is followed by the next try |
| Messages.FailedRefreshEnds | _helpers/tracking.js:203 | a failed token refresh ends the search with the refresh's failure |
| TrackingHelper.Merge | _helpers/tracking.js:86-89 | the lookup's status, label and date replace the package's, other fields stay; no lookup changes nothing |
| TrackingHelper.UpdateAllMergesAnswers | _helpers/tracking.js:83-91 | a completed refresh keeps each package in its place; a frozen one exactly; any other is merged with the answer its lookup got from the cache the packages before it left |
| TrackingHelper.UpdateAllKeepsPackages | _helpers/tracking.js:83-91 | a completed refresh keeps each package in its place with at most status, label and delivery date replaced |
| TrackingHelper.FrozenPackageIsNotLookedUp | _helpers/tracking.js:83-85 | a package outside the window costs no lookup and leaves the cache alone |
| TrackingHelper.UpdatePackage | _helpers/tracking.js:83-89 | one package's refresh and the cache after it match the specification |
| TrackingHelper.UpdateAllStopsAtError | _helpers/tracking.js:91 | the first failure is the failure of the whole refresh |
| TrackingHelper.UpdateExistingPackages | _helpers/tracking.js:91 | the loop's result and cache are those of the refresh specification |
| TrackingHelper.GetNestedPart | _helpers/tracking.js:93-100 | the while loop answers what the descent specification answers |
| TrackingHelper.PlainBody | _helpers/tracking.js:104-108 | '' without a text part; the decoded data passed through textversionjs (even for plain text) with foreign links removed; an error when the data is missing |
| TrackingHelper.FoundIn | _helpers/tracking.js:119-120 | for a readable body, the numbers `findTracking` finds in it, in its order, each paired with the message |
| TrackingHelper.FoundPairs | _helpers/tracking.js:119-120 | every number found is paired with a message of the list |
| TrackingHelper.FoundPairsFollowMessages | _helpers/tracking.js:119-120 | the search fails exactly when some message's body cannot be read; otherwise it is the concatenation, in message order, of each message's found numbers |
| TrackingHelper.NormalCourier | _helpers/tracking.js:126 | s10 becomes usps and every other code stays |
| TrackingHelper.MessageDataOf | _helpers/tracking.js:124-136 | it succeeds exactly when the From header and both patterns match; number, courier, id, date and `updated` come from the number and the message; sender and sender URL are what the name and domain patterns match in the From header |
| TrackingHelper.NumbersOf | _helpers/tracking.js:117 | exactly the numbers of the packages |
| TrackingHelper.CandidatesAreFresh | _helpers/tracking.js:117-122 | no candidate was stored or seen before in the pass; none has courier s10; the seen set grows by exactly their numbers |
| TrackingHelper.CandidatesAreComplete | _helpers/tracking.js:117-122 | the seen set only grows; a completed pass has seen every found number, so every found number that was not stored is the number of some candidate |
| TrackingHelper.SeenNumberIsSkipped | _helpers/tracking.js:121 | a number met again contributes nothing, not even an error |
| TrackingHelper.CandidatesStopAtError | _helpers/tracking.js:119-136 | the first failure is the failure of the whole pass |
| TrackingHelper.Deduplicate | _helpers/tracking.js:116-136 | the loop with its growing `uniques` set answers the deduplication specification |
| TrackingHelper.WithInfo | _helpers/tracking.js:138-150 | a lookup's fields are overlaid with the message data; without one, status 0 while the message is at most two days old, and nothing after |
| TrackingHelper.LookupAllFollowsCandidates | _helpers/tracking.js:138-153 | every package found carries the number and the date of some candidate |
| TrackingHelper.LookupAllAnswersEvery | _helpers/tracking.js:138-153 | a completed pass looked every candidate up, in the cache the candidates before it left, without failure |
| TrackingHelper.LookupAllIsEveryYield | _helpers/tracking.js:138-153 | the packages of a completed pass are exactly the candidates' yields in candidate order, empty yields dropped: a candidate with an answer, or without one but at most two days old, gives a package, and no other does |
| TrackingHelper.LookupAllStopsAtError | _helpers/tracking.js:138-153 | the first failed lookup is the failure of the whole pass, with that cache |
| TrackingHelper.LookupPackages | _helpers/tracking.js:138-153 | the loop's result and cache are those of the lookup specification |
| TrackingHelper.GetPackages | _helpers/tracking.js:116-154 | deduplication then lookups, matching their specification |
| TrackingHelper.EndedListingIgnoresBound | _helpers/tracking.js:174-193 | a listing that ends within the page bound gives the same ids under any larger bound |
| TrackingHelper.GetMessageIds | _helpers/tracking.js:171-195 | the do/while loop collects the ids of the listing specification |
| TrackingHelper.GetMessages | _helpers/tracking.js:156-169 | it fails exactly when one fetch fails; otherwise it holds one message per id, exactly the fetched messages (as a multiset), oldest first |
| TrackingHelper.FindNewPackages | _helpers/tracking.js:197-206 | the retried list, fetch and discovery, matching the retry specification |
| TrackingHelper.TryOnce | _helpers/tracking.js:197-200 | one try's result and cache are those of its specification |
| AccountService.RefreshAllKeepsPackages | accounts/account.service.js:47-72 | a refresh keeps each package in its place and touches only status, label, time and `updated`; a frozen one is untouched; a completed refresh gives every other package its lookup's answer and the time |
| AccountService.RefreshAllAfterError | accounts/account.service.js:59 | after a failed lookup the remaining packages are left as they were |
| AccountService.TrimStart | accounts/account.service.js:148 | what remains is a suffix whose removed part is all white space and whose first character is not white space |
| AccountService.TrimEnd | accounts/account.service.js:148 | what remains is a prefix whose removed part is all white space and whose last character is not white space |
| AccountService.Trim | accounts/account.service.js:148 | a slice of the input with white space only around it, and none at either of its ends |
| AccountService.TrimIsIdempotent | accounts/account.service.js:148 | trimming twice is trimming once |
| AccountService.ReplaceUnderscores | accounts/account.service.js:148 | same length, no underscore left, each underscore a space and every other character kept |
| AccountService.SenderUrlOf | accounts/account.service.js:140-145 | the domain the pattern finds, with gmail.com shown as mail.google.com; nothing exactly when it does not match |
| AccountService.SenderOf | accounts/account.service.js:146-149 | the display name, trimmed and with underscores shown as spaces; else the sender URL; else "Unknown" |
| AccountService.OriginOf | accounts/account.service.js:137-152 | it throws exactly without a From header; otherwise the message's id and date with its sender and sender URL |
| AccountService.ServiceBody | accounts/account.service.js:191-214 | '' without a text part; decoded data, passed through textversionjs only for html, with foreign links removed |
| AccountService.ServiceBodyAgreesWithHelper | accounts/account.service.js:191-214 | the service and the helper fail alike, agree on html, and agree everywhere when textversionjs changes nothing |
| AccountService.PageWithoutMessagesEndsSearch | accounts/account.service.js:101 | a page without messages ends the whole search with no result |
| AccountService.PushStep | accounts/account.service.js:156-177 | a seen number is skipped; a failed lookup throws; an empty answer is skipped unmarked; an answer marks the number and pushes its package |
| AccountService.PushAllIsFresh | accounts/account.service.js:156-178 | the packages pushed for a message are new and pairwise distinct, carry its date and the time of the sync, and the seen set grows by exactly their numbers |
| AccountService.ScanOneIsFresh | accounts/account.service.js:136-178 | the same for one whole message |
| AccountService.ScanAllIsFresh | accounts/account.service.js:136-179 | over all messages, no pushed number was stored or pushed twice |
| AccountService.PushAllIsComplete | accounts/account.service.js:156-168 | the seen set only grows; once the inner loop completes, every found number whose lookup answers has been seen |
| AccountService.ScanOneIsComplete | accounts/account.service.js:136-168 | the same for one message whose From header and body are read |
| AccountService.ScanAllIsComplete | accounts/account.service.js:136-179 | once discovery completes, every answered number of every message has been seen |
| AccountService.ScanAllFollowsDates | accounts/account.service.js:136-178 | over messages oldest first, the packages are pushed oldest first and none is newer than the last message |
| AccountService.ScanAllStopsAtError | accounts/account.service.js:136-179 | after a failure in one message no later message is scanned |
| AccountService.PushAllStopsAtError | accounts/account.service.js:163 | after a failed lookup no later number of the message is looked up |
| AccountService.FoundNewAppendsFreshPackages | accounts/account.service.js:74-180 | discovery keeps the stored packages as they are and appends only new numbers, each once, oldest message first; once it completes, every number found in a fetched message whose lookup answers is stored already or appended |
| AccountService.RetryingKeepsSorted | accounts/account.service.js:113-133 | whatever try succeeds, its messages are sorted oldest first |
| AccountService.SyncIsHourly | accounts/account.service.js:30-45 | within an hour of any stored sync time a sync returns the stored packages and time unchanged; an unthrottled sync that completes records its time, one that fails keeps the old one; the hour after a completed sync is throttled |
| AccountService.SyncKeepsStoredPackages | accounts/account.service.js:30-45 | a sync keeps every stored package's number, courier, date and sender in its place, and a frozen package whole |
| AccountService.RefreshFailsWithThrowingLookup | accounts/account.service.js:47-72 | with a lookup that always throws, the refresh fails, with the TypeError, exactly when some package is not frozen |
| AccountService.SyncFailsWithUndefinedTrack | accounts/account.service.js:11 | with `track` undefined, an unthrottled sync with a package that is not frozen throws the TypeError and keeps the old sync time |
| AccountService.PushAllFailsWithThrowingLookup | accounts/account.service.js:156-177 | with a lookup that always throws, discovery pushes nothing and throws the TypeError exactly when a number not yet seen is found |
| AccountService.AddFailsWithUndefinedTrack | accounts/account.service.js:257 | with `track` undefined, no add request succeeds, and a well-formed request for a new number throws the TypeError |
| AccountService.Added | accounts/account.service.js:239-277 | a malformed body, a stored number, a failed lookup and an empty answer each throw with its message; a stored number also empties the in-memory list, which is never saved; otherwise the new package is appended with the request's fields, the time, the lookup's status number, label and delivery time, and no delivery date |
| AccountService.Kept | accounts/account.service.js:288-290 | exactly the packages whose number is not selected remain |
| AccountService.KeptDistributes | accounts/account.service.js:288-290 | the filter keeps order: it distributes over concatenation |
| AccountService.KeptBounds | accounts/account.service.js:288-290 | deleting nothing keeps everything; no remaining package has a selected number |
| AccountService.Account.constructor | accounts/account.service.js:31 | an account with the stored packages and last sync time |
| AccountService.Account.UpdateExistingPackages | accounts/account.service.js:47-72 | the loop writes the packages of the refresh specification and returns its result; `updated` is left alone |
| AccountService.Account.RefreshAt | accounts/account.service.js:50-70 | one turn changes only package i, as the refresh step says |
| AccountService.Account.GetPlainBody | accounts/account.service.js:191-214 | the descent and pick loop answers `ServiceBody` |
| AccountService.Account.PushNumbers | accounts/account.service.js:156-178 | the inner loop appends the packages of the push specification and returns its seen set and outcome |
| AccountService.Account.ScanMessage | accounts/account.service.js:137-178 | one message appends the packages of its scan |
| AccountService.Account.ScanMessages | accounts/account.service.js:136-179 | the outer loop appends the packages of the scan specification and returns its outcome |
| AccountService.Account.ListMessageIds | accounts/account.service.js:96-104 | the do/while loop answers the listing specification |
| AccountService.Account.FetchMessages | accounts/account.service.js:91-116 | the `try` block answers the fetch specification |
| AccountService.Account.FindNewPackages | accounts/account.service.js:74-180 | the packages and result are those of the discovery specification |
| AccountService.Account.GetPackages | accounts/account.service.js:30-45 | the packages, last sync time and answer are those of the sync specification |
| AccountService.Account.AddPackage | accounts/account.service.js:239-277 | the packages, last sync time and answer are those of `Added` |
| AccountService.Account.DeletePackages | accounts/account.service.js:279-294 | no body throws Malformed request and changes nothing; otherwise the selected numbers are removed and the time is recorded |

## Left out

- Database access (`db.Account.findOne`, `account.save()`) is not modelled.
  - "Account does not exist" and the persistence of each change are not
    modelled.
  - The model's account state is the in-memory document those calls would find
    and save.
  - A failed sync therefore leaves in the model whatever the loops had written
    before the error. The source saves those writes in one case only. On a
    stale access token, `account.save()` (`accounts/account.service.js:130`)
    stores the new token together with the refreshed packages written at
    `accounts/account.service.js:60-69`. If the retried discovery then fails,
    the database holds those refreshed packages and the old `updated` time.
- `restorePackages` and `resetPackages` are not modelled. They only clear
  fields, save, and call the modelled `getPackages`.
- Concurrency is not modelled:
  - `Promise.all` over the package refreshes, message fetches and lookups is
    taken in array order, one at a time, and fails with the first failure in
    that order;
  - the interleaving of their cache writes is not represented.
- A body or message-data failure in `getPackages` of `_helpers/tracking.js`
  ends the model's pass before any lookup, so neither the lookups of the
  numbers before it nor their cache writes happen. In the source, `flatMap`
  (`_helpers/tracking.js:119-138`) has already started the `getTracking` calls
  of the earlier numbers, including those of earlier messages when a later
  `getPlainBody` throws, and their cache writes still happen.
- These are parameters, not modelled: the HTTP client `got`, fast-xml-parser,
  `JSON.parse`, base64url, textversionjs, the links pattern, the From-header
  patterns, `findTracking`, ts-tracking-number's recognizer, ts-shipment-tracking's
  `track`, and the Google OAuth refresh.
- The UPS and USPS status tables (`upsStatusCode.js`, `uspsStatusCode.js`) and
  `ResponseType.js` are not part of this model. The tables are parameters, and
  the response type is a three-case datatype.
- `Date.now()` is one `now` parameter per operation. The source reads the clock
  several times during one operation.
- `new Date(x).getTime()` and the date-fns `parse` are parameters returning
  integers. An invalid date's NaN is not modelled.
- `parseInt(internalDate)` and the sort comparator are modelled on integers.
  The source compares Gmail's string `internalDate` values lexicographically,
  which agrees with numeric order for timestamps of equal length.
- The comparator never returns 0, so the relative order of two messages with
  equal dates is not modelled. `Messages.SortByDate` promises only ascending
  order and a permutation.
- Messages.Retrying: the source retries on "Invalid Credentials" without bound.
  The model stops after a `retries` bound, and an answer after the last allowed
  try stays the stale-token error.
- The page listing is bounded by a `pages` parameter. A listing with more pages
  ends early in the model. `TrackingHelper.EndedListingIgnoresBound` shows that
  a listing within the bound loses nothing.
- The mongoose schema's casting and filtering of saved values is not modelled
  (`accounts/account.model.js:11-25`):
  - the stored `status` type: the model keeps the lookup's status number;
  - the `created` field;
  - `deliveryTime`, which is not a path of the package schema, so strict mode
    does not save the `deliveryTime` written by the refresh
    (`accounts/account.service.js:69`), the discovery
    (`accounts/account.service.js:168-177`) or an add. The model keeps it.
  - `deliveryDate`, which is a path the service never writes.
- The `label` field is called `statusLabel`, because `label` is a Dafny keyword.
- `console.log` of errors is omitted.
- `for (const i in packages)` is modelled as index order over the array.
- The source's `getTracking(number, formats)` recognizer is a parameter of
  `Registry.IsNumberValid`.

## Findings

| source | as written | input that shows it | evidently intended | confidence | as-written member | corrected member |
|---|---|---|---|---|---|---|
| _helpers/tracking.js:74-81 | on a cache hit `getTrackingInfo` returns the cached object itself, not a promise, and `getTracking` calls `.then` on it, which throws a TypeError | any number looked up a second time within the hour, e.g. a DELIVERED answer cached a minute earlier | a live entry answers with the cached value without asking upstream, and is set again | high; not executed | TrackingCache.CacheHitThrowsAsWritten | TrackingCache.HitSkipsUpstream |
| accounts/account.service.js:11 | `track` is imported from `_helpers/tracking`, which does not export it, so every `track(...)` call in the service (lines 59, 163, 257) calls `undefined` and throws a TypeError | an unthrottled sync of an account with one package less than the retention window old, or any well-formed add request for a new number | the carrier lookup of the registry, `(courierCode, trackingNumber)` to a `PackageInfo`, an empty answer or an error; the model takes it as the `lookup` parameter | high; not executed | AccountService.SyncFailsWithUndefinedTrack | AccountService.RefreshAllKeepsPackages |
