# Seedtag bid adapter — a Dafny model

This project models the Seedtag bid adapter of Prebid.js. The adapter sits
between the host auction library and Seedtag's bidding exchange. It has five
parts:

- it decides which ad-slot configurations the exchange accepts (`isBidRequestValid`);
- it builds the single POST request for a batch of valid slots (`buildRequests`);
- it translates the exchange's bids into the host's bid shape (`interpretResponse`);
- it produces the iframe user-sync directive (`getUserSyncs`);
- it gives the tracking URLs fired on timeout and on a won bid (`getTimeoutUrl`, `onTimeout`, `onBidWon`).

The behaviour comes from the adapter's test suite,
`test/spec/modules/seedtagBidAdapter_spec.js`. The implementation file
`modules/seedtagBidAdapter.js` is not part of this model. Every operation
is pure, so the model is made of datatypes, functions and lemmas. The
outbound payload is a record whose `Option` fields are keys the serialized
body may leave out. A tracking call is modelled as the URL it fires
(`Option<string>`, where `None` means nothing is fired).

Modules, one per component:

- `Wrappers`, `Json`, `Decimal`: helpers. These are optional fields, opaque structured values (supply chain, publisher video parameters), and the decimal numeral of a timeout.
- `Slots`: the slot configuration. `mediaTypes` is a sequence of declarations kept in the JavaScript object's key order.
- `Validator`: `isBidRequestValid`.
- `RequestBuilder`: `buildRequests`, the payload record, and the vendor id `gvlid`.
- `ResponseInterpreter`: the response shapes and `interpretResponse`.
- `UserSync`: `getUserSyncs`.
- `EventNotifier`: `getTimeoutUrl`, `onTimeout`, `onBidWon`, and a reader for the timeout URL.
- `Scenarios`: each test case, as a lemma over the test's fixtures.

Choices the tests settle:

- For a video slot, the entry's `sizes` is the slot's own `sizes`, not its player-size list. The test checks `[[300,250],[300,600]]` for the video entry at lines 352-355.
- A slot without `placement` is invalid (line 128).
- An outstream video slot with complete fields is valid (line 168, in a suite titled "returns false").
- For the consent case "ga should not be sent when gdprApplies is undefined", the test only checks that no `data` key exists (line 278). The model follows the test's title: `ga` is absent.

Choices the tests leave open, made by the model:

- Repeated supply types are dropped, keeping the first (the tests check only `supplyTypes[0]`).
- `schain` comes from the first slot that carries one (the test puts it on the first slot).
- With several responses carrying a sync URL, the last one is used (the tests pass one response).
- A well-formed `mediaTypes` has no key twice, and the keys `banner` and `video` always hold their own declaration kind.

## Model

| member | source | states |
|---|---|---|
| Slots.FindVideo | test/spec/modules/seedtagBidAdapter_spec.js:148-192 | finds a video declaration exactly when the slot declares video, wherever it stands among the media types |
| Slots.VideoDeclUnique | test/spec/modules/seedtagBidAdapter_spec.js:179-192 | with well-formed `mediaTypes` (no key twice, `banner`/`video` only as their own kind), the video declaration found is the one the slot declares |
| Validator.IsBidRequestValid | test/spec/modules/seedtagBidAdapter_spec.js:36-194 | `isBidRequestValid`: a valid slot has a non-empty publisherId and adUnitId and an allowed placement; a slot with those params and no video declaration is valid |
| Validator.ValidIffMeetsRules | test/spec/modules/seedtagBidAdapter_spec.js:36-194 | a slot is valid exactly when publisherId and adUnitId are non-empty, placement is one of banner/video/inImage/inScreen/inArticle, and every video declaration has a context and a non-empty playerSize |
| Validator.ValidityIgnoresMediaTypeOrder | test/spec/modules/seedtagBidAdapter_spec.js:179-192 | reordering the keys of `mediaTypes` never changes the verdict |
| Validator.NoVideoJudgedOnParams | test/spec/modules/seedtagBidAdapter_spec.js:38-65 | a slot without video is judged by its mandatory params alone |
| Validator.IncompleteVideoRejects | test/spec/modules/seedtagBidAdapter_spec.js:156-191 | a video declaration without context or without player sizes rejects the slot, with or without a banner declaration |
| Decimal.NatToString | test/spec/modules/seedtagBidAdapter_spec.js:541-546 | the timeout's numeral is non-empty, all digits, and has no leading zero |
| Decimal.ParseNatToString | test/spec/modules/seedtagBidAdapter_spec.js:541-546 | reading the numeral back gives the timeout |
| Decimal.NatToStringInjective | test/spec/modules/seedtagBidAdapter_spec.js:541-546 | distinct timeouts give distinct numerals |
| RequestBuilder.Without | test/spec/modules/seedtagBidAdapter_spec.js:327-357 | removing one supply type keeps the others and keeps the list free of repeats; de-duplication is a modelling choice, since the tests check only `supplyTypes[0]` |
| RequestBuilder.SupplyTypes | test/spec/modules/seedtagBidAdapter_spec.js:327-357 | supply types are exactly the kinds of the declared media types (video as video, others as display), with no repeats, and the first comes from the first media type |
| RequestBuilder.BuildBidRequest | test/spec/modules/seedtagBidAdapter_spec.js:323-357 | a slot's entry carries its adUnitId (non-empty), bidId, sizes and request count, has `videoParams` exactly when the slot declares video, and has supply types exactly when it declares media types |
| RequestBuilder.BuildBidRequests | test/spec/modules/seedtagBidAdapter_spec.js:323-357 | one payload entry per slot, entry i built from slot i, so input order is kept |
| RequestBuilder.FirstSchain | test/spec/modules/seedtagBidAdapter_spec.js:360-403 | a supply chain is found exactly when some slot carries one, and it is the first such slot's |
| RequestBuilder.ConsentFields | test/spec/modules/seedtagBidAdapter_spec.js:261-291 | `cmp` holds exactly when consent data is given; without it neither `ga` nor `cd`; with it `ga` is gdprApplies and `cd` the consent string |
| RequestBuilder.BuildRequests | test/spec/modules/seedtagBidAdapter_spec.js:219-239 | a POST to `https://s.seedtag.com/c/hb/bid` whose payload has one entry per slot |
| RequestBuilder.CommonFields | test/spec/modules/seedtagBidAdapter_spec.js:225-239 | `url` is the referer page and `publisherToken` the slots' publisherId; version, connection type, auction start and ttfb are the environment's readings |
| RequestBuilder.EntryDescribesSlot | test/spec/modules/seedtagBidAdapter_spec.js:241-357 | entry i copies slot i's bidId, transactionId, adUnitId, adUnitCode, sizes and request count, and has `adPosition` exactly when the slot's params set it |
| RequestBuilder.EntrySupplyTypes | test/spec/modules/seedtagBidAdapter_spec.js:327-347 | an entry's supply types have no repeats, contain video exactly when the slot declares video and display exactly when it declares something else, and start with the first declaration's kind |
| RequestBuilder.EntryVideoParams | test/spec/modules/seedtagBidAdapter_spec.js:341-357 | `videoParams` exist exactly for a video slot; they carry the publisher's `params.video`, the context and player sizes, and `w`/`h` from the first player size |
| RequestBuilder.ConsentFieldRules | test/spec/modules/seedtagBidAdapter_spec.js:261-291 | `cmp` holds exactly when consent data is given; without it there is no `ga` and no `cd`; with it `cd` is the consent string and `ga` is sent exactly when gdprApplies is defined |
| RequestBuilder.UspConsentPassedThrough | test/spec/modules/seedtagBidAdapter_spec.js:295-319 | `uspConsent` is present exactly when the context has one, unchanged |
| RequestBuilder.SchainRule | test/spec/modules/seedtagBidAdapter_spec.js:360-403 | `schain` is present exactly when some slot carries one, and is then the first such slot's, copied verbatim |
| ResponseInterpreter.BuildBid | test/spec/modules/seedtagBidAdapter_spec.js:423-494 | one raw bid's translation: net revenue, id, price and currency copied, `ad` and `nurl` exactly for a display bid, `vastXml` for a video bid, advertiser domains empty when `adomain` is missing |
| ResponseInterpreter.BuildBids | test/spec/modules/seedtagBidAdapter_spec.js:423-494 | one normalized bid per raw bid, in response order |
| ResponseInterpreter.InterpretResponse | test/spec/modules/seedtagBidAdapter_spec.js:406-422 | a missing body or bid list gives no bids; otherwise there is one bid per raw bid |
| ResponseInterpreter.InterpretedBid | test/spec/modules/seedtagBidAdapter_spec.js:423-494 | bid i copies raw bid i's id, price, currency, size and ttl; netRevenue is true; display content becomes `ad` with the raw `nurl`, video content becomes `vastXml`; advertiser domains are `adomain`, or empty when it is missing |
| ResponseInterpreter.EmptyExactlyWithoutBids | test/spec/modules/seedtagBidAdapter_spec.js:406-422 | the result is empty exactly when the response has no bids |
| UserSync.SyncUrlOf | test/spec/modules/seedtagBidAdapter_spec.js:504-515 | a response yields a sync URL exactly when its `cookieSync` is present and non-empty, and the URL is that `cookieSync` |
| UserSync.LastSyncUrl | test/spec/modules/seedtagBidAdapter_spec.js:516-523 | the sync URL, when any, belongs to a response with no later response carrying one; the last-response policy is a modelling choice, since the tests pass a single response |
| UserSync.GetUserSyncs | test/spec/modules/seedtagBidAdapter_spec.js:497-524 | at most one directive; none exactly when iframe sync is off or no response has a non-empty sync URL; otherwise an iframe directive whose URL is some response's `cookieSync` |
| UserSync.SyncUsesLastUrl | test/spec/modules/seedtagBidAdapter_spec.js:516-523 | with iframe sync on, the directive is exactly `[iframe, URL of the last response that has one]` |
| EventNotifier.GetTimeoutUrl | test/spec/modules/seedtagBidAdapter_spec.js:535-548 | `getTimeoutUrl`: every URL is on the timeout endpoint, and it is the bare endpoint exactly when there is no first event with params |
| EventNotifier.OnTimeout | test/spec/modules/seedtagBidAdapter_spec.js:550-565 | on timeout exactly the URL `getTimeoutUrl` builds from the events is fired, a URL on the timeout endpoint (what it carries: TimeoutUrlRoundTrip) |
| EventNotifier.OnBidWon | test/spec/modules/seedtagBidAdapter_spec.js:568-595 | a won bid fires its `nurl` when it has one, and nothing otherwise |
| EventNotifier.WonBidOf | test/spec/modules/seedtagBidAdapter_spec.js:568-595 | the won bid handed back for an interpreted bid has a `nurl` only for a display bid, and then the display bid's own `nurl` |
| EventNotifier.WinFiresExchangeNurl | test/spec/modules/seedtagBidAdapter_spec.js:423-459 | winning an interpreted display bid fires the `nurl` the exchange sent; a video bid fires nothing, which follows only from the model's choice that a video creative carries no `nurl` |
| EventNotifier.SplitAtAmpersand | test/spec/modules/seedtagBidAdapter_spec.js:540-547 | splitting a query at its first `&` loses nothing, and the first part has no `&` |
| EventNotifier.SplitAtAmpersandOfJoin | test/spec/modules/seedtagBidAdapter_spec.js:540-547 | a value with no `&`, followed by the next `&` key, splits back into the same two parts |
| EventNotifier.ParseTimeoutUrl | test/spec/modules/seedtagBidAdapter_spec.js:540-547 | reading a timeout URL succeeds only on the timeout endpoint's query, and the ids it reads contain no `&` |
| EventNotifier.TimeoutUrlRoundTrip | test/spec/modules/seedtagBidAdapter_spec.js:535-548 | for ids with no `&`, the timeout URL reads back as exactly the first event's publisherId, adUnitId and timeout |
| EventNotifier.EmptyTimeoutReport | test/spec/modules/seedtagBidAdapter_spec.js:535-548 | with no event or no params, the URL is the bare timeout endpoint and carries no query |
| Scenarios.BannerSlotValidForEachPlacement | test/spec/modules/seedtagBidAdapter_spec.js:38-65 | the banner fixture is valid for each of the five placements |
| Scenarios.CompleteVideoSlotValid | test/spec/modules/seedtagBidAdapter_spec.js:67-102 | instream and outstream video slots with playerSize `[[600,200]]` are valid |
| Scenarios.MissingOrWrongParamsInvalid | test/spec/modules/seedtagBidAdapter_spec.js:106-146 | missing publisherId, adUnitId or placement, or placement `another_thing`, is invalid |
| Scenarios.IncompleteVideoInvalid | test/spec/modules/seedtagBidAdapter_spec.js:148-192 | `video: {}` and `video: {context}` are invalid, with banner before or after |
| Scenarios.FixtureSlotsValid | test/spec/modules/seedtagBidAdapter_spec.js:212-218 | the test's banner and instream slots are both valid |
| Scenarios.RequestDescriptor | test/spec/modules/seedtagBidAdapter_spec.js:219-239 | POST, the bid endpoint, url `referer`, the publisher token, and `adunit-code` on the first entry |
| Scenarios.AdPositionSentOnlyWhenSet | test/spec/modules/seedtagBidAdapter_spec.js:241-259 | `adPosition: 1` is sent; without it the entry has no adPosition |
| Scenarios.GdprFields | test/spec/modules/seedtagBidAdapter_spec.js:261-291 | cmp false without consent; cmp true with `cd` and no `ga` when gdprApplies is undefined; `ga` true when it is true |
| Scenarios.VendorId | test/spec/modules/seedtagBidAdapter_spec.js:292-294 | the vendor id is 157 |
| Scenarios.UspConsentField | test/spec/modules/seedtagBidAdapter_spec.js:295-319 | `1---` is sent; without it there is no uspConsent |
| Scenarios.BannerAndVideoEntries | test/spec/modules/seedtagBidAdapter_spec.js:323-357 | the banner and video entries of the fixture, including supply types `display`/`video`, `mimes: mp4` and `w`/`h` 300/200 |
| Scenarios.SchainField | test/spec/modules/seedtagBidAdapter_spec.js:360-403 | the sample supply chain on the first slot is sent unchanged; without it no schain |
| Scenarios.MissingOrEmptyBidsGiveNothing | test/spec/modules/seedtagBidAdapter_spec.js:407-422 | `body: {}` and `bids: []` give no bids |
| Scenarios.DisplayBidInterpreted | test/spec/modules/seedtagBidAdapter_spec.js:424-460 | the sample display bid is translated field by field |
| Scenarios.VideoBidInterpreted | test/spec/modules/seedtagBidAdapter_spec.js:461-493 | the sample video bid gives `vastXml` and empty advertiser domains |
| Scenarios.UserSyncCases | test/spec/modules/seedtagBidAdapter_spec.js:497-524 | the four user-sync cases |
| Scenarios.TimeoutUrlOfTestEvent | test/spec/modules/seedtagBidAdapter_spec.js:535-565 | the exact timeout URL for `0000`, `11111`, 3000, and that onTimeout fires it |
| Scenarios.BidWonCases | test/spec/modules/seedtagBidAdapter_spec.js:577-594 | no pixel without nurl; the nurl pixel with one |

## Left out

- JSON serialisation of the payload (`JSON.stringify`/`JSON.parse`): the payload is a record, and a `None` field stands for a key the serialized body omits.
- The clock and environment readings (`auctionStart`, `ttfb`, `connectionType`, `version`) are injected through `RequestBuilder.Environment`. The model copies them and does not state that `auctionStart` is at least the time at which the call began.
- Pixel firing (`utils.triggerPixel`) is network I/O: `OnTimeout` and `OnBidWon` return the URL they would fire instead.
- Prices are `real` values copied through unchanged. IEEE floating point is not modelled.
- `interpretResponse`'s second argument (the original request) is not read by any asserted behaviour, so the model does not take it.
- A raw `mediaType` other than `display` or `video` cannot be represented. No asserted case gives such a value.
- A video bid carries no `nurl` in the model. No asserted case covers a video bid's `nurl`.
- The `cookieSync: {url: ''}` object shape in the response fixtures is not asserted. `cookieSync` is modelled as a string, as the user-sync tests pass it.
- JavaScript truthiness of present-but-empty options (`adPosition: 0`, `uspConsent: ''`, `nurl: ''`) is not modelled. Those fields follow presence only, as the tests state them.
- Publisher `params.video` keys that would collide with `w`, `h`, `context` or `playerSize` are not merged into those fields. The publisher's parameters are kept as a separate map inside `videoParams`.
- Slot fields that no asserted case reads (`bidderRequestId`, `auctionId`, `bidder`, `src`, `params.placement` in the entry) are left out, and so is `bidderRequest.timeout`.
- `publisherToken` comes from the first slot. Consistency of publisherId across the batch is assumed, not checked.
- Decimal.NatToString: timeouts of 10^21 ms and above, which JavaScript writes in exponent notation, and timeouts above 2^53, which JavaScript rounds, are rendered as plain exact digits.
- The timeout URL for an empty event list, or a first event without params, is the bare timeout endpoint. The tests do not pin this case down.
- The test harness's mutation of the shared `bidderRequest` across cases is not modelled. Each case uses a fresh context value.
