/** The cases of test/spec/modules/seedtagBidAdapter_spec.js, each stated as
    a lemma about the model on the fixtures of that file. */
module Scenarios {
  import opened Wrappers
  import opened Json
  import opened Decimal
  import opened Slots
  import opened Validator
  import opened RequestBuilder
  import opened ResponseInterpreter
  import opened UserSync
  import opened EventNotifier

  const PublisherId: string := "0000-0000-01"
  const AdUnitId: string := "000000"

  /** `getSlotConfigs(mediaTypes, params)`. */
  function SlotFixture(mediaTypes: seq<MediaTypeDecl>, params: SlotParams): SlotConfig {
    SlotConfig(params, [Size(300, 250), Size(300, 600)], "30b31c1838de1e",
               "d704d006-0d6e-4a09-ad6c-179e7e758096", "adunit-code", 1, mediaTypes, None)
  }

  function ParamsOf(publisherId: Option<string>, adUnitId: Option<string>, placement: Option<string>): SlotParams {
    SlotParams(publisherId, adUnitId, placement, None, map[])
  }

  /** `createVideoSlotConfig(mediaTypes)`. */
  function VideoSlotFixture(mediaTypes: seq<MediaTypeDecl>): SlotConfig {
    SlotFixture(mediaTypes, ParamsOf(Some(PublisherId), Some(AdUnitId), Some("video")))
  }

  // isBidRequestValid

  lemma BannerSlotValidForEachPlacement(placement: string)
    requires placement in AllowedPlacements
    ensures IsBidRequestValid(SlotFixture([Banner], ParamsOf(Some(PublisherId), Some(AdUnitId), Some(placement))))
  {
  }

  lemma CompleteVideoSlotValid(context: string)
    requires context == "instream" || context == "outstream"
    ensures IsBidRequestValid(VideoSlotFixture([Video(VideoMediaType(Some(context), Some([Size(600, 200)])))]))
  {
  }

  lemma MissingOrWrongParamsInvalid()
    ensures !IsBidRequestValid(SlotFixture([Banner], ParamsOf(None, Some(AdUnitId), Some("banner"))))
    ensures !IsBidRequestValid(SlotFixture([Banner], ParamsOf(Some(PublisherId), None, Some("banner"))))
    ensures !IsBidRequestValid(SlotFixture([Banner], ParamsOf(Some(PublisherId), Some(AdUnitId), None)))
    ensures !IsBidRequestValid(SlotFixture([Banner], ParamsOf(Some(PublisherId), Some(AdUnitId), Some("another_thing"))))
  {
  }

  lemma IncompleteVideoInvalid()
    ensures !IsBidRequestValid(VideoSlotFixture([Video(VideoMediaType(None, None))]))
    ensures !IsBidRequestValid(VideoSlotFixture([Video(VideoMediaType(Some("instream"), None))]))
    ensures !IsBidRequestValid(VideoSlotFixture([Banner, Video(VideoMediaType(None, None))]))
    ensures !IsBidRequestValid(VideoSlotFixture([Video(VideoMediaType(None, None)), Banner]))
  {
  }

  // buildRequests

  const MandatoryParams: SlotParams := ParamsOf(Some(PublisherId), Some(AdUnitId), Some("banner"))

  const InStreamParams: SlotParams := MandatoryParams.(video := map["mimes" := JString("mp4")])

  const InStreamVideo: VideoMediaType := VideoMediaType(Some("instream"), Some([Size(300, 200)]))

  /** The test's `validBidRequests`: a banner slot, then an instream video slot. */
  const ValidBidRequests: seq<SlotConfig> :=
    [SlotFixture([Banner], MandatoryParams), SlotFixture([Video(InStreamVideo)], InStreamParams)]

  const NoConsent: BidderRequest := BidderRequest("referer", None, None)

  lemma FixtureSlotsValid()
    ensures AllValid(ValidBidRequests)
  {
    assert IsBidRequestValid(ValidBidRequests[0]);
    assert IsBidRequestValid(ValidBidRequests[1]);
  }

  lemma RequestDescriptor(env: Environment)
    ensures AllValid(ValidBidRequests)
    ensures var r := BuildRequests(ValidBidRequests, NoConsent, env);
      && r.httpMethod == Post
      && r.url == "https://s.seedtag.com/c/hb/bid"
      && r.data.url == "referer"
      && r.data.publisherToken == "0000-0000-01"
      && r.data.bidRequests[0].adUnitCode == "adunit-code"
  {
    FixtureSlotsValid();
  }

  lemma AdPositionSentOnlyWhenSet(env: Environment)
    ensures var withPos := [SlotFixture([Banner], MandatoryParams.(adPosition := Some(1)))];
      var withoutPos := [SlotFixture([Banner], MandatoryParams)];
      && AllValid(withPos) && AllValid(withoutPos)
      && BuildRequests(withPos, NoConsent, env).data.bidRequests[0].adPosition == Some(1)
      && BuildRequests(withoutPos, NoConsent, env).data.bidRequests[0].adPosition.None?
  {
  }

  lemma GdprFields(env: Environment)
    ensures AllValid(ValidBidRequests)
    ensures !BuildRequests(ValidBidRequests, NoConsent, env).data.cmp
    ensures var p := BuildRequests(ValidBidRequests,
                                   NoConsent.(gdprConsent := Some(GdprConsent(None, Some("consentString")))), env).data;
      p.cmp && p.ga.None? && p.cd == Some("consentString")
    ensures var p := BuildRequests(ValidBidRequests,
                                   NoConsent.(gdprConsent := Some(GdprConsent(Some(true), Some("consentString")))), env).data;
      p.cmp && p.ga == Some(true) && p.cd == Some("consentString")
  {
    FixtureSlotsValid();
  }

  lemma VendorId()
    ensures Gvlid == 157
  {
  }

  lemma UspConsentField(env: Environment)
    ensures AllValid(ValidBidRequests)
    ensures BuildRequests(ValidBidRequests, NoConsent.(uspConsent := Some("1---")), env).data.uspConsent == Some("1---")
    ensures BuildRequests(ValidBidRequests, NoConsent, env).data.uspConsent.None?
  {
    FixtureSlotsValid();
  }

  lemma BannerAndVideoEntries(env: Environment)
    ensures AllValid(ValidBidRequests)
    ensures var es := BuildRequests(ValidBidRequests, NoConsent, env).data.bidRequests;
      && |es| == 2
      && es[0].id == "30b31c1838de1e"
      && es[0].transactionId == "d704d006-0d6e-4a09-ad6c-179e7e758096"
      && SupplyTypeName(es[0].supplyTypes[0]) == "display"
      && es[0].adUnitId == "000000"
      && es[0].sizes == [Size(300, 250), Size(300, 600)]
      && es[0].requestCount == 1
      && es[1].id == "30b31c1838de1e"
      && es[1].transactionId == "d704d006-0d6e-4a09-ad6c-179e7e758096"
      && SupplyTypeName(es[1].supplyTypes[0]) == "video"
      && es[1].adUnitId == "000000"
      && es[1].videoParams.Some?
      && es[1].videoParams.value.publisherParams["mimes"] == JString("mp4")
      && es[1].videoParams.value.w == 300
      && es[1].videoParams.value.h == 200
      && es[1].sizes == [Size(300, 250), Size(300, 600)]
      && es[1].requestCount == 1
  {
    FixtureSlotsValid();
  }

  /** The supply-chain object of the test. */
  const SampleSchain: Json := JObject([
    ("validation", JString("strict")),
    ("config", JObject([
      ("ver", JString("1.0")),
      ("complete", JNumber(1.0)),
      ("nodes", JArray([
        JObject([("asi", JString("indirectseller.com")), ("sid", JString("00001")), ("hp", JNumber(1.0))]),
        JObject([("asi", JString("indirectseller-2.com")), ("sid", JString("00002")), ("hp", JNumber(1.0))])]))]))])

  lemma SchainField(env: Environment)
    ensures AllValid(ValidBidRequests)
    ensures var withSchain := [ValidBidRequests[0].(schain := Some(SampleSchain)), ValidBidRequests[1]];
      && AllValid(withSchain)
      && BuildRequests(withSchain, NoConsent, env).data.schain == Some(SampleSchain)
    ensures BuildRequests(ValidBidRequests, NoConsent, env).data.schain.None?
  {
    FixtureSlotsValid();
    var withSchain := [ValidBidRequests[0].(schain := Some(SampleSchain)), ValidBidRequests[1]];
    assert IsBidRequestValid(withSchain[0]) && IsBidRequestValid(withSchain[1]);
  }

  // interpretResponse

  lemma MissingOrEmptyBidsGiveNothing()
    ensures InterpretResponse(ServerResponse(Some(ResponseBody(None, None)))) == []
    ensures InterpretResponse(ServerResponse(Some(ResponseBody(Some([]), None)))) == []
  {
  }

  lemma DisplayBidInterpreted()
    ensures var raw := RawBid("2159a54dc2566f", 0.5, "USD", "content", 728, 90, DisplayMedia, 360,
                              Some("testurl.com/nurl"), Some(["advertiserdomain.com"]));
      var bids := InterpretResponse(ServerResponse(Some(ResponseBody(Some([raw]), None))));
      && |bids| == 1
      && bids[0].requestId == "2159a54dc2566f"
      && bids[0].cpm == 0.5
      && bids[0].width == 728
      && bids[0].height == 90
      && bids[0].currency == "USD"
      && bids[0].netRevenue
      && bids[0].creative == BannerAd("content", Some("testurl.com/nurl"))
      && bids[0].meta.advertiserDomains == ["advertiserdomain.com"]
  {
  }

  lemma VideoBidInterpreted()
    ensures var raw := RawBid("2159a54dc2566f", 0.5, "USD", "content", 728, 90, VideoMedia, 360, None, None);
      var bids := InterpretResponse(ServerResponse(Some(ResponseBody(Some([raw]), None))));
      && |bids| == 1
      && bids[0].requestId == "2159a54dc2566f"
      && bids[0].cpm == 0.5
      && bids[0].width == 728
      && bids[0].height == 90
      && bids[0].currency == "USD"
      && bids[0].netRevenue
      && bids[0].creative == VideoAd("content")
      && bids[0].meta.advertiserDomains == []
  {
  }

  // getUserSyncs

  lemma UserSyncCases()
    ensures GetUserSyncs(SyncOptions(false), [ServerResponse(Some(ResponseBody(None, Some("someUrl"))))]) == []
    ensures GetUserSyncs(SyncOptions(true), [ServerResponse(Some(ResponseBody(None, None)))]) == []
    ensures GetUserSyncs(SyncOptions(true), [ServerResponse(Some(ResponseBody(None, Some(""))))]) == []
    ensures GetUserSyncs(SyncOptions(true), [ServerResponse(Some(ResponseBody(None, Some("someUrl"))))]) ==
              [SyncDirective(Iframe, "someUrl")]
  {
  }

  // getTimeoutUrl, onTimeout, onBidWon

  lemma TimeoutUrlOfTestEvent()
    ensures GetTimeoutUrl([TimeoutEvent([TimeoutParams("0000", "11111")], 3000)]) ==
              "https://s.seedtag.com/se/hb/timeout?publisherToken=0000&adUnitId=11111&timeout=3000"
    ensures OnTimeout([TimeoutEvent([TimeoutParams("0000", "11111")], 3000)]) ==
              Some("https://s.seedtag.com/se/hb/timeout?publisherToken=0000&adUnitId=11111&timeout=3000")
  {
    assert NatToString(3) == "3";
    assert NatToString(30) == "30";
    assert NatToString(300) == "300";
    assert NatToString(3000) == "3000";
    assert TimeoutEndpoint + "?publisherToken=" == "https://s.seedtag.com/se/hb/timeout?publisherToken=";
    assert "https://s.seedtag.com/se/hb/timeout?publisherToken=" + "0000" ==
           "https://s.seedtag.com/se/hb/timeout?publisherToken=0000";
    assert "https://s.seedtag.com/se/hb/timeout?publisherToken=0000" + "&adUnitId=" ==
           "https://s.seedtag.com/se/hb/timeout?publisherToken=0000&adUnitId=";
    assert "https://s.seedtag.com/se/hb/timeout?publisherToken=0000&adUnitId=" + "11111" ==
           "https://s.seedtag.com/se/hb/timeout?publisherToken=0000&adUnitId=11111";
    assert "https://s.seedtag.com/se/hb/timeout?publisherToken=0000&adUnitId=11111" + "&timeout=" ==
           "https://s.seedtag.com/se/hb/timeout?publisherToken=0000&adUnitId=11111&timeout=";
    assert "https://s.seedtag.com/se/hb/timeout?publisherToken=0000&adUnitId=11111&timeout=" + "3000" ==
           "https://s.seedtag.com/se/hb/timeout?publisherToken=0000&adUnitId=11111&timeout=3000";
  }

  lemma BidWonCases()
    ensures OnBidWon(WonBid(None)).None?
    ensures OnBidWon(WonBid(Some("http://seedtag_domain/won"))) == Some("http://seedtag_domain/won")
  {
  }
}
