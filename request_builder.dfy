/** `buildRequests`: the one POST descriptor for a batch of valid slots and
    the auction context. The payload is kept as a structured record; an
    `Option` field that is `None` is a key the serialized body omits. */
module RequestBuilder {
  import opened Wrappers
  import opened Json
  import opened Slots
  import opened Validator

  const BidEndpoint: string := "https://s.seedtag.com/c/hb/bid"

  /** The vendor identifier the host's consent subsystem resolves consent for. */
  const Gvlid: nat := 157

  datatype HttpMethod = Post

  /** A slot's creative format as the exchange names it. */
  datatype SupplyType = Display | VideoSupply

  function SupplyTypeName(t: SupplyType): string {
    match t
    case Display => "display"
    case VideoSupply => "video"
  }

  datatype ConnectionType = Fixed | Mobile | Unknown

  /** What the adapter reads from its environment during the call: the
      adapter version, the connection classifier, the clock reading taken as
      the auction start and the time-to-first-byte measurement. */
  datatype Environment = Environment(
    version: string,
    connectionType: ConnectionType,
    auctionStart: nat,
    ttfb: nat)

  datatype GdprConsent = GdprConsent(gdprApplies: Option<bool>, consentString: Option<string>)

  /** The host's `bidderRequest`, reduced to what the payload carries. */
  datatype BidderRequest = BidderRequest(
    page: string,
    gdprConsent: Option<GdprConsent>,
    uspConsent: Option<string>)

  /** `videoParams` of a video entry: the slot's video declaration, the
      width and height of its first player size, and the publisher's own
      video parameters. */
  datatype VideoParams = VideoParams(
    context: string,
    playerSize: seq<Size>,
    w: nat,
    h: nat,
    publisherParams: map<string, Json>)

  datatype BidRequestEntry = BidRequestEntry(
    id: string,
    transactionId: string,
    supplyTypes: seq<SupplyType>,
    adUnitId: string,
    adUnitCode: string,
    sizes: seq<Size>,
    requestCount: nat,
    adPosition: Option<int>,
    videoParams: Option<VideoParams>)

  datatype Payload = Payload(
    url: string,
    publisherToken: string,
    version: string,
    connectionType: ConnectionType,
    auctionStart: nat,
    ttfb: nat,
    cmp: bool,
    ga: Option<bool>,
    cd: Option<string>,
    uspConsent: Option<string>,
    schain: Option<Json>,
    bidRequests: seq<BidRequestEntry>)

  datatype ServerRequest = ServerRequest(httpMethod: HttpMethod, url: string, data: Payload)

  function SupplyTypeOf(d: MediaTypeDecl): SupplyType {
    if d.Video? then VideoSupply else Display
  }

  predicate NoDuplicates(ts: seq<SupplyType>) {
    forall i, j :: 0 <= i < j < |ts| ==> ts[i] != ts[j]
  }

  /** `ts` with every occurrence of `t` dropped. */
  function Without(ts: seq<SupplyType>, t: SupplyType): (r: seq<SupplyType>)
    ensures forall u :: u in r <==> u in ts && u != t
    ensures NoDuplicates(ts) ==> NoDuplicates(r)
  {
    if ts == [] then []
    else
      assert NoDuplicates(ts) ==> ts[0] !in ts[1..];
      (if ts[0] == t then [] else [ts[0]]) + Without(ts[1..], t)
  }

  /** The supply types of a slot: one per declared media type in key order
      (video as video, every other kind as display), each kept only at its
      first occurrence. */
  function SupplyTypes(ms: seq<MediaTypeDecl>): (r: seq<SupplyType>)
    ensures forall t :: t in r <==> exists i :: 0 <= i < |ms| && SupplyTypeOf(ms[i]) == t
    ensures NoDuplicates(r)
    ensures ms != [] ==> r != [] && r[0] == SupplyTypeOf(ms[0])
  {
    if ms == [] then []
    else
      var t := SupplyTypeOf(ms[0]);
      assert forall i :: 1 <= i < |ms| ==> ms[i] == ms[1..][i - 1];
      var rest := Without(SupplyTypes(ms[1..]), t);
      assert t !in rest;
      assert forall i :: 1 <= i < |[t] + rest| ==> ([t] + rest)[i] == rest[i - 1];
      [t] + rest
  }

  function VideoParamsOf(v: VideoMediaType, publisherParams: map<string, Json>): VideoParams
    requires CompleteVideo(v)
  {
    var first := v.playerSize.value[0];
    VideoParams(v.context.value, v.playerSize.value, first.width, first.height, publisherParams)
  }

  /** The payload entry of one valid slot. */
  function BuildBidRequest(slot: SlotConfig): (e: BidRequestEntry)
    requires IsBidRequestValid(slot)
    ensures Some(e.adUnitId) == slot.params.adUnitId && e.adUnitId != ""
    ensures e.id == slot.bidId && e.sizes == slot.sizes && e.requestCount == slot.bidRequestsCount
    ensures e.videoParams.Some? <==> exists i :: 0 <= i < |slot.mediaTypes| && slot.mediaTypes[i].Video?
    ensures e.supplyTypes == [] <==> slot.mediaTypes == []
  {
    BidRequestEntry(
      slot.bidId,
      slot.transactionId,
      SupplyTypes(slot.mediaTypes),
      slot.params.adUnitId.value,
      slot.adUnitCode,
      slot.sizes,
      slot.bidRequestsCount,
      slot.params.adPosition,
      match FindVideo(slot.mediaTypes)
      case None => None
      case Some(v) => Some(VideoParamsOf(v, slot.params.video)))
  }

  predicate AllValid(slots: seq<SlotConfig>) {
    forall i :: 0 <= i < |slots| ==> IsBidRequestValid(slots[i])
  }

  /** One entry per slot, entry i built from slot i. */
  function BuildBidRequests(slots: seq<SlotConfig>): (r: seq<BidRequestEntry>)
    requires AllValid(slots)
    ensures |r| == |slots|
    ensures forall i :: 0 <= i < |slots| ==> r[i] == BuildBidRequest(slots[i])
  {
    if slots == [] then []
    else [BuildBidRequest(slots[0])] + BuildBidRequests(slots[1..])
  }

  /** The supply-chain declaration of the first slot that carries one. */
  function FirstSchain(slots: seq<SlotConfig>): (r: Option<Json>)
    ensures r.None? <==> forall i :: 0 <= i < |slots| ==> slots[i].schain.None?
    ensures r.Some? ==> exists i :: 0 <= i < |slots| && slots[i].schain == r &&
                                    forall j :: 0 <= j < i ==> slots[j].schain.None?
  {
    if slots == [] then None
    else if slots[0].schain.Some? then slots[0].schain
    else
      var r := FirstSchain(slots[1..]);
      if r.Some? then
        var k :| 0 <= k < |slots[1..]| && slots[1..][k].schain == r &&
                 forall j :: 0 <= j < k ==> slots[1..][j].schain.None?;
        assert slots[k + 1].schain == r;
        r
      else
        r
  }

  /** The consent fields: `cmp`, then `ga` and `cd` only when consent data
      was supplied. */
  function ConsentFields(gdpr: Option<GdprConsent>): (r: (bool, Option<bool>, Option<string>))
    ensures r.0 <==> gdpr.Some?
    ensures !r.0 ==> r.1.None? && r.2.None?
    ensures gdpr.Some? ==> r.1 == gdpr.value.gdprApplies && r.2 == gdpr.value.consentString
  {
    match gdpr
    case None => (false, None, None)
    case Some(c) => (true, c.gdprApplies, c.consentString)
  }

  function BuildRequests(slots: seq<SlotConfig>, bidderRequest: BidderRequest, env: Environment): (r: ServerRequest)
    requires |slots| > 0 && AllValid(slots)
    ensures r.httpMethod == Post && r.url == BidEndpoint
    ensures |r.data.bidRequests| == |slots|
  {
    var (cmp, ga, cd) := ConsentFields(bidderRequest.gdprConsent);
    var payload := Payload(
      bidderRequest.page,
      slots[0].params.publisherId.value,
      env.version,
      env.connectionType,
      env.auctionStart,
      env.ttfb,
      cmp,
      ga,
      cd,
      bidderRequest.uspConsent,
      FirstSchain(slots),
      BuildBidRequests(slots));
    ServerRequest(Post, BidEndpoint, payload)
  }

  /** The top-level fields that come from the context: the page, the
      publisher of the batch and the environment readings. */
  lemma CommonFields(slots: seq<SlotConfig>, bidderRequest: BidderRequest, env: Environment)
    requires |slots| > 0 && AllValid(slots)
    ensures var p := BuildRequests(slots, bidderRequest, env).data;
      && p.url == bidderRequest.page
      && Some(p.publisherToken) == slots[0].params.publisherId
      && p.version == env.version
      && p.connectionType == env.connectionType
      && p.auctionStart == env.auctionStart
      && p.ttfb == env.ttfb
  {
  }

  /** Entry i of the payload describes slot i: order is kept and each
      identifying field is copied from that slot (the sizes are the slot's
      own sizes, for a video slot too). */
  lemma EntryDescribesSlot(slots: seq<SlotConfig>, bidderRequest: BidderRequest, env: Environment, i: nat)
    requires |slots| > 0 && AllValid(slots)
    requires i < |slots|
    ensures var e := BuildRequests(slots, bidderRequest, env).data.bidRequests[i];
      && e.id == slots[i].bidId
      && e.transactionId == slots[i].transactionId
      && Some(e.adUnitId) == slots[i].params.adUnitId
      && e.adUnitCode == slots[i].adUnitCode
      && e.sizes == slots[i].sizes
      && e.requestCount == slots[i].bidRequestsCount
      && e.adPosition == slots[i].params.adPosition
  {
  }

  /** The supply types of an entry: no repeats, video
      exactly when the slot declares video, display exactly when it declares
      anything else, and the first one from the slot's first media type. */
  lemma {:induction false} EntrySupplyTypes(slot: SlotConfig)
    requires IsBidRequestValid(slot)
    ensures var ts := BuildBidRequest(slot).supplyTypes;
      && NoDuplicates(ts)
      && (ts == [] <==> slot.mediaTypes == [])
      && (VideoSupply in ts <==> FindVideo(slot.mediaTypes).Some?)
      && (Display in ts <==> exists i :: 0 <= i < |slot.mediaTypes| && !slot.mediaTypes[i].Video?)
      && (slot.mediaTypes != [] ==>
            SupplyTypeName(ts[0]) == if slot.mediaTypes[0].Video? then "video" else "display")
  {
    var ms := slot.mediaTypes;
    var ts := SupplyTypes(ms);
    if VideoSupply in ts {
      var i :| 0 <= i < |ms| && SupplyTypeOf(ms[i]) == VideoSupply;
      assert ms[i].Video?;
    }
    if FindVideo(ms).Some? {
      var i :| 0 <= i < |ms| && ms[i] == Video(FindVideo(ms).value);
      assert SupplyTypeOf(ms[i]) == VideoSupply;
    }
    if Display in ts {
      var i :| 0 <= i < |ms| && SupplyTypeOf(ms[i]) == Display;
      assert !ms[i].Video?;
    }
  }

  /** A video entry's `videoParams` hold the slot's video declaration, the
      width and height of its first player size, and the publisher's video
      parameters; a slot without video gets none. */
  lemma EntryVideoParams(slot: SlotConfig)
    requires IsBidRequestValid(slot)
    requires WellFormedMediaTypes(slot.mediaTypes)
    ensures var vp := BuildBidRequest(slot).videoParams;
      && (vp.Some? <==> exists i :: 0 <= i < |slot.mediaTypes| && slot.mediaTypes[i].Video?)
      && forall v :: Video(v) in slot.mediaTypes ==>
           && vp.Some?
           && v.playerSize.Some? && |v.playerSize.value| > 0
           && vp.value.w == v.playerSize.value[0].width
           && vp.value.h == v.playerSize.value[0].height
           && vp.value.playerSize == v.playerSize.value
           && v.context == Some(vp.value.context)
           && vp.value.publisherParams == slot.params.video
  {
    forall v | Video(v) in slot.mediaTypes
      ensures FindVideo(slot.mediaTypes) == Some(v)
    {
      VideoDeclUnique(slot.mediaTypes, v);
    }
  }

  /** `cmp` tells whether consent data was supplied; without it neither `ga`
      nor `cd` is sent; with it `cd` is the consent string and `ga` is sent
      exactly when the applicability flag is defined. */
  lemma ConsentFieldRules(slots: seq<SlotConfig>, bidderRequest: BidderRequest, env: Environment)
    requires |slots| > 0 && AllValid(slots)
    ensures var p := BuildRequests(slots, bidderRequest, env).data;
      && (p.cmp <==> bidderRequest.gdprConsent.Some?)
      && (bidderRequest.gdprConsent.None? ==> p.ga.None? && p.cd.None?)
      && (bidderRequest.gdprConsent.Some? ==>
            && p.ga == bidderRequest.gdprConsent.value.gdprApplies
            && p.cd == bidderRequest.gdprConsent.value.consentString)
  {
  }

  /** `uspConsent` is sent exactly when the context has one, unchanged. */
  lemma UspConsentPassedThrough(slots: seq<SlotConfig>, bidderRequest: BidderRequest, env: Environment)
    requires |slots| > 0 && AllValid(slots)
    ensures BuildRequests(slots, bidderRequest, env).data.uspConsent == bidderRequest.uspConsent
  {
  }

  /** `schain` is sent exactly when some slot carries one, and is then the
      declaration of the first slot that does, copied as it is. */
  lemma SchainRule(slots: seq<SlotConfig>, bidderRequest: BidderRequest, env: Environment)
    requires |slots| > 0 && AllValid(slots)
    ensures var sc := BuildRequests(slots, bidderRequest, env).data.schain;
      && (sc.Some? <==> exists i :: 0 <= i < |slots| && slots[i].schain.Some?)
      && forall i :: (0 <= i < |slots| && slots[i].schain.Some? &&
                      forall j :: 0 <= j < i ==> slots[j].schain.None?) ==> sc == slots[i].schain
  {
    var sc := FirstSchain(slots);
    if sc.Some? {
      var k :| 0 <= k < |slots| && slots[k].schain == sc && forall j :: 0 <= j < k ==> slots[j].schain.None?;
      forall i | 0 <= i < |slots| && slots[i].schain.Some? && (forall j :: 0 <= j < i ==> slots[j].schain.None?)
        ensures sc == slots[i].schain
      {
      }
    }
  }
}
