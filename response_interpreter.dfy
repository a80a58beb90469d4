/** `interpretResponse`: the exchange's raw bids translated into the host's
    normalized bids. */
module ResponseInterpreter {
  import opened Wrappers

  /** The exchange's `mediaType` of a bid: `'display'` or `'video'`. */
  datatype RawMediaType = DisplayMedia | VideoMedia

  /** One entry of the response's `bids`. The price is a passthrough value. */
  datatype RawBid = RawBid(
    bidId: string,
    price: real,
    currency: string,
    content: string,
    width: nat,
    height: nat,
    mediaType: RawMediaType,
    ttl: nat,
    nurl: Option<string>,
    adomain: Option<seq<string>>)

  /** A response body: its bid list and its user-sync URL, each possibly missing. */
  datatype ResponseBody = ResponseBody(bids: Option<seq<RawBid>>, cookieSync: Option<string>)

  /** A server response; a body that is absent or not an object is `None`. */
  datatype ServerResponse = ServerResponse(body: Option<ResponseBody>)

  /** The creative of a normalized bid: display markup with its win
      notification URL, or VAST markup. */
  datatype Creative =
    | BannerAd(ad: string, nurl: Option<string>)
    | VideoAd(vastXml: string)

  datatype Meta = Meta(advertiserDomains: seq<string>)

  datatype NormalizedBid = NormalizedBid(
    requestId: string,
    cpm: real,
    currency: string,
    width: nat,
    height: nat,
    ttl: nat,
    netRevenue: bool,
    creative: Creative,
    meta: Meta)

  /** The host's bid for one raw bid: revenue always net, the content as
      display markup or as VAST by media type, advertiser domains never absent. */
  function BuildBid(raw: RawBid): (bid: NormalizedBid)
    ensures bid.netRevenue
    ensures bid.requestId == raw.bidId && bid.cpm == raw.price && bid.currency == raw.currency
    ensures bid.creative.BannerAd? <==> raw.mediaType == DisplayMedia
    ensures bid.creative.BannerAd? ==> bid.creative.ad == raw.content && bid.creative.nurl == raw.nurl
    ensures bid.creative.VideoAd? ==> bid.creative.vastXml == raw.content
    ensures raw.adomain.None? ==> bid.meta.advertiserDomains == []
  {
    NormalizedBid(
      raw.bidId,
      raw.price,
      raw.currency,
      raw.width,
      raw.height,
      raw.ttl,
      true,
      match raw.mediaType
      case DisplayMedia => BannerAd(raw.content, raw.nurl)
      case VideoMedia => VideoAd(raw.content),
      Meta(raw.adomain.GetOr([])))
  }

  /** One normalized bid per raw bid, in the order of the response. */
  function BuildBids(raws: seq<RawBid>): (r: seq<NormalizedBid>)
    ensures |r| == |raws|
    ensures forall i :: 0 <= i < |raws| ==> r[i] == BuildBid(raws[i])
  {
    if raws == [] then [] else [BuildBid(raws[0])] + BuildBids(raws[1..])
  }

  function InterpretResponse(response: ServerResponse): (r: seq<NormalizedBid>)
    ensures response.body.None? || response.body.value.bids.None? ==> r == []
    ensures response.body.Some? && response.body.value.bids.Some? ==>
              |r| == |response.body.value.bids.value|
  {
    match response.body
    case None => []
    case Some(body) =>
      match body.bids
      case None => []
      case Some(bids) => BuildBids(bids)
  }

  /** The bids of a response, empty when the body or its list is missing. */
  function RawBidsOf(response: ServerResponse): seq<RawBid> {
    if response.body.Some? && response.body.value.bids.Some? then response.body.value.bids.value else []
  }

  /** Bid i of the result translates raw bid i: the identifying and price
      fields are copied, revenue is always net, the content goes to `ad`
      (with the raw `nurl`) for a display bid and to `vastXml` for a video
      bid, and the advertiser domains are the raw list or empty when missing. */
  lemma InterpretedBid(response: ServerResponse, i: nat)
    requires i < |RawBidsOf(response)|
    ensures var raw := RawBidsOf(response)[i];
      var bids := InterpretResponse(response);
      && |bids| == |RawBidsOf(response)|
      && bids[i].requestId == raw.bidId
      && bids[i].cpm == raw.price
      && bids[i].currency == raw.currency
      && bids[i].width == raw.width
      && bids[i].height == raw.height
      && bids[i].ttl == raw.ttl
      && bids[i].netRevenue
      && (raw.mediaType == DisplayMedia ==> bids[i].creative == BannerAd(raw.content, raw.nurl))
      && (raw.mediaType == VideoMedia ==> bids[i].creative == VideoAd(raw.content))
      && (raw.adomain.Some? ==> bids[i].meta.advertiserDomains == raw.adomain.value)
      && (raw.adomain.None? ==> bids[i].meta.advertiserDomains == [])
  {
  }

  /** The result is empty exactly when the response has no bids. */
  lemma EmptyExactlyWithoutBids(response: ServerResponse)
    ensures InterpretResponse(response) == [] <==> RawBidsOf(response) == []
  {
  }
}
