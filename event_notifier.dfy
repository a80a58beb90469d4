/** `getTimeoutUrl`, `onTimeout` and `onBidWon`: the tracking calls. A
    tracking call is modelled as the URL it fires, `None` when it fires
    nothing. */
module EventNotifier {
  import opened Wrappers
  import opened Decimal
  import opened ResponseInterpreter

  const TimeoutEndpoint: string := "https://s.seedtag.com/se/hb/timeout"

  /** The parameters of a timed-out slot, as the host reports them. */
  datatype TimeoutParams = TimeoutParams(publisherId: string, adUnitId: string)

  /** One entry of the host's timeout data. */
  datatype TimeoutEvent = TimeoutEvent(params: seq<TimeoutParams>, timeout: nat)

  /** The timeout tracking URL: the first event's first parameters and its
      timeout as a query string; the bare endpoint when there is nothing to
      report. */
  function GetTimeoutUrl(events: seq<TimeoutEvent>): (url: string)
    ensures StartsWith(url, TimeoutEndpoint)
    ensures url == TimeoutEndpoint <==> !(|events| > 0 && |events[0].params| > 0)
  {
    if |events| > 0 && |events[0].params| > 0 then
      var p := events[0].params[0];
      TimeoutEndpoint + "?publisherToken=" + p.publisherId + "&adUnitId=" + p.adUnitId +
      "&timeout=" + NatToString(events[0].timeout)
    else
      TimeoutEndpoint
  }

  /** `onTimeout` always fires the timeout URL. */
  function OnTimeout(events: seq<TimeoutEvent>): (fired: Option<string>)
    ensures fired == Some(GetTimeoutUrl(events))
    ensures StartsWith(fired.value, TimeoutEndpoint)
  {
    Some(GetTimeoutUrl(events))
  }

  /** The host's winning bid, reduced to the field the notifier reads. */
  datatype WonBid = WonBid(nurl: Option<string>)

  /** `onBidWon` fires the bid's `nurl` when the bid has one, and nothing otherwise. */
  function OnBidWon(bid: WonBid): (fired: Option<string>)
    ensures fired.Some? <==> bid.nurl.Some?
    ensures fired.Some? ==> fired.value == bid.nurl.value
  {
    bid.nurl
  }

  /** The winning bid as the host hands back a bid this adapter interpreted. */
  function WonBidOf(bid: NormalizedBid): (won: WonBid)
    ensures won.nurl.Some? ==> bid.creative.BannerAd? && won.nurl == bid.creative.nurl
    ensures bid.creative.BannerAd? ==> won.nurl == bid.creative.nurl
  {
    match bid.creative
    case BannerAd(_, nurl) => WonBid(nurl)
    case VideoAd(_) => WonBid(None)
  }

  /** Winning a display bid fires the `nurl` the exchange sent with it;
      winning a video bid fires nothing. */
  lemma WinFiresExchangeNurl(raw: RawBid)
    ensures OnBidWon(WonBidOf(BuildBid(raw))) == if raw.mediaType == DisplayMedia then raw.nurl else None
  {
  }

  // Reading a timeout URL back.

  datatype TimeoutQuery = TimeoutQuery(publisherId: string, adUnitId: string, timeout: nat)

  predicate NoAmpersand(s: string) {
    forall i :: 0 <= i < |s| ==> s[i] != '&'
  }

  predicate StartsWith(s: string, prefix: string) {
    |prefix| <= |s| && s[..|prefix|] == prefix
  }

  /** `s` split before its first `&`. */
  function SplitAtAmpersand(s: string): (r: (string, string))
    ensures r.0 + r.1 == s
    ensures NoAmpersand(r.0)
    ensures r.1 == [] || r.1[0] == '&'
  {
    if s == [] || s[0] == '&' then ([], s)
    else
      var (head, rest) := SplitAtAmpersand(s[1..]);
      ([s[0]] + head, rest)
  }

  lemma {:induction false} SplitAtAmpersandOfJoin(a: string, b: string)
    requires NoAmpersand(a)
    requires b == [] || b[0] == '&'
    ensures SplitAtAmpersand(a + b) == (a, b)
  {
    if a != [] {
      assert (a + b)[0] == a[0] && a[0] != '&';
      assert (a + b)[1..] == a[1..] + b;
      SplitAtAmpersandOfJoin(a[1..], b);
      assert [a[0]] + a[1..] == a;
    } else {
      assert a + b == b;
    }
  }

  const PublisherKey: string := "?publisherToken="
  const AdUnitKey: string := "&adUnitId="
  const TimeoutKey: string := "&timeout="

  /** The exchange's reading of a timeout URL, when it has the expected shape. */
  function ParseTimeoutUrl(url: string): (r: Option<TimeoutQuery>)
    ensures r.Some? ==> StartsWith(url, TimeoutEndpoint + PublisherKey)
    ensures r.Some? ==> NoAmpersand(r.value.publisherId) && NoAmpersand(r.value.adUnitId)
  {
    var head := TimeoutEndpoint + PublisherKey;
    if !StartsWith(url, head) then None
    else
      var (publisherId, rest) := SplitAtAmpersand(url[|head|..]);
      if !StartsWith(rest, AdUnitKey) then None
      else
        var (adUnitId, rest2) := SplitAtAmpersand(rest[|AdUnitKey|..]);
        if !StartsWith(rest2, TimeoutKey) then None
        else
          var digits := rest2[|TimeoutKey|..];
          if digits != [] && AllDigits(digits) then Some(TimeoutQuery(publisherId, adUnitId, ParseDigits(digits)))
          else None
  }

  /** For identifiers without `&`, the timeout URL carries exactly the first
      event's publisher id, ad-unit id and timeout: reading it back gives
      them, so distinct reports give distinct URLs. */
  lemma TimeoutUrlRoundTrip(events: seq<TimeoutEvent>)
    requires |events| > 0 && |events[0].params| > 0
    requires NoAmpersand(events[0].params[0].publisherId) && NoAmpersand(events[0].params[0].adUnitId)
    ensures ParseTimeoutUrl(GetTimeoutUrl(events)) ==
              Some(TimeoutQuery(events[0].params[0].publisherId, events[0].params[0].adUnitId, events[0].timeout))
  {
    var p := events[0].params[0];
    var head := TimeoutEndpoint + PublisherKey;
    var numeral := NatToString(events[0].timeout);
    var tail2 := TimeoutKey + numeral;
    var tail1 := AdUnitKey + p.adUnitId + tail2;
    var url := GetTimeoutUrl(events);
    assert url == head + (p.publisherId + tail1);
    assert url[|head|..] == p.publisherId + tail1;
    SplitAtAmpersandOfJoin(p.publisherId, tail1);
    assert tail1[|AdUnitKey|..] == p.adUnitId + tail2;
    SplitAtAmpersandOfJoin(p.adUnitId, tail2);
    assert tail2[|TimeoutKey|..] == numeral;
    ParseNatToString(events[0].timeout);
  }

  /** With nothing to report the URL is the bare endpoint, which carries no query. */
  lemma EmptyTimeoutReport(events: seq<TimeoutEvent>)
    requires events == [] || events[0].params == []
    ensures GetTimeoutUrl(events) == TimeoutEndpoint
    ensures ParseTimeoutUrl(GetTimeoutUrl(events)).None?
  {
  }
}
