/** The host's per-slot configuration, as the adapter receives it: the
    fixture `getSlotConfigs` of test/spec/modules/seedtagBidAdapter_spec.js
    gives its shape. */
module Slots {
  import opened Wrappers
  import opened Json

  /** A requested pixel size, written `[width, height]` by the host. */
  datatype Size = Size(width: nat, height: nat)

  /** The part of `mediaTypes.video` that the adapter reads. */
  datatype VideoMediaType = VideoMediaType(context: Option<string>, playerSize: Option<seq<Size>>)

  /** One key of the slot's `mediaTypes` object, in the object's key order. */
  datatype MediaTypeDecl =
    | Banner
    | Video(video: VideoMediaType)
    | OtherMedia(name: string)

  /** The key under which a declaration sits in `mediaTypes`. */
  function MediaKey(d: MediaTypeDecl): string {
    match d
    case Banner => "banner"
    case Video(_) => "video"
    case OtherMedia(name) => name
  }

  /** The declarations of one JavaScript object: no key twice, and the keys
      `banner` and `video` only ever with their own declaration kind. */
  predicate WellFormedMediaTypes(ms: seq<MediaTypeDecl>) {
    && (forall i, j :: 0 <= i < j < |ms| ==> MediaKey(ms[i]) != MediaKey(ms[j]))
    && (forall i :: 0 <= i < |ms| && ms[i].OtherMedia? ==> ms[i].name != "banner" && ms[i].name != "video")
  }

  /** The exchange-specific `params` of a slot. `video` holds the publisher's
      own video parameters (`params.video`), empty when not given. */
  datatype SlotParams = SlotParams(
    publisherId: Option<string>,
    adUnitId: Option<string>,
    placement: Option<string>,
    adPosition: Option<int>,
    video: map<string, Json>)

  datatype SlotConfig = SlotConfig(
    params: SlotParams,
    sizes: seq<Size>,
    bidId: string,
    transactionId: string,
    adUnitCode: string,
    bidRequestsCount: nat,
    mediaTypes: seq<MediaTypeDecl>,
    schain: Option<Json>)

  /** The first `video` declaration of a slot, if it has one. */
  function FindVideo(ms: seq<MediaTypeDecl>): (r: Option<VideoMediaType>)
    ensures r.None? <==> forall i :: 0 <= i < |ms| ==> !ms[i].Video?
    ensures r.Some? ==> Video(r.value) in ms
  {
    if ms == [] then None
    else if ms[0].Video? then Some(ms[0].video)
    else FindVideo(ms[1..])
  }

  /** With distinct keys a slot has at most one video declaration, so the
      first one found is the one it declares. */
  lemma VideoDeclUnique(ms: seq<MediaTypeDecl>, v: VideoMediaType)
    requires WellFormedMediaTypes(ms)
    requires Video(v) in ms
    ensures FindVideo(ms) == Some(v)
  {
    var w := FindVideo(ms).value;
    var i :| 0 <= i < |ms| && ms[i] == Video(v);
    var j :| 0 <= j < |ms| && ms[j] == Video(w);
    assert MediaKey(ms[i]) == MediaKey(ms[j]);
  }
}
