/** `isBidRequestValid`: whether a slot configuration may be sent to the
    exchange. */
module Validator {
  import opened Wrappers
  import opened Slots

  /** The placement kinds the exchange accepts. */
  const AllowedPlacements: set<string> := {"banner", "video", "inImage", "inScreen", "inArticle"}

  /** A string parameter counts as given when it is present and not empty. */
  predicate Given(o: Option<string>) {
    o.Some? && o.value != ""
  }

  predicate HasMandatoryParams(p: SlotParams) {
    Given(p.publisherId) && Given(p.adUnitId) && p.placement.Some? && p.placement.value in AllowedPlacements
  }

  /** A video declaration is complete with a playback context and at least one
      player size. */
  predicate CompleteVideo(v: VideoMediaType) {
    Given(v.context) && v.playerSize.Some? && |v.playerSize.value| > 0
  }

  predicate IsBidRequestValid(slot: SlotConfig): (valid: bool)
    ensures valid ==> Given(slot.params.publisherId) && Given(slot.params.adUnitId)
    ensures valid ==> slot.params.placement.Some? && slot.params.placement.value in AllowedPlacements
    ensures (HasMandatoryParams(slot.params) &&
             forall i :: 0 <= i < |slot.mediaTypes| ==> !slot.mediaTypes[i].Video?) ==> valid
  {
    && HasMandatoryParams(slot.params)
    && match FindVideo(slot.mediaTypes)
       case None => true
       case Some(v) => CompleteVideo(v)
  }

  /** The rules stated declaratively: the mandatory params, and every video
      declaration complete, wherever it stands among the media types. */
  ghost predicate MeetsRules(slot: SlotConfig) {
    && Given(slot.params.publisherId)
    && Given(slot.params.adUnitId)
    && slot.params.placement.Some?
    && slot.params.placement.value in AllowedPlacements
    && forall d :: d in slot.mediaTypes && d.Video? ==> CompleteVideo(d.video)
  }

  lemma ValidIffMeetsRules(slot: SlotConfig)
    requires WellFormedMediaTypes(slot.mediaTypes)
    ensures IsBidRequestValid(slot) <==> MeetsRules(slot)
  {
    match FindVideo(slot.mediaTypes)
    case None =>
    case Some(v) =>
      forall d | d in slot.mediaTypes && d.Video?
        ensures d.video == v
      {
        VideoDeclUnique(slot.mediaTypes, d.video);
      }
  }

  /** Reordering the keys of `mediaTypes` (banner before or after video) does
      not change the verdict. */
  lemma ValidityIgnoresMediaTypeOrder(slot: SlotConfig, reordered: seq<MediaTypeDecl>)
    requires WellFormedMediaTypes(slot.mediaTypes) && WellFormedMediaTypes(reordered)
    requires multiset(reordered) == multiset(slot.mediaTypes)
    ensures IsBidRequestValid(slot.(mediaTypes := reordered)) == IsBidRequestValid(slot)
  {
    var other := slot.(mediaTypes := reordered);
    ValidIffMeetsRules(slot);
    ValidIffMeetsRules(other);
    forall d ensures d in reordered <==> d in slot.mediaTypes {
      assert d in reordered <==> d in multiset(reordered);
      assert d in slot.mediaTypes <==> d in multiset(slot.mediaTypes);
    }
  }

  /** A slot without any video declaration is judged on its params alone. */
  lemma NoVideoJudgedOnParams(slot: SlotConfig)
    requires forall i :: 0 <= i < |slot.mediaTypes| ==> !slot.mediaTypes[i].Video?
    ensures IsBidRequestValid(slot) <==> HasMandatoryParams(slot.params)
  {
  }

  /** A present video declaration that lacks a context or a player size
      rejects the slot whatever its params are. */
  lemma IncompleteVideoRejects(slot: SlotConfig, v: VideoMediaType)
    requires WellFormedMediaTypes(slot.mediaTypes)
    requires Video(v) in slot.mediaTypes
    requires !Given(v.context) || v.playerSize.None? || v.playerSize == Some([])
    ensures !IsBidRequestValid(slot)
  {
    VideoDeclUnique(slot.mediaTypes, v);
  }
}
