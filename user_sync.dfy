/** `getUserSyncs`: at most one iframe sync directive for a batch of responses. */
module UserSync {
  import opened Wrappers
  import opened ResponseInterpreter

  datatype SyncOptions = SyncOptions(iframeEnabled: bool)

  datatype SyncKind = Iframe

  datatype SyncDirective = SyncDirective(kind: SyncKind, url: string)

  /** The user-sync URL a response carries, when it carries a non-empty one. */
  function SyncUrlOf(response: ServerResponse): (r: Option<string>)
    ensures r.Some? <==> response.body.Some? && response.body.value.cookieSync.Some? &&
                         response.body.value.cookieSync.value != ""
    ensures r.Some? ==> r == response.body.value.cookieSync && r.value != ""
  {
    if response.body.Some? && response.body.value.cookieSync.Some? && response.body.value.cookieSync.value != ""
    then response.body.value.cookieSync
    else None
  }

  /** The sync URL of the last response in the batch that carries one. */
  function LastSyncUrl(responses: seq<ServerResponse>): (r: Option<string>)
    ensures r.None? <==> forall i :: 0 <= i < |responses| ==> SyncUrlOf(responses[i]).None?
    ensures r.Some? ==> exists i :: 0 <= i < |responses| && SyncUrlOf(responses[i]) == r &&
                                    forall j :: i < j < |responses| ==> SyncUrlOf(responses[j]).None?
  {
    if responses == [] then None
    else
      var last := |responses| - 1;
      if SyncUrlOf(responses[last]).Some? then SyncUrlOf(responses[last])
      else
        var r := LastSyncUrl(responses[..last]);
        if r.Some? then
          var k :| 0 <= k < last && SyncUrlOf(responses[..last][k]) == r &&
                   forall j :: k < j < last ==> SyncUrlOf(responses[..last][j]).None?;
          assert SyncUrlOf(responses[k]) == r;
          r
        else
          r
  }

  function GetUserSyncs(options: SyncOptions, responses: seq<ServerResponse>): (r: seq<SyncDirective>)
    ensures |r| <= 1
    ensures r == [] <==> !options.iframeEnabled || forall i :: 0 <= i < |responses| ==> SyncUrlOf(responses[i]).None?
    ensures r != [] ==> r[0].kind == Iframe && r[0].url != "" &&
                        exists i :: 0 <= i < |responses| && SyncUrlOf(responses[i]) == Some(r[0].url) &&
                                    responses[i].body.Some? && responses[i].body.value.cookieSync == Some(r[0].url)
  {
    if !options.iframeEnabled then []
    else
      match LastSyncUrl(responses)
      case None => []
      case Some(url) => [SyncDirective(Iframe, url)]
  }

  /** With several responses carrying sync URLs, the directive uses the last
      one: no later response has a sync URL. */
  lemma SyncUsesLastUrl(options: SyncOptions, responses: seq<ServerResponse>, i: nat)
    requires i < |responses| && SyncUrlOf(responses[i]).Some?
    requires forall j :: i < j < |responses| ==> SyncUrlOf(responses[j]).None?
    requires options.iframeEnabled
    ensures GetUserSyncs(options, responses) == [SyncDirective(Iframe, SyncUrlOf(responses[i]).value)]
  {
    var r := LastSyncUrl(responses);
    var k :| 0 <= k < |responses| && SyncUrlOf(responses[k]) == r &&
             forall j :: k < j < |responses| ==> SyncUrlOf(responses[j]).None?;
  }
}
