/** The decision-API manager: fetches a visitor's campaigns, tracks the
    service's panic flag and reports the SDK status it implies. */
module DecisionApi {
  import opened Common
  import opened Modifications

  /** The body of a decision-API response. */
  datatype DecisionBody = DecisionBody(panic: bool, campaigns: Option<seq<Campaign>>)

  /** The outcome of the HTTP call: a body, or a transport exception with its
      message. */
  datatype CampaignsResponse = Received(body: DecisionBody) | Failed(message: string)

  /** The status a panic flag implies. */
  function StatusFor(isPanicMode: bool): (s: SdkStatus)
    ensures s == ReadyPanicOn <==> isPanicMode
    ensures s != NotInitialized
  {
    if isPanicMode then ReadyPanicOn else Ready
  }

  /** The modifications `getCampaignModifications` returns for a response:
      nothing on failure or panic, otherwise the flattened campaigns. */
  function ModificationsFor(response: CampaignsResponse): (r: seq<Modification>)
    ensures response.Failed? || response.body.panic ==> r == []
    ensures response.Received? && !response.body.panic ==>
      r == Flatten(response.body.campaigns.GetOr([]))
  {
    match response
    case Failed(_) => []
    case Received(body) => if body.panic then [] else Flatten(body.campaigns.GetOr([]))
  }

  class ApiManager {
    var isPanicMode: bool
    /** Every status passed to the status-changed callback, in order. */
    var statusReports: seq<SdkStatus>
    var errorLogs: seq<string>

    constructor()
      ensures !isPanicMode && statusReports == [] && errorLogs == []
    {
      isPanicMode := false;
      statusReports := [];
      errorLogs := [];
    }

    /** Sets the flag and reports the status it implies. */
    method SetIsPanicMode(panic: bool)
      modifies this
      ensures isPanicMode == panic
      ensures statusReports == old(statusReports) + [StatusFor(panic)]
      ensures errorLogs == old(errorLogs)
    {
      isPanicMode := panic;
      statusReports := statusReports + [StatusFor(panic)];
    }

    /** `getCampaigns`: the campaigns of a received body (the panic flag
        updated from it), or null with one error log on a transport failure. */
    method GetCampaigns(response: CampaignsResponse) returns (r: Option<seq<Campaign>>)
      modifies this
      ensures response.Failed? ==>
        r.None? && errorLogs == old(errorLogs) + [response.message] &&
        isPanicMode == old(isPanicMode) && statusReports == old(statusReports)
      ensures response.Received? ==>
        r == response.body.campaigns && errorLogs == old(errorLogs) &&
        isPanicMode == response.body.panic &&
        statusReports == old(statusReports) + [StatusFor(response.body.panic)]
    {
      match response
      case Failed(message) =>
        errorLogs := errorLogs + [message];
        r := None;
      case Received(body) =>
        SetIsPanicMode(body.panic);
        r := body.campaigns;
    }

    /** `getCampaignModifications`: empty in panic mode or on failure,
        otherwise one modification per key across the campaigns. */
    method GetCampaignModifications(response: CampaignsResponse) returns (mods: seq<Modification>)
      modifies this
      ensures mods == ModificationsFor(response)
      ensures UniqueKeys(mods)
      ensures response.Received? ==>
        isPanicMode == response.body.panic &&
        statusReports == old(statusReports) + [StatusFor(response.body.panic)]
      ensures response.Failed? ==>
        isPanicMode == old(isPanicMode) && statusReports == old(statusReports) &&
        |errorLogs| == |old(errorLogs)| + 1
    {
      var campaigns := GetCampaigns(response);
      if isPanicMode || campaigns.None? {
        mods := [];
      } else {
        mods := Flatten(campaigns.value);
        FlattenKeys(campaigns.value);
      }
    }
  }
}
