/** The tracking manager: the request bodies of the activation and consent
    calls (which visitor identifiers go where) and the send operations,
    whose transport outcome is an input. */
module Tracking {
  import opened Common
  import opened OrderedMap
  import opened Hits

  type Body = OMap<string, Value>

  /** PHP `$a ?: $b` on nullable strings. */
  function Elvis(a: Option<string>, b: Option<string>): (r: Option<string>)
    ensures Truthy(a) ==> r == a
    ensures !Truthy(a) ==> r == b
  {
    if Truthy(a) then a else b
  }

  /** `buildActivateBody`: with both ids truthy, `vid` is the visitor id and
      `aid` the anonymous id; otherwise `vid` is the visitor id, falling
      back to the anonymous id, and `aid` is null. Every other entry is left
      as it was. */
  function BuildActivateBody(postData: Body, visitorId: Option<string>, anonymousId: Option<string>): (r: Body)
    ensures Truthy(visitorId) && Truthy(anonymousId) ==>
      Get(r, "vid") == Some(VStr(visitorId.value)) && Get(r, "aid") == Some(VStr(anonymousId.value))
    ensures !(Truthy(visitorId) && Truthy(anonymousId)) ==>
      Get(r, "vid") == Some(NullableStr(Elvis(visitorId, anonymousId))) && Get(r, "aid") == Some(VNull)
    ensures forall k :: k != "vid" && k != "aid" ==> Get(r, k) == Get(postData, k)
    ensures Keys(postData) <= Keys(r)
  {
    var vid := if Truthy(visitorId) && Truthy(anonymousId) then VStr(visitorId.value)
               else NullableStr(Elvis(visitorId, anonymousId));
    var aid := if Truthy(visitorId) && Truthy(anonymousId) then VStr(anonymousId.value) else VNull;
    PutTwice(postData, "vid", vid, "aid", aid);
    Put(Put(postData, "vid", vid), "aid", aid)
  }

  /** The body `sendActive` posts: visitor id, variation id, variation group
      id and environment id, then the identifiers rule. */
  function ActivateBody(visitorId: Option<string>, anonymousId: Option<string>, variationId: string,
                        variationGroupId: string, envId: Option<string>): Body
  {
    var postData := [("vid", NullableStr(visitorId)), ("vaid", VStr(variationId)),
                     ("caid", VStr(variationGroupId)), ("cid", NullableStr(envId))];
    BuildActivateBody(postData, visitorId, anonymousId)
  }

  /** The activation body names the variation and group, and holds exactly
      the keys vid, vaid, caid, cid and aid, in that order. */
  lemma {:induction false} ActivateBodyShape(visitorId: Option<string>, anonymousId: Option<string>,
                                             variationId: string, variationGroupId: string, envId: Option<string>)
    ensures var r := ActivateBody(visitorId, anonymousId, variationId, variationGroupId, envId);
      Keys(r) == ["vid", "vaid", "caid", "cid", "aid"] &&
      Get(r, "vaid") == Some(VStr(variationId)) &&
      Get(r, "caid") == Some(VStr(variationGroupId)) &&
      Get(r, "cid") == Some(NullableStr(envId))
  {
    var postData := [("vid", NullableStr(visitorId)), ("vaid", VStr(variationId)),
                     ("caid", VStr(variationGroupId)), ("cid", NullableStr(envId))];
    var r := ActivateBody(visitorId, anonymousId, variationId, variationGroupId, envId);
    assert Keys(postData) == ["vid", "vaid", "caid", "cid"];
    assert |Keys(r)| == 5 by {
      assert "aid" !in Keys(postData);
    }
    assert Keys(r)[4] == "aid" by {
      var vid := if Truthy(visitorId) && Truthy(anonymousId) then VStr(visitorId.value)
                 else NullableStr(Elvis(visitorId, anonymousId));
      var withVid := Put(postData, "vid", vid);
      assert Keys(withVid) == Keys(postData);
      assert "aid" !in Keys(withVid);
    }
    GetAt(postData, "vaid", 1);
    GetAt(postData, "caid", 2);
    GetAt(postData, "cid", 3);
  }

  /** The entries the consent body starts with. */
  function ConsentFixedEntries(hasConsented: bool, envId: Option<string>): Body {
    [("t", VStr(EVENT)), ("el", VStr(ConsentLabel(hasConsented))), ("ea", VStr("fs_content")),
     ("ec", VStr(USER_ENGAGEMENT)), ("cid", NullableStr(envId)), ("ds", VStr(SDK_APP))]
  }

  /** The body `sendConsentHit` posts: an event of category "User
      Engagement" with action "fs_content" and the consent label. With both
      ids truthy, `vid` is the anonymous id and `cuid` the visitor id;
      otherwise `vid` is the visitor id, falling back to the anonymous id,
      and `cuid` is null. */
  function ConsentBody(visitorId: Option<string>, anonymousId: Option<string>, hasConsented: bool,
                       envId: Option<string>): Body
  {
    var postBody := ConsentFixedEntries(hasConsented, envId);
    if Truthy(visitorId) && Truthy(anonymousId) then
      Put(Put(postBody, "vid", VStr(anonymousId.value)), "cuid", VStr(visitorId.value))
    else
      Put(Put(postBody, "vid", NullableStr(Elvis(visitorId, anonymousId))), "cuid", VNull)
  }

  /** The consent body's keys, in order. */
  lemma {:induction false} ConsentBodyKeys(visitorId: Option<string>, anonymousId: Option<string>,
                                           hasConsented: bool, envId: Option<string>)
    ensures Keys(ConsentBody(visitorId, anonymousId, hasConsented, envId)) ==
      ["t", "el", "ea", "ec", "cid", "ds", "vid", "cuid"]
  {
    var postBody := ConsentFixedEntries(hasConsented, envId);
    assert Keys(postBody) == ["t", "el", "ea", "ec", "cid", "ds"];
    var vid := if Truthy(visitorId) && Truthy(anonymousId) then VStr(anonymousId.value)
               else NullableStr(Elvis(visitorId, anonymousId));
    var withVid := Put(postBody, "vid", vid);
    assert Keys(withVid) == Keys(postBody) + ["vid"];
  }

  /** The consent body's fixed entries: an event of category "User
      Engagement", action "fs_content", the consent label, the environment
      id and the data source. */
  lemma {:induction false} ConsentBodyEntries(visitorId: Option<string>, anonymousId: Option<string>,
                                              hasConsented: bool, envId: Option<string>)
    ensures var r := ConsentBody(visitorId, anonymousId, hasConsented, envId);
      Get(r, "t") == Some(VStr(EVENT)) &&
      Get(r, "el") == Some(VStr(ConsentLabel(hasConsented))) &&
      Get(r, "ea") == Some(VStr("fs_content")) &&
      Get(r, "ec") == Some(VStr(USER_ENGAGEMENT)) &&
      Get(r, "cid") == Some(NullableStr(envId)) &&
      Get(r, "ds") == Some(VStr(SDK_APP))
  {
    var postBody := ConsentFixedEntries(hasConsented, envId);
    var vid := if Truthy(visitorId) && Truthy(anonymousId) then VStr(anonymousId.value)
               else NullableStr(Elvis(visitorId, anonymousId));
    var cuid := if Truthy(visitorId) && Truthy(anonymousId) then VStr(visitorId.value) else VNull;
    PutTwice(postBody, "vid", vid, "cuid", cuid);
    FixedEntriesLookups(hasConsented, envId);
  }

  lemma FixedEntriesLookups(hasConsented: bool, envId: Option<string>)
    ensures var r := ConsentFixedEntries(hasConsented, envId);
      Get(r, "t") == Some(VStr(EVENT)) &&
      Get(r, "el") == Some(VStr(ConsentLabel(hasConsented))) &&
      Get(r, "ea") == Some(VStr("fs_content")) &&
      Get(r, "ec") == Some(VStr(USER_ENGAGEMENT)) &&
      Get(r, "cid") == Some(NullableStr(envId)) &&
      Get(r, "ds") == Some(VStr(SDK_APP))
  {
    var r := ConsentFixedEntries(hasConsented, envId);
    GetAt(r, "t", 0);
    GetAt(r, "el", 1);
    GetAt(r, "ea", 2);
    GetAt(r, "ec", 3);
    GetAt(r, "cid", 4);
    GetAt(r, "ds", 5);
  }

  /** The consent body names the visitors the other way round from the
      activation body: with both ids truthy its `vid` is the activation's
      `aid` and its `cuid` the activation's `vid`; otherwise both bodies
      carry the same `vid`. */
  lemma {:induction false} ConsentReversesActivate(visitorId: Option<string>, anonymousId: Option<string>,
                                                   hasConsented: bool, variationId: string,
                                                   variationGroupId: string, envId: Option<string>)
    ensures var c := ConsentBody(visitorId, anonymousId, hasConsented, envId);
      var a := ActivateBody(visitorId, anonymousId, variationId, variationGroupId, envId);
      (Truthy(visitorId) && Truthy(anonymousId) ==>
        Get(c, "vid") == Get(a, "aid") && Get(c, "cuid") == Get(a, "vid")) &&
      (!(Truthy(visitorId) && Truthy(anonymousId)) ==>
        Get(c, "vid") == Get(a, "vid") && Get(c, "cuid") == Some(VNull) && Get(a, "aid") == Some(VNull))
  {
    var postBody := ConsentFixedEntries(hasConsented, envId);
    var vid := if Truthy(visitorId) && Truthy(anonymousId) then VStr(anonymousId.value)
               else NullableStr(Elvis(visitorId, anonymousId));
    var cuid := if Truthy(visitorId) && Truthy(anonymousId) then VStr(visitorId.value) else VNull;
    PutTwice(postBody, "vid", vid, "cuid", cuid);
  }

  /** One transport outcome: success, or an exception with its message. */
  datatype Outcome = Sent | Thrown(message: string)

  /** The tracking manager. Each send records the body it posts; a send
      whose transport throws records nothing and logs the message once. */
  class TrackingManager {
    var activateBodies: seq<Body>
    var hitBodies: seq<Body>
    var consentBodies: seq<Body>
    var errorLogs: seq<string>

    constructor()
      ensures activateBodies == [] && hitBodies == [] && consentBodies == [] && errorLogs == []
    {
      activateBodies := [];
      hitBodies := [];
      consentBodies := [];
      errorLogs := [];
    }

    /** `sendActive`: true once the activation is sent; false, with one
        error log, when the transport throws. */
    method SendActive(visitorId: Option<string>, anonymousId: Option<string>, m: (string, string),
                      envId: Option<string>, outcome: Outcome) returns (ok: bool)
      modifies this
      ensures ok <==> outcome.Sent?
      ensures ok ==>
        activateBodies == old(activateBodies) + [ActivateBody(visitorId, anonymousId, m.0, m.1, envId)] &&
        errorLogs == old(errorLogs)
      ensures !ok ==> activateBodies == old(activateBodies) && errorLogs == old(errorLogs) + [outcome.message]
      ensures hitBodies == old(hitBodies) && consentBodies == old(consentBodies)
    {
      match outcome
      case Sent =>
        activateBodies := activateBodies + [ActivateBody(visitorId, anonymousId, m.0, m.1, envId)];
        ok := true;
      case Thrown(message) =>
        errorLogs := errorLogs + [message];
        ok := false;
    }

    /** `sendHit`: posts the hit's body; a throwing transport is logged and
        never propagated. */
    method SendHit(hit: Hit, outcome: Outcome)
      modifies this
      ensures outcome.Sent? ==> hitBodies == old(hitBodies) + [ToArray(hit)] && errorLogs == old(errorLogs)
      ensures outcome.Thrown? ==> hitBodies == old(hitBodies) && errorLogs == old(errorLogs) + [outcome.message]
      ensures activateBodies == old(activateBodies) && consentBodies == old(consentBodies)
    {
      match outcome
      case Sent => hitBodies := hitBodies + [ToArray(hit)];
      case Thrown(message) => errorLogs := errorLogs + [message];
    }

    /** `sendConsentHit`: posts the consent body; a throwing transport is
        logged and never propagated. */
    method SendConsentHit(visitorId: Option<string>, anonymousId: Option<string>, hasConsented: bool,
                          envId: Option<string>, outcome: Outcome)
      modifies this
      ensures outcome.Sent? ==>
        consentBodies == old(consentBodies) + [ConsentBody(visitorId, anonymousId, hasConsented, envId)] &&
        errorLogs == old(errorLogs)
      ensures outcome.Thrown? ==> consentBodies == old(consentBodies) && errorLogs == old(errorLogs) + [outcome.message]
      ensures activateBodies == old(activateBodies) && hitBodies == old(hitBodies)
    {
      match outcome
      case Sent => consentBodies := consentBodies + [ConsentBody(visitorId, anonymousId, hasConsented, envId)];
      case Thrown(message) => errorLogs := errorLogs + [message];
    }
  }
}
