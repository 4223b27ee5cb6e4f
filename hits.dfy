/** Hits: the tracking messages (events, screen views, page views,
    activations) a visitor sends, their request body and their readiness
    check, and the Event and Screen hit objects with validated setters. */
module Hits {
  import opened Common
  import opened PhpStrings
  import opened OrderedMap

  /** Hit types, as the `t` entry of a body. */
  const EVENT: string := "EVENT"
  const SCREEN_VIEW: string := "SCREENVIEW"
  const PAGE_VIEW: string := "PAGEVIEW"
  const ACTIVATE: string := "ACTIVATE"

  /** What distinguishes one kind of hit from another. */
  datatype Payload =
    | EventHit(category: Option<string>, action: Option<string>, eventLabel: Option<string>, eventValue: Option<Value>)
    | ScreenHit(screenName: Option<string>)
    | PageHit(pageUrl: Option<string>)
    | ActivateHit(variationGroupId: string, variationId: string)

  /** A hit: the common fields every hit carries (the visitor, the data
      source, the environment and credentials stamped by the visitor, the
      cache key and creation time) and its payload. */
  datatype Hit = Hit(
    visitorId: Option<string>,
    anonymousId: Option<string>,
    ds: Option<string>,
    envId: Option<string>,
    apiKey: Option<string>,
    timeout: Option<int>,
    key: Option<string>,
    createdAt: int,
    payload: Payload)

  /** A hit with only its payload set. */
  function NewHit(payload: Payload): Hit {
    Hit(None, None, None, None, None, None, None, 0, payload)
  }

  function TypeName(p: Payload): string {
    match p
    case EventHit(_, _, _, _) => EVENT
    case ScreenHit(_) => SCREEN_VIEW
    case PageHit(_) => PAGE_VIEW
    case ActivateHit(_, _) => ACTIVATE
  }

  /** The fields every hit needs before it can be sent: visitor id, data
      source and environment id, each truthy. */
  predicate BaseReady(h: Hit) {
    Truthy(h.visitorId) && Truthy(h.ds) && Truthy(h.envId)
  }

  /** The fields a kind of hit needs: an event a category and a non-empty
      action, a screen view its name, a page view its URL, an activation
      both of its ids. */
  predicate PayloadReady(p: Payload) {
    match p
    case EventHit(category, action, _, _) => category.Some? && Truthy(action)
    case ScreenHit(name) => Truthy(name)
    case PageHit(url) => Truthy(url)
    case ActivateHit(groupId, variationId) => Truthy(Some(groupId)) && Truthy(Some(variationId))
  }

  /** `isReady`. */
  predicate IsReady(h: Hit) {
    BaseReady(h) && PayloadReady(h.payload)
  }

  /** The entries a payload adds to the body. */
  function PayloadEntries(p: Payload): OMap<string, Value> {
    match p
    case EventHit(category, action, eventLabel, eventValue) =>
      [("ec", NullableStr(category)), ("ea", NullableStr(action))] +
      (if eventLabel.Some? then [("el", VStr(eventLabel.value))] else []) +
      (if eventValue.Some? then [("ev", eventValue.value)] else [])
    case ScreenHit(name) => [("dl", NullableStr(name))]
    case PageHit(url) => [("dl", NullableStr(url))]
    case ActivateHit(groupId, variationId) => [("caid", VStr(groupId)), ("vaid", VStr(variationId))]
  }

  /** `toArray`: visitor id, data source, environment id and type, then the
      payload's entries. An event's label and value appear only once set. */
  function ToArray(h: Hit): (r: OMap<string, Value>)
    ensures Unique(r)
    ensures |r| >= 4 && Keys(r)[..4] == ["vid", "ds", "cid", "t"]
    ensures Get(r, "vid") == Some(NullableStr(h.visitorId))
    ensures Get(r, "ds") == Some(NullableStr(h.ds))
    ensures Get(r, "cid") == Some(NullableStr(h.envId))
    ensures Get(r, "t") == Some(VStr(TypeName(h.payload)))
    ensures h.payload.EventHit? ==>
      Get(r, "ec") == Some(NullableStr(h.payload.category)) &&
      Get(r, "ea") == Some(NullableStr(h.payload.action)) &&
      ("el" in Keys(r) <==> h.payload.eventLabel.Some?) &&
      ("ev" in Keys(r) <==> h.payload.eventValue.Some?) &&
      (h.payload.eventLabel.Some? ==> Get(r, "el") == Some(VStr(h.payload.eventLabel.value))) &&
      (h.payload.eventValue.Some? ==> Get(r, "ev") == h.payload.eventValue) &&
      Keys(r) == EventKeys(h.payload)
    ensures h.payload.ScreenHit? ==> |r| == 5 && Get(r, "dl") == Some(NullableStr(h.payload.screenName))
  {
    var r := BaseEntries(h) + PayloadEntries(h.payload);
    BaseLookups(h);
    PayloadLookups(h);
    r
  }

  lemma PayloadLookups(h: Hit)
    ensures var r := BaseEntries(h) + PayloadEntries(h.payload);
      var p := h.payload;
      (p.EventHit? ==>
        Get(r, "ec") == Some(NullableStr(p.category)) &&
        Get(r, "ea") == Some(NullableStr(p.action)) &&
        ("el" in Keys(r) <==> p.eventLabel.Some?) &&
        ("ev" in Keys(r) <==> p.eventValue.Some?) &&
        (p.eventLabel.Some? ==> Get(r, "el") == Some(VStr(p.eventLabel.value))) &&
        (p.eventValue.Some? ==> Get(r, "ev") == p.eventValue) &&
        Keys(r) == EventKeys(p)) &&
      (p.ScreenHit? ==> |r| == 5 && Get(r, "dl") == Some(NullableStr(p.screenName)))
  {
    if h.payload.EventHit? {
      EventLookups(h);
    } else if h.payload.ScreenHit? {
      GetAt(BaseEntries(h) + PayloadEntries(h.payload), "dl", 4);
    }
  }

  /** The keys of an event's body, in order: the four common ones, category
      and action, then the label and the value when they are set. */
  function EventKeys(p: Payload): seq<string>
    requires p.EventHit?
  {
    ["vid", "ds", "cid", "t", "ec", "ea"] +
    (if p.eventLabel.Some? then ["el"] else []) +
    (if p.eventValue.Some? then ["ev"] else [])
  }

  function BaseEntries(h: Hit): OMap<string, Value> {
    [("vid", NullableStr(h.visitorId)), ("ds", NullableStr(h.ds)),
     ("cid", NullableStr(h.envId)), ("t", VStr(TypeName(h.payload)))]
  }

  lemma BaseLookups(h: Hit)
    ensures var r := BaseEntries(h) + PayloadEntries(h.payload);
      Unique(r) && Keys(r)[..4] == ["vid", "ds", "cid", "t"] &&
      Get(r, "vid") == Some(NullableStr(h.visitorId)) &&
      Get(r, "ds") == Some(NullableStr(h.ds)) &&
      Get(r, "cid") == Some(NullableStr(h.envId)) &&
      Get(r, "t") == Some(VStr(TypeName(h.payload)))
  {
    var r := BaseEntries(h) + PayloadEntries(h.payload);
    assert Keys(r)[..4] == ["vid", "ds", "cid", "t"];
    GetAt(r, "vid", 0);
    GetAt(r, "ds", 1);
    GetAt(r, "cid", 2);
    GetAt(r, "t", 3);
  }

  lemma EventLookups(h: Hit)
    requires h.payload.EventHit?
    ensures var r := BaseEntries(h) + PayloadEntries(h.payload);
      var p := h.payload;
      Get(r, "ec") == Some(NullableStr(p.category)) &&
      Get(r, "ea") == Some(NullableStr(p.action)) &&
      ("el" in Keys(r) <==> p.eventLabel.Some?) &&
      ("ev" in Keys(r) <==> p.eventValue.Some?) &&
      (p.eventLabel.Some? ==> Get(r, "el") == Some(VStr(p.eventLabel.value))) &&
      (p.eventValue.Some? ==> Get(r, "ev") == p.eventValue) &&
      Keys(r) == EventKeys(p)
  {
    var r := BaseEntries(h) + PayloadEntries(h.payload);
    var p := h.payload;
    assert Keys(r) == EventKeys(p);
    GetAt(r, "ec", 4);
    GetAt(r, "ea", 5);
    if p.eventLabel.Some? {
      assert Keys(r)[6] == "el";
      GetAt(r, "el", 6);
      if p.eventValue.Some? {
        assert Keys(r)[7] == "ev";
        GetAt(r, "ev", 7);
      } else {
        assert "ev" !in Keys(r);
      }
    } else {
      assert "el" !in Keys(r);
      if p.eventValue.Some? {
        assert Keys(r)[6] == "ev";
        GetAt(r, "ev", 6);
      } else {
        assert "ev" !in Keys(r);
      }
    }
  }

  /** A hit with every field it needs is ready, and any missing one makes
      it not ready: the cases of the event and screen-view tests. */
  lemma ReadinessExamples(p: Payload)
    ensures !IsReady(NewHit(EventHit(Some(USER_ENGAGEMENT), Some("eventAction"), None, None)))
    ensures var h := NewHit(p).(visitorId := Some("visitorId"), ds := Some(SDK_APP), envId := Some("envId"));
      (p == EventHit(None, Some("eventAction"), None, None) ==> !IsReady(h)) &&
      (p == EventHit(Some(ACTION_TRACKING), Some(""), None, None) ==> !IsReady(h)) &&
      (p == EventHit(Some(ACTION_TRACKING), Some("ItemName"), None, None) ==> IsReady(h)) &&
      (p == ScreenHit(None) ==> !IsReady(h)) &&
      (p == ScreenHit(Some("")) ==> !IsReady(h)) &&
      (p == ScreenHit(Some("screenName")) ==> IsReady(h))
  {
  }

  /** The label of a consent hit: the SDK language and the consent flag. */
  function ConsentLabel(hasConsented: bool): string {
    SDK_LANGUAGE + ":" + (if hasConsented then "true" else "false")
  }

  /** A consent event: action "fs_consent". */
  predicate IsConsentHit(h: Hit) {
    h.payload.EventHit? && h.payload.action == Some(FS_CONSENT)
  }

  /** A consent event reporting that the visitor refused consent. */
  predicate IsConsentRefusal(h: Hit) {
    IsConsentHit(h) && h.payload.eventLabel == Some(ConsentLabel(false))
  }

  /** An error a rejected setter logs. */
  datatype HitLog = CategoryError | TypeError(item: string, expected: string)

  /** One of the two event categories. */
  predicate IsEventCategory(v: Value) {
    v == VStr(ACTION_TRACKING) || v == VStr(USER_ENGAGEMENT)
  }

  /** PHP `is_numeric`, restricted to integers and decimal-integer strings. */
  predicate IsNumeric(v: Value) {
    v.VInt? || (v.VStr? && ParseInt(v.s).Some?)
  }

  /** The string a value holds, if it is one. */
  function AsString(v: Value): (r: Option<string>)
    ensures r.Some? <==> v.VStr?
    ensures r.Some? ==> v == VStr(r.value)
  {
    if v.VStr? then Some(v.s) else None
  }

  /** An event hit. The constructor applies the setters' validation without
      logging, since no configuration (and so no logger) is attached yet. */
  class Event {
    var visitorId: Option<string>
    var ds: Option<string>
    var envId: Option<string>
    var category: Option<string>
    var action: Option<string>
    var eventLabel: Option<string>
    var eventValue: Option<Value>
    var errorLogs: seq<HitLog>

    /** The hit this object holds. */
    function Data(): Hit
      reads this
    {
      NewHit(EventHit(category, action, eventLabel, eventValue)).(visitorId := visitorId, ds := ds, envId := envId)
    }

    constructor(cat: Value, act: Value)
      ensures category == (if IsEventCategory(cat) then AsString(cat) else None)
      ensures action == AsString(act)
      ensures eventLabel.None? && eventValue.None?
      ensures visitorId.None? && ds.None? && envId.None? && errorLogs == []
    {
      category := if IsEventCategory(cat) then AsString(cat) else None;
      action := AsString(act);
      eventLabel := None;
      eventValue := None;
      visitorId := None;
      ds := None;
      envId := None;
      errorLogs := [];
    }

    method SetVisitorId(id: string)
      modifies this
      ensures Data() == old(Data()).(visitorId := Some(id)) && errorLogs == old(errorLogs)
    {
      visitorId := Some(id);
    }

    method SetDs(value: string)
      modifies this
      ensures Data() == old(Data()).(ds := Some(value)) && errorLogs == old(errorLogs)
    {
      ds := Some(value);
    }

    /** Attaching a configuration sets the environment id. */
    method SetEnvId(value: string)
      modifies this
      ensures Data() == old(Data()).(envId := Some(value)) && errorLogs == old(errorLogs)
    {
      envId := Some(value);
    }

    /** `setCategory`: only the two event categories are accepted; anything
        else logs one error and keeps the previous category. */
    method SetCategory(v: Value)
      modifies this
      ensures IsEventCategory(v) ==>
        Data() == old(Data()).(payload := old(Data()).payload.(category := Some(v.s))) &&
        errorLogs == old(errorLogs)
      ensures !IsEventCategory(v) ==>
        Data() == old(Data()) && ToArray(Data()) == old(ToArray(Data())) &&
        errorLogs == old(errorLogs) + [CategoryError]
    {
      if IsEventCategory(v) {
        category := Some(v.s);
      } else {
        errorLogs := errorLogs + [CategoryError];
      }
    }

    /** `setAction`: any string, the empty one included. */
    method SetAction(v: Value)
      modifies this
      ensures v.VStr? ==>
        Data() == old(Data()).(payload := old(Data()).payload.(action := Some(v.s))) &&
        errorLogs == old(errorLogs)
      ensures !v.VStr? ==>
        Data() == old(Data()) && errorLogs == old(errorLogs) + [TypeError("action", "string")]
    {
      if v.VStr? {
        action := Some(v.s);
      } else {
        errorLogs := errorLogs + [TypeError("action", "string")];
      }
    }

    /** `setEventLabel`: any string. */
    method SetEventLabel(v: Value)
      modifies this
      ensures v.VStr? ==>
        Data() == old(Data()).(payload := old(Data()).payload.(eventLabel := Some(v.s))) &&
        errorLogs == old(errorLogs)
      ensures !v.VStr? ==>
        Data() == old(Data()) && errorLogs == old(errorLogs) + [TypeError("eventLabel", "string")]
    {
      if v.VStr? {
        eventLabel := Some(v.s);
      } else {
        errorLogs := errorLogs + [TypeError("eventLabel", "string")];
      }
    }

    /** `setEventValue`: a number or a numeric string. */
    method SetEventValue(v: Value)
      modifies this
      ensures IsNumeric(v) ==>
        Data() == old(Data()).(payload := old(Data()).payload.(eventValue := Some(v))) &&
        errorLogs == old(errorLogs)
      ensures !IsNumeric(v) ==>
        Data() == old(Data()) && errorLogs == old(errorLogs) + [TypeError("eventValue", "numeric")]
    {
      if IsNumeric(v) {
        eventValue := Some(v);
      } else {
        errorLogs := errorLogs + [TypeError("eventValue", "numeric")];
      }
    }
  }

  /** A screen-view hit. */
  class Screen {
    var visitorId: Option<string>
    var ds: Option<string>
    var envId: Option<string>
    var screenName: Option<string>
    var errorLogs: seq<HitLog>

    function Data(): Hit
      reads this
    {
      NewHit(ScreenHit(screenName)).(visitorId := visitorId, ds := ds, envId := envId)
    }

    constructor(name: Value)
      ensures screenName == AsString(name)
      ensures visitorId.None? && ds.None? && envId.None? && errorLogs == []
    {
      screenName := AsString(name);
      visitorId := None;
      ds := None;
      envId := None;
      errorLogs := [];
    }

    method SetVisitorId(id: string)
      modifies this
      ensures Data() == old(Data()).(visitorId := Some(id)) && errorLogs == old(errorLogs)
    {
      visitorId := Some(id);
    }

    method SetDs(value: string)
      modifies this
      ensures Data() == old(Data()).(ds := Some(value)) && errorLogs == old(errorLogs)
    {
      ds := Some(value);
    }

    method SetEnvId(value: string)
      modifies this
      ensures Data() == old(Data()).(envId := Some(value)) && errorLogs == old(errorLogs)
    {
      envId := Some(value);
    }

    /** `setScreenName`: any string; anything else logs one error and keeps
        the previous name. */
    method SetScreenName(v: Value)
      modifies this
      ensures v.VStr? ==> Data() == old(Data()).(payload := ScreenHit(Some(v.s))) && errorLogs == old(errorLogs)
      ensures !v.VStr? ==>
        Data() == old(Data()) && errorLogs == old(errorLogs) + [TypeError("screenName", "string")]
    {
      if v.VStr? {
        screenName := Some(v.s);
      } else {
        errorLogs := errorLogs + [TypeError("screenName", "string")];
      }
    }
  }
}
