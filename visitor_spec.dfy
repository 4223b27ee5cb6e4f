/** The visitor's state and what each strategy operation does to it, as
    functions of the state before the call: context updates with the `fs_`
    filter, the authenticate / unauthenticate identity swap, modification
    reads with their activation rule, hits, consent, the strategy selection
    and the panic strategy's deactivation. The strategy classes are proved
    against these functions. */
module VisitorSpec {
  import opened Common
  import opened OrderedMap
  import opened Modifications
  import opened Hits
  import opened Targeting

  /** What a visitor reads from its configuration and configuration manager:
      credentials, the decision mode and which managers are attached. */
  datatype Config = Config(
    envId: string,
    apiKey: string,
    timeout: int,
    decisionMode: DecisionMode,
    hasTrackingManager: bool,
    hasDecisionManager: bool)

  datatype Level = Error | Info

  /** Which log message was emitted (the message text is not modelled). */
  datatype Message =
    | Blank
    | ContextParamError
    | VisitorIdError
    | NotAuthenticated
    | DeactivatedInBucketing
    | ModificationKeyError
    | ModificationMissing
    | ModificationCastError
    | ModificationError
    | HitNotReady
    | PanicModeError
    | DecisionManagerMissing
    | TrackerManagerMissing
    | MethodDeactivated(status: SdkStatus)
    | ConsentDeactivated(status: SdkStatus)

  /** One call on the log manager: level, message and tag. */
  datatype Log = Log(level: Level, message: Message, tag: string)

  /** One call a visitor makes on its tracking or decision manager. */
  datatype Call =
    | ConsentHitSent(visitorId: Option<string>, anonymousId: Option<string>, hasConsented: bool)
    | ActivateSent(visitorId: Option<string>, anonymousId: Option<string>, modification: Modification)
    | HitSent(hit: Hit)
    | ModificationsRequested(visitorId: Option<string>, context: Context)

  /** The visitor delegate's state, with the logs and the manager calls
      made so far. */
  datatype VisitorState = VisitorState(
    visitorId: string,
    anonymousId: Option<string>,
    context: Context,
    hasConsented: bool,
    modifications: seq<Modification>,
    logs: seq<Log>,
    calls: seq<Call>)

  function Logged(s: VisitorState, level: Level, message: Message, tag: string): VisitorState {
    s.(logs := s.logs + [Log(level, message, tag)])
  }

  function Called(s: VisitorState, c: Call): VisitorState {
    s.(calls := s.calls + [c])
  }

  // ---------------------------------------------------------------------
  // Strategy selection

  datatype StrategyKind = NotReadyStrategy | PanicStrategy | NoConsentStrategy | DefaultStrategy

  /** `getStrategy`, recomputed on every call from the SDK status and the
      visitor's consent. */
  function GetStrategy(status: SdkStatus, hasConsented: bool): (r: StrategyKind)
    ensures r == NotReadyStrategy <==> status == NotInitialized
    ensures r == PanicStrategy <==> status == ReadyPanicOn
    ensures r == NoConsentStrategy <==> status == Ready && !hasConsented
    ensures r == DefaultStrategy <==> status == Ready && hasConsented
  {
    match status
    case NotInitialized => NotReadyStrategy
    case ReadyPanicOn => PanicStrategy
    case Ready => if hasConsented then DefaultStrategy else NoConsentStrategy
  }

  // ---------------------------------------------------------------------
  // Consent

  /** `setConsent`: the flag is stored and one consent hit is sent. */
  function SetConsent(s: VisitorState, hasConsented: bool): VisitorState {
    Called(s.(hasConsented := hasConsented), ConsentHitSent(Some(s.visitorId), s.anonymousId, hasConsented))
  }

  /** Consent stores the flag, adds exactly one call, the consent hit for
      the current identity, and changes nothing else; once the SDK is ready
      it alone decides between the default and the no-consent strategy. */
  lemma SetConsentEffect(s: VisitorState, hasConsented: bool)
    ensures var r := SetConsent(s, hasConsented);
      r.hasConsented == hasConsented &&
      r.calls == s.calls + [ConsentHitSent(Some(s.visitorId), s.anonymousId, hasConsented)] &&
      r.(hasConsented := s.hasConsented, calls := s.calls) == s &&
      GetStrategy(Ready, r.hasConsented) == (if hasConsented then DefaultStrategy else NoConsentStrategy)
  {
  }

  // ---------------------------------------------------------------------
  // Context

  /** `preg_match("/^fs_/i", key)`: the key starts with "fs_", letters in
      either case. */
  predicate HasFsPrefix(k: string) {
    |k| >= 3 && (k[0] == 'f' || k[0] == 'F') && (k[1] == 's' || k[1] == 'S') && k[2] == '_'
  }

  /** The predefined-context check (`checkFlagshipContext`): null when the
      key is not a predefined one, else whether the value suits it. Its
      rules are not part of this model. */
  type ContextCheck = (string, Value) -> Option<bool>

  /** `updateContext` stores the pair: a valid key and value, no `fs_`
      prefix, and no objection from the predefined-context check. */
  predicate Accepted(key: Value, value: Value, check: ContextCheck) {
    IsKeyValid(key) && IsValueValid(value) && !HasFsPrefix(key.s) && check(key.s, value) != Some(false)
  }

  /** DefaultStrategy `updateContext`. */
  function UpdateContext(s: VisitorState, key: Value, value: Value, check: ContextCheck): VisitorState {
    if !IsKeyValid(key) || !IsValueValid(value) then Logged(s, Error, ContextParamError, "updateContext")
    else if Accepted(key, value, check) then s.(context := Put(s.context, key.s, value))
    else s
  }

  /** An invalid pair logs one error and changes nothing else; an `fs_` key
      is ignored silently; an accepted pair sets that key alone, in place
      when present and at the end when new. */
  lemma UpdateContextEffect(s: VisitorState, key: Value, value: Value, check: ContextCheck)
    ensures var r := UpdateContext(s, key, value, check);
      r.(context := s.context, logs := s.logs) == s &&
      (!IsKeyValid(key) || !IsValueValid(value) ==>
        r.context == s.context && r.logs == s.logs + [Log(Error, ContextParamError, "updateContext")]) &&
      (IsKeyValid(key) && IsValueValid(value) && HasFsPrefix(key.s) ==> r == s) &&
      (Accepted(key, value, check) ==>
        r.logs == s.logs && Keys(s.context) <= Keys(r.context) &&
        Get(r.context, key.s) == Some(value) &&
        forall k :: k != key.s ==> Get(r.context, k) == Get(s.context, k))
  {
    if Accepted(key, value, check) {
      var r := UpdateContext(s, key, value, check);
      PutKeepsPrefix(s.context, key.s, value);
      PutGet(s.context, key.s, value, key.s);
      forall k | k != key.s ensures Get(r.context, k) == Get(s.context, k) {
        PutGet(s.context, key.s, value, k);
      }
    }
  }

  /** DefaultStrategy `updateContextCollection`: `updateContext` on each
      pair in order. */
  function UpdateContextCollection(s: VisitorState, pairs: seq<(Value, Value)>, check: ContextCheck): VisitorState
    decreases |pairs|
  {
    if |pairs| == 0 then s
    else
      var last := pairs[|pairs| - 1];
      UpdateContext(UpdateContextCollection(s, pairs[..|pairs| - 1], check), last.0, last.1, check)
  }

  /** Applying a collection in two parts is applying it whole. */
  lemma {:induction false} UpdateContextCollectionAppend(s: VisitorState, a: seq<(Value, Value)>,
                                                         b: seq<(Value, Value)>, check: ContextCheck)
    ensures UpdateContextCollection(s, a + b, check) ==
            UpdateContextCollection(UpdateContextCollection(s, a, check), b, check)
    decreases |b|
  {
    if |b| > 0 {
      var ab := a + b;
      assert ab[..|ab| - 1] == a + b[..|b| - 1];
      assert ab[|ab| - 1] == b[|b| - 1];
      UpdateContextCollectionAppend(s, a, b[..|b| - 1], check);
    } else {
      assert a + b == a;
    }
  }

  /** The collection form touches only the context and the logs, never lets
      an `fs_` key into a context that had none, and keeps keys distinct. */
  lemma {:induction false} UpdateContextCollectionKeeps(s: VisitorState, pairs: seq<(Value, Value)>, check: ContextCheck)
    requires Unique(s.context)
    requires forall k :: k in Keys(s.context) ==> !HasFsPrefix(k)
    ensures var r := UpdateContextCollection(s, pairs, check);
      r.(context := s.context, logs := s.logs) == s && Unique(r.context) &&
      forall k :: k in Keys(r.context) ==> !HasFsPrefix(k)
    decreases |pairs|
  {
    if |pairs| > 0 {
      var prev := UpdateContextCollection(s, pairs[..|pairs| - 1], check);
      UpdateContextCollectionKeeps(s, pairs[..|pairs| - 1], check);
      var last := pairs[|pairs| - 1];
      if Accepted(last.0, last.1, check) {
        PutKeepsUnique(prev.context, last.0.s, last.1);
        var c := Put(prev.context, last.0.s, last.1);
        forall k | k in Keys(c) ensures !HasFsPrefix(k) {
          var i :| 0 <= i < |c| && Keys(c)[i] == k;
          if i < |prev.context| && prev.context[i].0 != last.0.s {
            assert Keys(prev.context)[i] == k;
          }
        }
      }
    }
  }

  /** DefaultStrategy `clearContext`. */
  function ClearContext(s: VisitorState): VisitorState {
    s.(context := [])
  }

  // ---------------------------------------------------------------------
  // Identity

  /** The delegate's `setVisitorId`: an empty id logs one error tagged
      `setVisitorId` and is not stored. */
  function SetVisitorId(s: VisitorState, visitorId: string): VisitorState {
    if IsEmptyString(visitorId) then Logged(s, Error, VisitorIdError, "setVisitorId")
    else s.(visitorId := visitorId)
  }

  /** The anonymous id a new delegate gets: a fresh one when it is created
      authenticated in decision-API mode, none otherwise. */
  function InitialAnonymousId(isAuthenticated: bool, mode: DecisionMode, freshId: string): (r: Option<string>)
    ensures r.Some? <==> isAuthenticated && mode == DecisionApi
  {
    if isAuthenticated && mode == DecisionApi then Some(freshId) else None
  }

  /** DefaultStrategy `authenticate`. */
  function Authenticate(s: VisitorState, mode: DecisionMode, visitorId: string): VisitorState {
    if mode == BucketingMode then Logged(s, Error, DeactivatedInBucketing, "authenticate")
    else if IsEmptyString(visitorId) then Logged(s, Error, VisitorIdError, "authenticate")
    else s.(anonymousId := Some(s.visitorId), visitorId := visitorId)
  }

  /** DefaultStrategy `unauthenticate`. */
  function Unauthenticate(s: VisitorState, mode: DecisionMode): VisitorState {
    if mode == BucketingMode then Logged(s, Error, DeactivatedInBucketing, "unauthenticate")
    else if !Truthy(s.anonymousId) then Logged(s, Error, NotAuthenticated, "unauthenticate")
    else s.(visitorId := s.anonymousId.value, anonymousId := None)
  }

  /** In bucketing mode, or with an empty id, `authenticate` logs one error
      and changes nothing else; otherwise the old id becomes the anonymous
      id and the new id the visitor id. */
  lemma AuthenticateEffect(s: VisitorState, mode: DecisionMode, visitorId: string)
    ensures var r := Authenticate(s, mode, visitorId);
      (mode == BucketingMode || IsEmptyString(visitorId) ==>
        r.(logs := s.logs) == s && |r.logs| == |s.logs| + 1) &&
      (mode == DecisionApi && !IsEmptyString(visitorId) ==>
        r == s.(anonymousId := Some(s.visitorId), visitorId := visitorId))
  {
  }

  /** Authenticating then unauthenticating restores the visitor id and
      leaves no anonymous id, provided the original id is not one PHP
      treats as empty (such an anonymous id is refused by `unauthenticate`). */
  lemma AuthenticateRoundTrip(s: VisitorState, visitorId: string)
    requires !IsEmptyString(visitorId) && !IsEmptyString(s.visitorId)
    ensures Unauthenticate(Authenticate(s, DecisionApi, visitorId), DecisionApi) == s.(anonymousId := None)
  {
  }

  /** An original id of "0" is stored as anonymous id by `authenticate` but
      refused by `unauthenticate`: the swap cannot be undone. */
  lemma FalsyIdCannotBeRestored(s: VisitorState, visitorId: string)
    requires !IsEmptyString(visitorId) && s.visitorId == "0"
    ensures var a := Authenticate(s, DecisionApi, visitorId);
      Unauthenticate(a, DecisionApi) == Logged(a, Error, NotAuthenticated, "unauthenticate")
  {
  }

  // ---------------------------------------------------------------------
  // Modifications

  /** `getObjetModification`: the first modification whose key is strictly
      equal (`===`) to `key`; a key that is not a string matches none. */
  function Lookup(mods: seq<Modification>, key: Value): (r: Option<Modification>)
    ensures r.Some? <==> key.VStr? && key.s in KeysOf(mods)
    ensures r.Some? ==> key.VStr? && exists i :: IsFirstWithKey(mods, key.s, i) && mods[i] == r.value
  {
    if key.VStr? then Find(mods, key.s) else None
  }

  /** The value `getModification` returns: the stored value when the key is
      valid, present and its value has the default's PHP type, else the
      default. */
  function ModificationValue(mods: seq<Modification>, key: Value, defaultValue: Value): (r: Value)
    ensures TypeOf(r) == TypeOf(defaultValue)
    ensures r != defaultValue ==>
      IsKeyValid(key) && Lookup(mods, key).Some? && r == Lookup(mods, key).value.value
  {
    if !IsKeyValid(key) then defaultValue
    else
      match Lookup(mods, key)
      case None => defaultValue
      case Some(m) => if TypeOf(m.value) != TypeOf(defaultValue) then defaultValue else m.value
  }

  /** When the key is valid and present with the default's type, the stored
      value is returned, whatever the default. */
  lemma ModificationValueFound(mods: seq<Modification>, key: Value, defaultValue: Value)
    requires IsKeyValid(key) && Lookup(mods, key).Some?
    requires TypeOf(Lookup(mods, key).value.value) == TypeOf(defaultValue)
    ensures ModificationValue(mods, key, defaultValue) == Lookup(mods, key).value.value
  {
  }

  /** DefaultStrategy `getModification` reports the modification as seen:
      on a type match when asked to, and on a type mismatch only when the
      stored value is null. */
  predicate ActivatesOnRead(mods: seq<Modification>, key: Value, defaultValue: Value, activate: bool) {
    IsKeyValid(key) && Lookup(mods, key).Some? &&
    var v := Lookup(mods, key).value.value;
    if TypeOf(v) != TypeOf(defaultValue) then v == VNull else activate
  }

  /** The older `Visitor::getModification` reports it seen only on a type
      match when asked to. */
  predicate LegacyActivatesOnRead(mods: seq<Modification>, key: Value, defaultValue: Value, activate: bool) {
    IsKeyValid(key) && Lookup(mods, key).Some? &&
    TypeOf(Lookup(mods, key).value.value) == TypeOf(defaultValue) && activate
  }

  /** The two activation rules differ exactly on a present key whose stored
      value is null while the default is not. */
  lemma ActivationRulesDiffer(mods: seq<Modification>, key: Value, defaultValue: Value, activate: bool)
    ensures ActivatesOnRead(mods, key, defaultValue, activate) != LegacyActivatesOnRead(mods, key, defaultValue, activate)
        <==> IsKeyValid(key) && Lookup(mods, key).Some? &&
             Lookup(mods, key).value.value == VNull && defaultValue != VNull
  {
  }

  /** DefaultStrategy `activateModification`. */
  function ActivateModification(s: VisitorState, cfg: Config, key: Value): VisitorState {
    match Lookup(s.modifications, key)
    case None => Logged(s, Info, ModificationError, "activateModification")
    case Some(m) =>
      if !cfg.hasTrackingManager then s
      else Called(s, ActivateSent(Some(s.visitorId), s.anonymousId, m))
  }

  /** DefaultStrategy `getModification`'s effect on the state. */
  function GetModification(s: VisitorState, cfg: Config, key: Value, defaultValue: Value, activate: bool): VisitorState {
    if !IsKeyValid(key) then Logged(s, Error, ModificationKeyError, "getModification")
    else
      match Lookup(s.modifications, key)
      case None => Logged(s, Info, ModificationMissing, "getModification")
      case Some(m) =>
        if TypeOf(m.value) != TypeOf(defaultValue) then
          var s1 := Logged(s, Info, ModificationCastError, "getModification");
          if m.value == VNull then ActivateModification(s1, cfg, key) else s1
        else if activate then ActivateModification(s, cfg, key)
        else s
  }

  /** `activateModification` sends one activation for the modification found
      when a tracking manager is attached, and nothing otherwise. */
  lemma ActivateModificationEffect(s: VisitorState, cfg: Config, key: Value)
    ensures var r := ActivateModification(s, cfg, key);
      r.(logs := s.logs, calls := s.calls) == s &&
      r.calls == s.calls +
        (if Lookup(s.modifications, key).Some? && cfg.hasTrackingManager
         then [ActivateSent(Some(s.visitorId), s.anonymousId, Lookup(s.modifications, key).value)] else [])
  {
  }

  /** A read sends at most one activation, exactly when the activation rule
      holds and a tracking manager is attached, and always adds one log
      unless it is a plain typed read; nothing else changes. */
  lemma GetModificationEffect(s: VisitorState, cfg: Config, key: Value, defaultValue: Value, activate: bool)
    ensures var r := GetModification(s, cfg, key, defaultValue, activate);
      r.(logs := s.logs, calls := s.calls) == s &&
      r.calls == s.calls +
        (if ActivatesOnRead(s.modifications, key, defaultValue, activate) && cfg.hasTrackingManager
         then [ActivateSent(Some(s.visitorId), s.anonymousId, Lookup(s.modifications, key).value)] else []) &&
      (r.logs == s.logs <==>
        IsKeyValid(key) && Lookup(s.modifications, key).Some? &&
        TypeOf(Lookup(s.modifications, key).value.value) == TypeOf(defaultValue))
  {
    if IsKeyValid(key) && Lookup(s.modifications, key).Some? {
      var m := Lookup(s.modifications, key).value;
      if TypeOf(m.value) != TypeOf(defaultValue) {
        ActivateModificationEffect(Logged(s, Info, ModificationCastError, "getModification"), cfg, key);
      } else {
        ActivateModificationEffect(s, cfg, key);
      }
    }
  }

  /** The campaign record `parseToCampaign` builds for a modification. */
  function CampaignInfo(m: Modification): OMap<string, Value> {
    [("campaignId", VStr(m.campaignId)), ("variationGroupId", VStr(m.variationGroupId)),
     ("variationId", VStr(m.variationId)), ("isReference", VBool(m.isReference)), ("value", m.value)]
  }

  /** The value `getModificationInfo` returns: null for an invalid or absent
      key, else the found modification's campaign record. */
  function ModificationInfo(mods: seq<Modification>, key: Value): (r: Option<OMap<string, Value>>)
    ensures r.Some? <==> IsKeyValid(key) && key.s in KeysOf(mods)
    ensures r.Some? ==>
      Keys(r.value) == ["campaignId", "variationGroupId", "variationId", "isReference", "value"] &&
      exists i :: IsFirstWithKey(mods, key.s, i) && r.value == CampaignInfo(mods[i])
  {
    if !IsKeyValid(key) then None
    else
      match Lookup(mods, key)
      case None => None
      case Some(m) => Some(CampaignInfo(m))
  }

  /** DefaultStrategy `getModificationInfo`'s effect: one error log when no
      record is returned. */
  function GetModificationInfo(s: VisitorState, key: Value): VisitorState {
    if ModificationInfo(s.modifications, key).None? then Logged(s, Error, ModificationError, "getModificationInfo")
    else s
  }

  /** DefaultStrategy `synchronizeModifications`: the decision manager's
      answer replaces the list wholesale; without a decision manager
      nothing happens. */
  function SynchronizeModifications(s: VisitorState, cfg: Config, fetched: seq<Modification>): VisitorState {
    if !cfg.hasDecisionManager then s
    else Called(s, ModificationsRequested(Some(s.visitorId), s.context)).(modifications := fetched)
  }

  // ---------------------------------------------------------------------
  // Hits

  /** The hit as DefaultStrategy `sendHit` stamps it: the configuration's
      credentials, the visitor's ids and the SDK data source. */
  function Stamped(h: Hit, s: VisitorState, cfg: Config): Hit {
    h.(envId := Some(cfg.envId), apiKey := Some(cfg.apiKey), timeout := Some(cfg.timeout),
       visitorId := Some(s.visitorId), anonymousId := s.anonymousId, ds := Some(SDK_APP))
  }

  /** DefaultStrategy `sendHit`. */
  function SendHit(s: VisitorState, cfg: Config, h: Hit): VisitorState {
    if !cfg.hasTrackingManager then s
    else
      var stamped := Stamped(h, s, cfg);
      if !IsReady(stamped) then Logged(s, Error, HitNotReady, "sendHit")
      else Called(s, HitSent(stamped))
  }

  /** Every hit handed to the tracking manager is ready. */
  ghost predicate SentHitsReady(calls: seq<Call>) {
    forall i :: 0 <= i < |calls| && calls[i].HitSent? ==> IsReady(calls[i].hit)
  }

  /** A hit is forwarded, stamped with the visitor's ids, exactly when a
      tracking manager is attached and the stamped hit is ready; so the
      tracking manager only ever receives ready hits. */
  lemma SendHitEffect(s: VisitorState, cfg: Config, h: Hit)
    requires SentHitsReady(s.calls)
    ensures var r := SendHit(s, cfg, h);
      r.(logs := s.logs, calls := s.calls) == s && SentHitsReady(r.calls) &&
      (r.calls != s.calls <==> cfg.hasTrackingManager && IsReady(Stamped(h, s, cfg))) &&
      (r.calls != s.calls ==>
        r.calls == s.calls + [HitSent(Stamped(h, s, cfg))] &&
        r.calls[|s.calls|].hit.visitorId == Some(s.visitorId) &&
        r.calls[|s.calls|].hit.anonymousId == s.anonymousId &&
        r.calls[|s.calls|].hit.ds == Some(SDK_APP))
  {
  }

  // ---------------------------------------------------------------------
  // Construction

  /** The entries the delegate adds after the caller's context. */
  function PredefinedContext(visitorId: string, osName: string): OMap<string, Value> {
    [("sdk_osName", VStr(osName)), ("sdk_deviceType", VStr("server")),
     ("fs_client", VStr(SDK_LANGUAGE)), ("fs_version", VStr(SDK_VERSION)), ("fs_users", VStr(visitorId))]
  }

  /** Each entry assigned in turn. */
  function PutAll(ctx: Context, entries: OMap<string, Value>): Context
    decreases |entries|
  {
    if |entries| == 0 then ctx
    else PutAll(Put(ctx, entries[0].0, entries[0].1), entries[1..])
  }

  /** A new delegate's state: the caller's context applied through the
      context rules, then the predefined entries; no logs for a valid
      context, no calls yet. */
  function InitialState(visitorId: string, anonymousId: Option<string>, userContext: seq<(Value, Value)>,
                        hasConsented: bool, osName: string, check: ContextCheck): VisitorState
  {
    var s := UpdateContextCollection(VisitorState(visitorId, anonymousId, [], hasConsented, [], [], []), userContext, check);
    s.(context := PutAll(s.context, PredefinedContext(visitorId, osName)))
  }

  /** Assigning entries with distinct keys in turn: every entry reads back,
      every other key reads as before, and the keys already present keep
      their order in front. */
  lemma {:induction false} PutAllEffect(ctx: Context, entries: OMap<string, Value>)
    requires Unique(entries)
    ensures var r := PutAll(ctx, entries);
      Keys(ctx) <= Keys(r) &&
      (forall i :: 0 <= i < |entries| ==> Get(r, entries[i].0) == Some(entries[i].1)) &&
      (forall k :: k !in Keys(entries) ==> Get(r, k) == Get(ctx, k))
    decreases |entries|
  {
    if |entries| > 0 {
      var e := entries[0];
      var rest := entries[1..];
      var c1 := Put(ctx, e.0, e.1);
      var r := PutAll(ctx, entries);
      PutAllEffect(c1, rest);
      PutKeepsPrefix(ctx, e.0, e.1);
      forall i | 0 <= i < |entries| ensures Get(r, entries[i].0) == Some(entries[i].1) {
        if i == 0 {
          assert e.0 !in Keys(rest) by {
            forall j | 0 <= j < |rest| ensures Keys(rest)[j] != e.0 {
              assert rest[j] == entries[j + 1];
            }
          }
          PutGet(ctx, e.0, e.1, e.0);
        } else {
          assert entries[i] == rest[i - 1];
        }
      }
      forall k | k !in Keys(entries) ensures Get(r, k) == Get(ctx, k) {
        assert k !in Keys(rest) by {
          forall j | 0 <= j < |rest| ensures Keys(rest)[j] != k {
            assert rest[j] == entries[j + 1];
            assert Keys(entries)[j + 1] == entries[j + 1].0;
          }
        }
        assert k != e.0 by {
          assert Keys(entries)[0] == e.0;
        }
        PutGet(ctx, e.0, e.1, k);
      }
    }
  }

  /** A new delegate's context: the keys the caller's context set come
      first, in their order, none of them starting with `fs_`; then each
      predefined entry reads back its value (`fs_users` the visitor id);
      every other key keeps the caller's value. */
  lemma InitialContextShape(visitorId: string, anonymousId: Option<string>, userContext: seq<(Value, Value)>,
                            hasConsented: bool, osName: string, check: ContextCheck)
    ensures var s := UpdateContextCollection(VisitorState(visitorId, anonymousId, [], hasConsented, [], [], []),
                                             userContext, check);
      var r := InitialState(visitorId, anonymousId, userContext, hasConsented, osName, check).context;
      var pre := PredefinedContext(visitorId, osName);
      (forall k :: k in Keys(s.context) ==> !HasFsPrefix(k)) &&
      Keys(s.context) <= Keys(r) &&
      (forall i :: 0 <= i < |pre| ==> Get(r, pre[i].0) == Some(pre[i].1)) &&
      Get(r, "fs_users") == Some(VStr(visitorId)) &&
      (forall k :: k !in Keys(pre) ==> Get(r, k) == Get(s.context, k))
  {
    var s0 := VisitorState(visitorId, anonymousId, [], hasConsented, [], [], []);
    UpdateContextCollectionKeeps(s0, userContext, check);
    var pre := PredefinedContext(visitorId, osName);
    assert Keys(pre) == ["sdk_osName", "sdk_deviceType", "fs_client", "fs_version", "fs_users"];
    assert Unique(pre);
    var s := UpdateContextCollection(s0, userContext, check);
    PutAllEffect(s.context, pre);
    assert pre[4] == ("fs_users", VStr(visitorId));
  }

  /** Valid pairs whose keys start with `fs_` leave the state as it was. */
  lemma {:induction false} FsPairsIgnored(s: VisitorState, pairs: seq<(Value, Value)>, check: ContextCheck)
    requires forall i :: 0 <= i < |pairs| ==>
      IsKeyValid(pairs[i].0) && IsValueValid(pairs[i].1) && HasFsPrefix(pairs[i].0.s)
    ensures UpdateContextCollection(s, pairs, check) == s
    decreases |pairs|
  {
    if |pairs| > 0 {
      FsPairsIgnored(s, pairs[..|pairs| - 1], check);
    }
  }

  // ---------------------------------------------------------------------
  // Panic strategy

  /** The operations PanicStrategy answers. */
  datatype PanicOp =
    | PanicUpdateContext
    | PanicUpdateContextCollection
    | PanicClearContext
    | PanicSynchronize(fetched: seq<Modification>)
    | PanicGetModification
    | PanicGetModificationInfo
    | PanicActivateModification
    | PanicSendHit
    | PanicSetConsent(hasConsented: bool)
    | PanicGetFlagValue
    | PanicUserExposed
    | PanicGetFlagMetadata

  /** The name an operation's log is tagged with. */
  function OpName(op: PanicOp): string {
    match op
    case PanicUpdateContext => "updateContext"
    case PanicUpdateContextCollection => "updateContextCollection"
    case PanicClearContext => "clearContext"
    case PanicSynchronize(_) => "synchronizeModifications"
    case PanicGetModification => "getModification"
    case PanicGetModificationInfo => "getModificationInfo"
    case PanicActivateModification => "activateModification"
    case PanicSendHit => "sendHit"
    case PanicSetConsent(_) => "setConsent"
    case PanicGetFlagValue => "getFlagValue"
    case PanicUserExposed => "userExposed"
    case PanicGetFlagMetadata => "getFlagMetadata"
  }

  /** One PanicStrategy operation. Synchronisation still asks the decision
      manager and logs nothing; `setConsent` still stores the flag and logs
      the consent-specific message; every other operation logs that it is
      deactivated and does nothing else. */
  function PanicStep(s: VisitorState, cfg: Config, op: PanicOp): VisitorState {
    match op
    case PanicSynchronize(fetched) => SynchronizeModifications(s, cfg, fetched)
    case PanicSetConsent(b) => Logged(s.(hasConsented := b), Error, ConsentDeactivated(ReadyPanicOn), "setConsent")
    case _ => Logged(s, Error, MethodDeactivated(ReadyPanicOn), OpName(op))
  }

  /** Operations applied in order. */
  function PanicRun(s: VisitorState, cfg: Config, ops: seq<PanicOp>): VisitorState
    decreases |ops|
  {
    if |ops| == 0 then s else PanicStep(PanicRun(s, cfg, ops[..|ops| - 1]), cfg, ops[|ops| - 1])
  }

  /** The tags of the logs a run emits: one per operation other than
      synchronisation, in call order. */
  function LoggedTags(ops: seq<PanicOp>): seq<string>
    decreases |ops|
  {
    if |ops| == 0 then []
    else LoggedTags(ops[..|ops| - 1]) + (if ops[|ops| - 1].PanicSynchronize? then [] else [OpName(ops[|ops| - 1])])
  }

  /** Under panic the identity and the context never change, nothing is
      sent to the tracking manager, every new log is an error, and the new
      logs carry the operations' names in call order. */
  lemma {:induction false} PanicRunEffect(s: VisitorState, cfg: Config, ops: seq<PanicOp>)
    ensures var r := PanicRun(s, cfg, ops);
      r.visitorId == s.visitorId && r.anonymousId == s.anonymousId && r.context == s.context &&
      |r.logs| >= |s.logs| && r.logs[..|s.logs|] == s.logs &&
      |r.calls| >= |s.calls| && r.calls[..|s.calls|] == s.calls &&
      (forall i :: |s.calls| <= i < |r.calls| ==> r.calls[i].ModificationsRequested?) &&
      (forall i :: |s.logs| <= i < |r.logs| ==> r.logs[i].level == Error) &&
      |r.logs| - |s.logs| == |LoggedTags(ops)| &&
      (forall i :: 0 <= i < |LoggedTags(ops)| ==> r.logs[|s.logs| + i].tag == LoggedTags(ops)[i])
    decreases |ops|
  {
    if |ops| > 0 {
      var init := ops[..|ops| - 1];
      PanicRunEffect(s, cfg, init);
      var p := PanicRun(s, cfg, init);
      var r := PanicStep(p, cfg, ops[|ops| - 1]);
      assert r.logs[..|p.logs|] == p.logs;
      assert r.calls[..|p.calls|] == p.calls;
      assert r.logs[..|s.logs|] == p.logs[..|s.logs|];
      assert r.calls[..|s.calls|] == p.calls[..|s.calls|];
    }
  }

  /** The panic test's sequence of calls: eleven errors, in this order, and
      one request to the decision manager. */
  lemma PanicTestRun(s: VisitorState, cfg: Config, fetched: seq<Modification>)
    ensures var ops := [PanicUpdateContext, PanicUpdateContextCollection, PanicClearContext, PanicSynchronize(fetched),
                        PanicGetModification, PanicGetModificationInfo, PanicActivateModification, PanicSendHit,
                        PanicSetConsent(true), PanicGetFlagValue, PanicUserExposed, PanicGetFlagMetadata];
      LoggedTags(ops) ==
        ["updateContext", "updateContextCollection", "clearContext", "getModification", "getModificationInfo",
         "activateModification", "sendHit", "setConsent", "getFlagValue", "userExposed", "getFlagMetadata"] &&
      PanicRun(s, cfg, ops).hasConsented
  {
    var ops := [PanicUpdateContext, PanicUpdateContextCollection, PanicClearContext, PanicSynchronize(fetched),
                PanicGetModification, PanicGetModificationInfo, PanicActivateModification, PanicSendHit,
                PanicSetConsent(true), PanicGetFlagValue, PanicUserExposed, PanicGetFlagMetadata];
    var tags := ["updateContext", "updateContextCollection", "clearContext", "getModification", "getModificationInfo",
                 "activateModification", "sendHit", "setConsent", "getFlagValue", "userExposed", "getFlagMetadata"];
    assert ops[..1][..0] == [];
    assert LoggedTags(ops[..1]) == tags[..1];
    assert ops[..2][..1] == ops[..1];
    assert LoggedTags(ops[..2]) == tags[..2];
    assert ops[..3][..2] == ops[..2];
    assert LoggedTags(ops[..3]) == tags[..3];
    assert ops[..4][..3] == ops[..3];
    assert LoggedTags(ops[..4]) == tags[..3];
    assert ops[..5][..4] == ops[..4];
    assert LoggedTags(ops[..5]) == tags[..4];
    assert ops[..6][..5] == ops[..5];
    assert LoggedTags(ops[..6]) == tags[..5];
    assert ops[..7][..6] == ops[..6];
    assert LoggedTags(ops[..7]) == tags[..6];
    assert ops[..8][..7] == ops[..7];
    assert LoggedTags(ops[..8]) == tags[..7];
    assert ops[..9][..8] == ops[..8];
    assert LoggedTags(ops[..9]) == tags[..8];
    assert ops[..10][..9] == ops[..9];
    assert LoggedTags(ops[..10]) == tags[..9];
    assert ops[..11][..10] == ops[..10];
    assert LoggedTags(ops[..11]) == tags[..10];
    assert ops[..12][..11] == ops[..11] && ops[..12] == ops;
    assert PanicRun(s, cfg, ops[..9]).hasConsented;
    assert PanicRun(s, cfg, ops[..10]).hasConsented;
    assert PanicRun(s, cfg, ops[..11]).hasConsented;
  }
}
