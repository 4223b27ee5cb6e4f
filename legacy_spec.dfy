/** The older monolithic visitor (`Flagship\Visitor`): its own id, context
    and modification list, with the panic check written inline in the
    methods that read or activate modifications. No `fs_` filter, no
    anonymous id, and every failure logged as an error. */
module LegacySpec {
  import opened Common
  import opened OrderedMap
  import opened Modifications
  import opened Hits
  import opened Targeting
  import opened VisitorSpec

  /** The visitor's fields; the id stays null until a non-empty one is set. */
  datatype LegacyState = LegacyState(
    visitorId: Option<string>,
    context: Context,
    modifications: seq<Modification>,
    logs: seq<Log>,
    calls: seq<Call>)

  function LoggedError(s: LegacyState, message: Message, tag: string): LegacyState {
    s.(logs := s.logs + [Log(Error, message, tag)])
  }

  /** `setVisitorId`: an empty id logs a blank error and keeps the old id. */
  function SetVisitorId(s: LegacyState, visitorId: string): LegacyState {
    if IsEmptyString(visitorId) then LoggedError(s, Blank, "")
    else s.(visitorId := Some(visitorId))
  }

  /** `updateContext`: any valid pair is stored, `fs_` keys included. */
  function UpdateContext(s: LegacyState, key: Value, value: Value): LegacyState {
    if !IsKeyValid(key) || !IsValueValid(value) then LoggedError(s, ContextParamError, "updateContext")
    else s.(context := Put(s.context, key.s, value))
  }

  function UpdateContextCollection(s: LegacyState, pairs: seq<(Value, Value)>): LegacyState
    decreases |pairs|
  {
    if |pairs| == 0 then s
    else
      var last := pairs[|pairs| - 1];
      UpdateContext(UpdateContextCollection(s, pairs[..|pairs| - 1]), last.0, last.1)
  }

  /** `activateModification`; `isPanicMode` is the decision manager's flag. */
  function ActivateModification(s: LegacyState, cfg: Config, key: Value, isPanicMode: bool): LegacyState {
    if isPanicMode then LoggedError(s, PanicModeError, "activateModification")
    else
      match Lookup(s.modifications, key)
      case None => LoggedError(s, ModificationError, "activateModification")
      case Some(m) =>
        if !cfg.hasTrackingManager then LoggedError(s, TrackerManagerMissing, "activateModification")
        else s.(calls := s.calls + [ActivateSent(s.visitorId, None, m)])
  }

  /** The value `getModification` returns. */
  function ModificationRead(mods: seq<Modification>, key: Value, defaultValue: Value, isPanicMode: bool): (r: Value)
    ensures TypeOf(r) == TypeOf(defaultValue)
    ensures isPanicMode ==> r == defaultValue
  {
    if isPanicMode then defaultValue else ModificationValue(mods, key, defaultValue)
  }

  /** `getModification`'s effect on the state. */
  function GetModification(s: LegacyState, cfg: Config, key: Value, defaultValue: Value, activate: bool,
                           isPanicMode: bool): LegacyState
  {
    if isPanicMode then LoggedError(s, PanicModeError, "getModification")
    else if !IsKeyValid(key) then LoggedError(s, ModificationKeyError, "getModification")
    else
      match Lookup(s.modifications, key)
      case None => LoggedError(s, ModificationMissing, "getModification")
      case Some(m) =>
        if TypeOf(m.value) != TypeOf(defaultValue) then LoggedError(s, ModificationCastError, "getModification")
        else if activate then ActivateModification(s, cfg, key, false)
        else s
  }

  /** In panic mode a read returns the default and sends nothing; otherwise
      it returns what the default strategy returns, and sends one activation
      exactly under the older rule (a typed read asked to activate) with a
      tracking manager attached. Only the identity, the logs and the calls
      can differ from before. */
  lemma GetModificationEffect(s: LegacyState, cfg: Config, key: Value, defaultValue: Value, activate: bool,
                              isPanicMode: bool)
    ensures var r := GetModification(s, cfg, key, defaultValue, activate, isPanicMode);
      r.(logs := s.logs, calls := s.calls) == s &&
      ModificationRead(s.modifications, key, defaultValue, isPanicMode) ==
        (if isPanicMode then defaultValue else ModificationValue(s.modifications, key, defaultValue)) &&
      r.calls == s.calls +
        (if !isPanicMode && LegacyActivatesOnRead(s.modifications, key, defaultValue, activate) && cfg.hasTrackingManager
         then [ActivateSent(s.visitorId, None, Lookup(s.modifications, key).value)] else []) &&
      (|r.logs| == |s.logs| <==>
        (!isPanicMode && LegacyActivatesOnRead(s.modifications, key, defaultValue, activate) && cfg.hasTrackingManager) ||
        (!isPanicMode && !activate && IsKeyValid(key) && Lookup(s.modifications, key).Some? &&
         TypeOf(Lookup(s.modifications, key).value.value) == TypeOf(defaultValue)))
  {
  }

  /** The older campaign record: the default strategy's without `value`. */
  function LegacyCampaignInfo(m: Modification): (r: OMap<string, Value>)
    ensures r == CampaignInfo(m)[..4]
    ensures Keys(r) == ["campaignId", "variationGroupId", "variationId", "isReference"]
  {
    [("campaignId", VStr(m.campaignId)), ("variationGroupId", VStr(m.variationGroupId)),
     ("variationId", VStr(m.variationId)), ("isReference", VBool(m.isReference))]
  }

  /** The value `getModificationInfo` returns. */
  function ModificationInfoRead(mods: seq<Modification>, key: Value, isPanicMode: bool): (r: Option<OMap<string, Value>>)
    ensures r.Some? <==> !isPanicMode && ModificationInfo(mods, key).Some?
    ensures r.Some? ==> r.value == ModificationInfo(mods, key).value[..4]
  {
    if isPanicMode || !IsKeyValid(key) then None
    else
      match Lookup(mods, key)
      case None => None
      case Some(m) => Some(LegacyCampaignInfo(m))
  }

  /** `getModificationInfo`'s effect: one error whenever no record is returned. */
  function GetModificationInfo(s: LegacyState, key: Value, isPanicMode: bool): LegacyState {
    if isPanicMode then LoggedError(s, PanicModeError, "getModificationInfo")
    else if ModificationInfo(s.modifications, key).None? then LoggedError(s, ModificationError, "getModificationInfo")
    else s
  }

  /** `synchronizedModifications`: without a decision manager one error and
      nothing else; otherwise the manager's answer replaces the list. */
  function SynchronizedModifications(s: LegacyState, cfg: Config, fetched: seq<Modification>): LegacyState {
    if !cfg.hasDecisionManager then LoggedError(s, DecisionManagerMissing, "synchronizedModifications")
    else s.(calls := s.calls + [ModificationsRequested(s.visitorId, s.context)], modifications := fetched)
  }

  /** The hit as `sendHit` stamps it: environment id, visitor id, data
      source, API key and timeout (no anonymous id). */
  function Stamped(h: Hit, s: LegacyState, cfg: Config): Hit {
    h.(envId := Some(cfg.envId), visitorId := s.visitorId, ds := Some(SDK_APP),
       apiKey := Some(cfg.apiKey), timeout := Some(cfg.timeout))
  }

  function SendHit(s: LegacyState, cfg: Config, h: Hit): LegacyState {
    if !cfg.hasTrackingManager then LoggedError(s, TrackerManagerMissing, "sendHit")
    else
      var stamped := Stamped(h, s, cfg);
      if !IsReady(stamped) then LoggedError(s, HitNotReady, "sendHit")
      else s.(calls := s.calls + [HitSent(stamped)])
  }

  /** Only ready hits reach the tracking manager, and every hit that does
      not is logged; the caller's anonymous id is left as it was. */
  lemma SendHitEffect(s: LegacyState, cfg: Config, h: Hit)
    requires SentHitsReady(s.calls)
    ensures var r := SendHit(s, cfg, h);
      r.(logs := s.logs, calls := s.calls) == s && SentHitsReady(r.calls) &&
      (r.calls == s.calls <==> |r.logs| == |s.logs| + 1) &&
      (r.calls != s.calls ==>
        r.calls == s.calls + [HitSent(Stamped(h, s, cfg))] && r.logs == s.logs &&
        Stamped(h, s, cfg).anonymousId == h.anonymousId && Stamped(h, s, cfg).visitorId == s.visitorId)
  {
  }

  /** An empty id keeps the old one and logs once; any other id replaces it. */
  lemma SetVisitorIdEffect(s: LegacyState, visitorId: string)
    ensures var r := SetVisitorId(s, visitorId);
      (IsEmptyString(visitorId) ==> r.visitorId == s.visitorId && |r.logs| == |s.logs| + 1) &&
      (!IsEmptyString(visitorId) ==> r.visitorId == Some(visitorId) && r.logs == s.logs) &&
      r.(visitorId := s.visitorId, logs := s.logs) == s
  {
  }

  /** Unlike the default strategy, the older visitor stores `fs_` keys. */
  lemma FsKeysAreStored(s: LegacyState, key: string, value: Value)
    requires HasFsPrefix(key) && IsValueValid(value)
    ensures Get(UpdateContext(s, VStr(key), value).context, key) == Some(value)
  {
    PutGet(s.context, key, value, key);
  }

  /** Where no key starts with `fs_` and the predefined-context check never
      objects, the older visitor and the default strategy build the same
      context from the same pairs and log the same errors. */
  lemma {:induction false} ContextRulesAgree(ls: LegacyState, ds: VisitorState, pairs: seq<(Value, Value)>,
                                             check: ContextCheck)
    requires ls.context == ds.context && ls.logs == ds.logs
    requires forall i :: 0 <= i < |pairs| && IsKeyValid(pairs[i].0) ==>
      !HasFsPrefix(pairs[i].0.s) && check(pairs[i].0.s, pairs[i].1) != Some(false)
    ensures UpdateContextCollection(ls, pairs).context == VisitorSpec.UpdateContextCollection(ds, pairs, check).context
    ensures UpdateContextCollection(ls, pairs).logs == VisitorSpec.UpdateContextCollection(ds, pairs, check).logs
    decreases |pairs|
  {
    if |pairs| > 0 {
      ContextRulesAgree(ls, ds, pairs[..|pairs| - 1], check);
    }
  }
}
