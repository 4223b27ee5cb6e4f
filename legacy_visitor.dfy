/** `Flagship\Visitor` as a class whose methods update its fields; each
    method is proved against the function of the same name in LegacySpec. */
module LegacyVisitor {
  import opened Common
  import opened OrderedMap
  import opened Modifications
  import opened Hits
  import opened Targeting
  import opened VisitorSpec
  import L = LegacySpec

  /** `Flagship\Visitor`. */
  class Visitor {
    const config: Config
    var visitorId: Option<string>
    var context: Context
    var modifications: seq<Modification>
    var logs: seq<Log>
    var calls: seq<Call>

    function State(): L.LegacyState
      reads this
    {
      L.LegacyState(visitorId, context, modifications, logs, calls)
    }

    /** The constructor sets the id, then applies the context pairs. */
    constructor(config: Config, visitorId: string, userContext: seq<(Value, Value)>)
      ensures this.config == config
      ensures State() ==
        L.UpdateContextCollection(L.SetVisitorId(L.LegacyState(None, [], [], [], []), visitorId),
                                              userContext)
    {
      this.config := config;
      this.visitorId := None;
      this.context := [];
      this.modifications := [];
      this.logs := [];
      this.calls := [];
      new;
      SetVisitorId(visitorId);
      UpdateContextCollection(userContext);
    }

    method SetVisitorId(id: string)
      modifies this
      ensures State() == L.SetVisitorId(old(State()), id)
    {
      if IsEmptyString(id) {
        logs := logs + [Log(Error, Blank, "")];
      } else {
        visitorId := Some(id);
      }
    }

    method UpdateContext(key: Value, value: Value)
      modifies this
      ensures State() == L.UpdateContext(old(State()), key, value)
    {
      if !IsKeyValid(key) || !IsValueValid(value) {
        logs := logs + [Log(Error, ContextParamError, "updateContext")];
        return;
      }
      context := Put(context, key.s, value);
    }

    method UpdateContextCollection(pairs: seq<(Value, Value)>)
      modifies this
      ensures State() == L.UpdateContextCollection(old(State()), pairs)
    {
      var i := 0;
      while i < |pairs|
        invariant 0 <= i <= |pairs|
        invariant State() == L.UpdateContextCollection(old(State()), pairs[..i])
      {
        assert pairs[..i + 1][..i] == pairs[..i];
        UpdateContext(pairs[i].0, pairs[i].1);
        i := i + 1;
      }
      assert pairs[..|pairs|] == pairs;
    }

    /** `getObjetModification`: the scan for the first strictly equal key. */
    method GetObjetModification(key: Value) returns (r: Option<Modification>)
      ensures r == Lookup(modifications, key)
    {
      var i := 0;
      while i < |modifications|
        invariant 0 <= i <= |modifications|
        invariant forall j :: 0 <= j < i ==> !(key.VStr? && modifications[j].key == key.s)
      {
        if key.VStr? && modifications[i].key == key.s {
          FindAt(modifications, key.s, i);
          return Some(modifications[i]);
        }
        i := i + 1;
      }
      assert !(key.VStr? && key.s in KeysOf(modifications));
      return None;
    }

    /** `activateModification`. The panic check asks the decision manager,
        which must therefore be attached; `isPanicMode` is its flag. */
    method ActivateModification(key: Value, isPanicMode: bool)
      requires config.hasDecisionManager
      modifies this
      ensures State() == L.ActivateModification(old(State()), config, key, isPanicMode)
    {
      if isPanicMode {
        logs := logs + [Log(Error, PanicModeError, "activateModification")];
        return;
      }
      var m := GetObjetModification(key);
      if m.None? {
        logs := logs + [Log(Error, ModificationError, "activateModification")];
        return;
      }
      if !config.hasTrackingManager {
        logs := logs + [Log(Error, TrackerManagerMissing, "activateModification")];
        return;
      }
      calls := calls + [ActivateSent(visitorId, None, m.value)];
    }

    method GetModification(key: Value, defaultValue: Value, activate: bool, isPanicMode: bool) returns (r: Value)
      requires config.hasDecisionManager
      modifies this
      ensures r == L.ModificationRead(old(modifications), key, defaultValue, isPanicMode)
      ensures State() == L.GetModification(old(State()), config, key, defaultValue, activate, isPanicMode)
    {
      if isPanicMode {
        logs := logs + [Log(Error, PanicModeError, "getModification")];
        return defaultValue;
      }
      if !IsKeyValid(key) {
        logs := logs + [Log(Error, ModificationKeyError, "getModification")];
        return defaultValue;
      }
      var m := GetObjetModification(key);
      if m.None? {
        logs := logs + [Log(Error, ModificationMissing, "getModification")];
        return defaultValue;
      }
      if TypeOf(m.value.value) != TypeOf(defaultValue) {
        logs := logs + [Log(Error, ModificationCastError, "getModification")];
        return defaultValue;
      }
      if activate {
        ActivateModification(key, false);
      }
      return m.value.value;
    }

    method GetModificationInfo(key: Value, isPanicMode: bool) returns (r: Option<OMap<string, Value>>)
      requires config.hasDecisionManager
      modifies this
      ensures r == L.ModificationInfoRead(old(modifications), key, isPanicMode)
      ensures State() == L.GetModificationInfo(old(State()), key, isPanicMode)
    {
      if isPanicMode {
        logs := logs + [Log(Error, PanicModeError, "getModificationInfo")];
        return None;
      }
      if !IsKeyValid(key) {
        logs := logs + [Log(Error, ModificationError, "getModificationInfo")];
        return None;
      }
      var m := GetObjetModification(key);
      if m.None? {
        logs := logs + [Log(Error, ModificationError, "getModificationInfo")];
        return None;
      }
      return Some(L.LegacyCampaignInfo(m.value));
    }

    /** `synchronizedModifications`; `fetched` is what the decision manager
        answers for the visitor. */
    method SynchronizedModifications(fetched: seq<Modification>)
      modifies this
      ensures State() == L.SynchronizedModifications(old(State()), config, fetched)
    {
      if !config.hasDecisionManager {
        logs := logs + [Log(Error, DecisionManagerMissing, "synchronizedModifications")];
        return;
      }
      calls := calls + [ModificationsRequested(visitorId, context)];
      modifications := fetched;
    }

    /** `sendHit`. The hit object is stamped in place, so the caller's hit
        after the call is returned as `stamped`. */
    method SendHit(hit: Hit) returns (stamped: Hit)
      modifies this
      ensures stamped == (if config.hasTrackingManager then L.Stamped(hit, old(State()), config) else hit)
      ensures State() == L.SendHit(old(State()), config, hit)
    {
      if !config.hasTrackingManager {
        logs := logs + [Log(Error, TrackerManagerMissing, "sendHit")];
        return hit;
      }
      stamped := hit.(envId := Some(config.envId), visitorId := visitorId, ds := Some(SDK_APP),
                      apiKey := Some(config.apiKey), timeout := Some(config.timeout));
      if !IsReady(stamped) {
        logs := logs + [Log(Error, HitNotReady, "sendHit")];
        return;
      }
      calls := calls + [HitSent(stamped)];
    }
  }
}
