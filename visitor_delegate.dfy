/** The visitor delegate and two of the strategies that act on it:
    DefaultStrategy, the full behaviour, and PanicStrategy, which deactivates
    everything but synchronisation and the consent flag. Each strategy
    method changes the delegate's fields, and is proved against the
    function of VisitorSpec that says what the operation does. */
module Visitors {
  import opened Common
  import opened OrderedMap
  import opened Modifications
  import opened Hits
  import opened Targeting
  import opened VisitorSpec
  import opened Flag

  /** The visitor's state, shared by whichever strategy is current. The log
      manager's and the managers' calls are recorded in `logs` and `calls`. */
  class VisitorDelegate {
    const config: Config
    var visitorId: string
    var anonymousId: Option<string>
    var context: Context
    var hasConsented: bool
    var modifications: seq<Modification>
    var logs: seq<Log>
    var calls: seq<Call>

    function State(): VisitorState
      reads this
    {
      VisitorState(visitorId, anonymousId, context, hasConsented, modifications, logs, calls)
    }

    /** A new visitor: its id, an anonymous id only when created
        authenticated in decision-API mode, the caller's context through the
        context rules followed by the predefined entries, the given consent,
        no modifications. */
    constructor(config: Config, visitorId: string, isAuthenticated: bool, userContext: seq<(Value, Value)>,
                hasConsented: bool, freshId: string, osName: string, check: ContextCheck)
      ensures this.config == config
      ensures State() == InitialState(visitorId, InitialAnonymousId(isAuthenticated, config.decisionMode, freshId),
                                      userContext, hasConsented, osName, check)
    {
      var s := InitialState(visitorId, InitialAnonymousId(isAuthenticated, config.decisionMode, freshId),
                            userContext, hasConsented, osName, check);
      this.config := config;
      this.visitorId := s.visitorId;
      this.anonymousId := s.anonymousId;
      this.context := s.context;
      this.hasConsented := s.hasConsented;
      this.modifications := s.modifications;
      this.logs := s.logs;
      this.calls := s.calls;
    }

    method AddLog(level: Level, message: Message, tag: string)
      modifies this
      ensures State() == Logged(old(State()), level, message, tag)
    {
      logs := logs + [Log(level, message, tag)];
    }

    method AddCall(c: Call)
      modifies this
      ensures State() == Called(old(State()), c)
    {
      calls := calls + [c];
    }

    /** `setVisitorId`: an empty id is logged and not stored. */
    method SetVisitorId(id: string)
      modifies this
      ensures State() == VisitorSpec.SetVisitorId(old(State()), id)
    {
      if IsEmptyString(id) {
        AddLog(Error, VisitorIdError, "setVisitorId");
      } else {
        visitorId := id;
      }
    }

    method SetModifications(mods: seq<Modification>)
      modifies this
      ensures State() == old(State()).(modifications := mods)
    {
      modifications := mods;
    }

    /** `getModifications` returns the list last set, unchanged. */
    method GetModifications() returns (r: seq<Modification>)
      ensures r == modifications
    {
      r := modifications;
    }
  }

  /** DefaultStrategy: every operation with its full behaviour. */
  class DefaultStrategy {
    const visitor: VisitorDelegate
    /** `checkFlagshipContext`, whose rules are not part of this model. */
    const check: ContextCheck

    constructor(visitor: VisitorDelegate, check: ContextCheck)
      ensures this.visitor == visitor && this.check == check
    {
      this.visitor := visitor;
      this.check := check;
    }

    /** `setConsent`. A tracking manager must be attached: the source calls
        it unconditionally. */
    method SetConsent(hasConsented: bool)
      requires visitor.config.hasTrackingManager
      modifies visitor
      ensures visitor.State() == VisitorSpec.SetConsent(old(visitor.State()), hasConsented)
    {
      visitor.hasConsented := hasConsented;
      visitor.AddCall(ConsentHitSent(Some(visitor.visitorId), visitor.anonymousId, hasConsented));
    }

    method UpdateContext(key: Value, value: Value)
      modifies visitor
      ensures visitor.State() == VisitorSpec.UpdateContext(old(visitor.State()), key, value, check)
    {
      if !IsKeyValid(key) || !IsValueValid(value) {
        visitor.AddLog(Error, ContextParamError, "updateContext");
        return;
      }
      if HasFsPrefix(key.s) {
        return;
      }
      var verdict := check(key.s, value);
      if verdict.Some? && !verdict.value {
        return;
      }
      visitor.context := Put(visitor.context, key.s, value);
    }

    method UpdateContextCollection(pairs: seq<(Value, Value)>)
      modifies visitor
      ensures visitor.State() == VisitorSpec.UpdateContextCollection(old(visitor.State()), pairs, check)
    {
      var i := 0;
      while i < |pairs|
        invariant 0 <= i <= |pairs|
        invariant visitor.State() == VisitorSpec.UpdateContextCollection(old(visitor.State()), pairs[..i], check)
      {
        assert pairs[..i + 1][..i] == pairs[..i];
        UpdateContext(pairs[i].0, pairs[i].1);
        i := i + 1;
      }
      assert pairs[..|pairs|] == pairs;
    }

    method ClearContext()
      modifies visitor
      ensures visitor.State() == VisitorSpec.ClearContext(old(visitor.State()))
    {
      visitor.context := [];
    }

    method Authenticate(visitorId: string)
      modifies visitor
      ensures visitor.State() == VisitorSpec.Authenticate(old(visitor.State()), visitor.config.decisionMode, visitorId)
    {
      if visitor.config.decisionMode == BucketingMode {
        visitor.AddLog(Error, DeactivatedInBucketing, "authenticate");
        return;
      }
      if IsEmptyString(visitorId) {
        visitor.AddLog(Error, VisitorIdError, "authenticate");
        return;
      }
      visitor.anonymousId := Some(visitor.visitorId);
      visitor.SetVisitorId(visitorId);
    }

    method Unauthenticate()
      modifies visitor
      ensures visitor.State() == VisitorSpec.Unauthenticate(old(visitor.State()), visitor.config.decisionMode)
    {
      if visitor.config.decisionMode == BucketingMode {
        visitor.AddLog(Error, DeactivatedInBucketing, "unauthenticate");
        return;
      }
      var anonymousId := visitor.anonymousId;
      if !Truthy(anonymousId) {
        visitor.AddLog(Error, NotAuthenticated, "unauthenticate");
        return;
      }
      visitor.SetVisitorId(anonymousId.value);
      visitor.anonymousId := None;
    }

    /** `getObjetModification`: the scan for the first strictly equal key. */
    method GetObjetModification(key: Value) returns (r: Option<Modification>)
      ensures r == Lookup(visitor.modifications, key)
    {
      var mods := visitor.modifications;
      var i := 0;
      while i < |mods|
        invariant 0 <= i <= |mods|
        invariant forall j :: 0 <= j < i ==> !(key.VStr? && mods[j].key == key.s)
      {
        if key.VStr? && mods[i].key == key.s {
          FindAt(mods, key.s, i);
          return Some(mods[i]);
        }
        i := i + 1;
      }
      assert !(key.VStr? && key.s in KeysOf(mods));
      return None;
    }

    method ActivateModification(key: Value)
      modifies visitor
      ensures visitor.State() == VisitorSpec.ActivateModification(old(visitor.State()), visitor.config, key)
    {
      var m := GetObjetModification(key);
      if m.None? {
        visitor.AddLog(Info, ModificationError, "activateModification");
        return;
      }
      if !visitor.config.hasTrackingManager {
        return;
      }
      visitor.AddCall(ActivateSent(Some(visitor.visitorId), visitor.anonymousId, m.value));
    }

    method GetModification(key: Value, defaultValue: Value, activate: bool) returns (r: Value)
      modifies visitor
      ensures r == ModificationValue(old(visitor.modifications), key, defaultValue)
      ensures visitor.State() ==
        VisitorSpec.GetModification(old(visitor.State()), visitor.config, key, defaultValue, activate)
    {
      if !IsKeyValid(key) {
        visitor.AddLog(Error, ModificationKeyError, "getModification");
        return defaultValue;
      }
      var m := GetObjetModification(key);
      if m.None? {
        visitor.AddLog(Info, ModificationMissing, "getModification");
        return defaultValue;
      }
      if TypeOf(m.value.value) != TypeOf(defaultValue) {
        visitor.AddLog(Info, ModificationCastError, "getModification");
        if m.value.value == VNull {
          ActivateModification(key);
        }
        return defaultValue;
      }
      if activate {
        ActivateModification(key);
      }
      return m.value.value;
    }

    method GetModificationInfo(key: Value) returns (r: Option<OMap<string, Value>>)
      modifies visitor
      ensures r == ModificationInfo(old(visitor.modifications), key)
      ensures visitor.State() == VisitorSpec.GetModificationInfo(old(visitor.State()), key)
    {
      if !IsKeyValid(key) {
        visitor.AddLog(Error, ModificationError, "getModificationInfo");
        return None;
      }
      var m := GetObjetModification(key);
      if m.None? {
        visitor.AddLog(Error, ModificationError, "getModificationInfo");
        return None;
      }
      return Some(CampaignInfo(m.value));
    }

    /** `synchronizeModifications`; `fetched` is what the decision manager
        answers for the visitor. */
    method SynchronizeModifications(fetched: seq<Modification>)
      modifies visitor
      ensures visitor.State() == VisitorSpec.SynchronizeModifications(old(visitor.State()), visitor.config, fetched)
    {
      if !visitor.config.hasDecisionManager {
        return;
      }
      visitor.AddCall(ModificationsRequested(Some(visitor.visitorId), visitor.context));
      visitor.SetModifications(fetched);
    }

    /** `sendHit`. The hit object is stamped in place, so the caller's hit
        after the call is returned as `stamped`. */
    method SendHit(hit: Hit) returns (stamped: Hit)
      modifies visitor
      ensures stamped == (if visitor.config.hasTrackingManager then Stamped(hit, old(visitor.State()), visitor.config) else hit)
      ensures visitor.State() == VisitorSpec.SendHit(old(visitor.State()), visitor.config, hit)
    {
      if !visitor.config.hasTrackingManager {
        return hit;
      }
      stamped := hit.(envId := Some(visitor.config.envId), apiKey := Some(visitor.config.apiKey),
                      timeout := Some(visitor.config.timeout));
      stamped := stamped.(visitorId := Some(visitor.visitorId), anonymousId := visitor.anonymousId, ds := Some(SDK_APP));
      if !IsReady(stamped) {
        visitor.AddLog(Error, HitNotReady, "sendHit");
        return;
      }
      visitor.AddCall(HitSent(stamped));
    }

    method GetModifications() returns (r: seq<Modification>)
      ensures r == visitor.modifications
    {
      r := visitor.GetModifications();
    }
  }

  /** PanicStrategy: the strategy while the service reports panic. */
  class PanicStrategy {
    const visitor: VisitorDelegate

    constructor(visitor: VisitorDelegate)
      ensures this.visitor == visitor
    {
      this.visitor := visitor;
    }

    method LogDeactivated(op: PanicOp)
      requires !op.PanicSynchronize? && !op.PanicSetConsent?
      modifies visitor
      ensures visitor.State() == PanicStep(old(visitor.State()), visitor.config, op)
    {
      visitor.AddLog(Error, MethodDeactivated(ReadyPanicOn), OpName(op));
    }

    method UpdateContext(key: Value, value: Value)
      modifies visitor
      ensures visitor.State() == PanicStep(old(visitor.State()), visitor.config, PanicUpdateContext)
    {
      LogDeactivated(PanicUpdateContext);
    }

    /** One log for the whole collection, not one per pair. */
    method UpdateContextCollection(pairs: seq<(Value, Value)>)
      modifies visitor
      ensures visitor.State() == PanicStep(old(visitor.State()), visitor.config, PanicUpdateContextCollection)
    {
      LogDeactivated(PanicUpdateContextCollection);
    }

    method ClearContext()
      modifies visitor
      ensures visitor.State() == PanicStep(old(visitor.State()), visitor.config, PanicClearContext)
    {
      LogDeactivated(PanicClearContext);
    }

    /** Synchronisation is not deactivated: the decision manager is asked as
        in the default strategy, and no log is emitted. */
    method SynchronizeModifications(fetched: seq<Modification>)
      modifies visitor
      ensures visitor.State() == PanicStep(old(visitor.State()), visitor.config, PanicSynchronize(fetched))
    {
      if !visitor.config.hasDecisionManager {
        return;
      }
      visitor.AddCall(ModificationsRequested(Some(visitor.visitorId), visitor.context));
      visitor.SetModifications(fetched);
    }

    method GetModification(key: Value, defaultValue: Value, activate: bool) returns (r: Value)
      modifies visitor
      ensures r == defaultValue
      ensures visitor.State() == PanicStep(old(visitor.State()), visitor.config, PanicGetModification)
    {
      LogDeactivated(PanicGetModification);
      r := defaultValue;
    }

    method GetModificationInfo(key: Value) returns (r: Option<OMap<string, Value>>)
      modifies visitor
      ensures r.None?
      ensures visitor.State() == PanicStep(old(visitor.State()), visitor.config, PanicGetModificationInfo)
    {
      LogDeactivated(PanicGetModificationInfo);
      r := None;
    }

    method ActivateModification(key: Value)
      modifies visitor
      ensures visitor.State() == PanicStep(old(visitor.State()), visitor.config, PanicActivateModification)
    {
      LogDeactivated(PanicActivateModification);
    }

    method SendHit(hit: Hit)
      modifies visitor
      ensures visitor.State() == PanicStep(old(visitor.State()), visitor.config, PanicSendHit)
    {
      LogDeactivated(PanicSendHit);
    }

    /** The consent flag is still stored; no consent hit is sent. */
    method SetConsent(hasConsented: bool)
      modifies visitor
      ensures visitor.State() == PanicStep(old(visitor.State()), visitor.config, PanicSetConsent(hasConsented))
    {
      visitor.hasConsented := hasConsented;
      visitor.AddLog(Error, ConsentDeactivated(ReadyPanicOn), "setConsent");
    }

    method GetFlagValue(key: string, defaultValue: Value, userExposed: bool) returns (r: Value)
      modifies visitor
      ensures r == defaultValue
      ensures visitor.State() == PanicStep(old(visitor.State()), visitor.config, PanicGetFlagValue)
    {
      LogDeactivated(PanicGetFlagValue);
      r := defaultValue;
    }

    method UserExposed(key: string, defaultValue: Value, metadata: Option<FlagMetadata>)
      modifies visitor
      ensures visitor.State() == PanicStep(old(visitor.State()), visitor.config, PanicUserExposed)
    {
      LogDeactivated(PanicUserExposed);
    }

    method GetFlagMetadata(key: string, metadata: FlagMetadata, hasSameType: bool)
      modifies visitor
      ensures visitor.State() == PanicStep(old(visitor.State()), visitor.config, PanicGetFlagMetadata)
    {
      LogDeactivated(PanicGetFlagMetadata);
    }
  }
}
