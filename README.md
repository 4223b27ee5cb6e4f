# Flagship PHP SDK core in Dafny

This project models the core of the Flagship PHP SDK, a client library for a
remote feature-flag and A/B-testing decision service, and proves properties of
that model. The modelled parts are these:

- **Bucketing decision engine** (`targeting.dfy`, `bucketing.dfy`).
  - The typed comparison operators of a targeting condition.
  - The AND of a targeting group's conditions and the OR over a variation
    group's targeting groups.
  - Variation selection from the visitor's hash bucket over cumulative
    allocations, with assignment history taking precedence.
  - The bucketing `getCampaignModifications`.
- **Decision API manager** (`api_manager.dfy`, `modifications.dfy`).
  - The panic flag and the status it reports.
  - The failure path of `getCampaigns`.
  - The flattening of campaigns into one modification per key. A later
    campaign overwrites an earlier key in place.
- **Visitor state and strategies** (`visitor_spec.dfy`, `visitor_delegate.dfy`).
  - `VisitorDelegate` holds the visitor's fields.
  - `DefaultStrategy` and `PanicStrategy` are classes whose methods update
    the delegate.
  - Each method is proved equal to a pure transition function in
    `VisitorSpec`. The lemmas about those transitions state the promised
    properties: the `fs_` context filter, the authenticate/unauthenticate
    identity swap, the activation rule of `getModification`, stamped hits,
    and the per-call logging of panic mode.
  - Strategy selection is a pure function of the SDK status and consent.
- **Older monolithic visitor** `Flagship\Visitor` (`legacy_spec.dfy`,
  `legacy_visitor.dfy`). A class proved against `LegacySpec`, with lemmas
  comparing its rules with the default strategy's.
- **Tracking manager** (`tracking.dfy`).
  - Which visitor ids go where in the activation body and in the consent
    body.
  - Its sends, whose transport outcome is an input.
- **Hit-caching strategies** (`caching.dfy`).
  - The no-batching strategy's `cacheHitKeys` bookkeeping.
  - The batching-on-failure strategy's hit and activation pools: consent
    purge, batch send, and expiry.
- **Value objects** (`flag_metadata.dfy`, `hits.dfy`).
  - `FlagMetadata` with its JSON form.
  - Event and Screen hits with validated setters, `toArray` and `isReady`.

Shared definitions:

- `common.dfy` holds the PHP value union, `gettype`, truthiness and `empty()`.
- `php_strings.dfy` holds substring search, decimal conversion and byte-wise
  string comparison.
- `ordered_map.dfy` models a PHP ordered array as a sequence of pairs.

### How the source is modelled

Values, transport outcomes and collaborators:

- A PHP array with string keys is an ordered list of pairs. Assigning an
  existing key overwrites it in place; assigning a new key appends it.
- Outcomes of HTTP calls, the murmur hash, the fresh unique ids of hit keys,
  the current time, and the decision manager's panic flag are parameters.
- Calls into collaborators are recorded in the state as a list of calls:
  consent hit, activation, hit, and campaign fetch.
- Log entries are recorded as (level, message kind, tag).

Classes versus functions:

- Classes stand where the source updates an object's fields:
  - the visitor delegate and the legacy visitor;
  - the API manager's panic flag;
  - the tracking manager;
  - the two caching strategies;
  - the Event and Screen hits.
- Pure code is functions and lemmas: targeting, bucketing, flattening, the
  request bodies, and `FlagMetadata`.
- `getObjetModification` and `updateContextCollection` are `foreach` loops in
  the source. They are `while` loops here, with invariants.

Behaviour the model takes from the code and its tests, where it may be
unexpected:

- **Sticky bucketing.** A recorded variation that is still listed is returned
  even when its allocation is 0 (`Bucketing.HistoryIsSticky`). A recorded
  variation that was deleted gives no variation (`Bucketing.DeletedHistoryGivesNothing`).
  A fresh allocation is not made in either case
  (tests/Decision/BucketingManagerTest.php:243-340).
- **Legacy `setVisitorId`.** It logs an empty message with no tag.
- **Legacy `updateContext`.** It has no `fs_` filter.

## Model

| member | source | states |
|---|---|---|
| Targeting.EqualsDisjunctiveForm | tests/Decision/BucketingManagerTest.php:615-638 | For a context value, EQUALS holds exactly when it is strictly equal (type and value) to the rule's value, or strictly equal to a member of a list rule. |
| Targeting.NotEqualsNegatesEquals | tests/Decision/BucketingManagerTest.php:640-668 | NOT_EQUALS is the negation of EQUALS on every pair of values. |
| Targeting.EqualsExamples | tests/Decision/BucketingManagerTest.php:623-638 | 5 EQUALS "5" is false (types differ); 5 EQUALS [5,1,2,3] is true (membership). |
| Targeting.ContainsListExample | tests/Decision/BucketingManagerTest.php:684-688 | "nopq_hij" CONTAINS the list ["abc","dfg","hij","klm"], because "hij" occurs inside it. |
| Targeting.NotContainsExample | tests/Decision/BucketingManagerTest.php:696-700 | "nopq_hij" does not CONTAIN "hidf". |
| Targeting.ContainsExamples | tests/Decision/BucketingManagerTest.php:684-700 | "nopq_hij" CONTAINS the list ["abc","dfg","hij","klm"] (a list string inside it), and does not CONTAIN "hidf". |
| Targeting.CompareAntisymmetric | tests/Decision/BucketingManagerTest.php:722-796 | The three-way order of two values exists in both directions or neither, and swapping the operands negates it. |
| Targeting.CompareReflexive | tests/Decision/BucketingManagerTest.php:730-734 | Every integer and string is ordered equal to itself. |
| Targeting.OrderOperatorsMirror | tests/Decision/BucketingManagerTest.php:722-796 | a GREATER_THAN b iff b LOWER_THAN a, and likewise for the _OR_EQUALS pair. |
| Targeting.OrderOperatorsOnEqualValues | tests/Decision/BucketingManagerTest.php:730-866 | On equal integers or strings, GREATER_THAN and LOWER_THAN are false while both _OR_EQUALS variants are true. |
| Targeting.OrEqualsIsStrictOrTie | tests/Decision/BucketingManagerTest.php:798-888 | An _OR_EQUALS comparison holds iff the strict one holds or the two values are ordered equal. |
| Targeting.OrderExamples | tests/Decision/BucketingManagerTest.php:742-784 | 'abz' is LOWER_THAN 'bcg' (byte-wise order) and "9dlk" is GREATER_THAN 8. |
| Targeting.AffixImpliesContains | tests/Decision/BucketingManagerTest.php:890-916 | STARTS_WITH and ENDS_WITH are prefix and suffix tests, so either one implies CONTAINS. |
| Targeting.UnknownOperatorIsFalse | tests/Decision/BucketingManagerTest.php:918-922 | An operator outside the ten known names never matches. |
| Targeting.CheckAndTargetingIsConjunction | tests/Decision/BucketingManagerTest.php:522-595 | `checkAndTargeting` holds iff the list is non-empty and every condition holds: `fs_all_users` always, `fs_users` against the visitor id, any other key read from the context and false when absent. |
| Targeting.AllHoldIff | tests/Decision/BucketingManagerTest.php:586-595 | The recursive AND over conditions equals "every condition holds". |
| Targeting.IsMatchTargetingIsDisjunction | tests/Decision/BucketingManagerTest.php:360-502 | `isMatchTargeting` is false without a targeting rule or group list, and otherwise holds iff some group has conditions that all hold. |
| Targeting.AnyGroupIff | tests/Decision/BucketingManagerTest.php:432-502 | The recursive OR over groups equals "some group matches". |
| Targeting.EmptyGroupsNeverMatch | tests/Decision/BucketingManagerTest.php:375-384 | A group without a `targetings` entry, or with an empty one, never matches. |
| Bucketing.Bucket | tests/Decision/BucketingManagerTest.php:227-241 | The visitor's bucket for a variation group is below 100. |
| Bucketing.PickByAllocation | tests/Decision/BucketingManagerTest.php:193-241 | The walk over cumulative allocations returns the first variation whose running total exceeds the bucket, and nothing when every total stays at or below it. |
| Bucketing.IndexOfVariation | tests/Decision/BucketingManagerTest.php:283-295 | Finds the first variation with the recorded id, or reports that none has it. |
| Bucketing.EmptyGroupHasNoVariation | tests/Decision/BucketingManagerTest.php:188-191 | A group without id or variations yields no variation. |
| Bucketing.HistoryIsSticky | tests/Decision/BucketingManagerTest.php:243-295 | A recorded variation still in the group is returned whatever the allocations, even at allocation 0. |
| Bucketing.DeletedHistoryGivesNothing | tests/Decision/BucketingManagerTest.php:297-340 | A recorded variation that was deleted yields no variation rather than a fresh allocation. |
| Bucketing.FreshAllocationIsFirstCover | tests/Decision/BucketingManagerTest.php:193-241 | Without history, a variation is returned iff some variation's cumulative range covers the bucket, and it is the first such variation. |
| Bucketing.FreshPickHasPositiveAllocation | tests/Decision/BucketingManagerTest.php:244-276 | A variation picked by hash (no history) has a positive allocation; allocation-0 variations are reachable only through history. |
| Bucketing.FullAllocationAlwaysAssigns | tests/Decision/BucketingManagerTest.php:193-241 | When the allocations total at least 100, a visitor without history always gets a variation. |
| Bucketing.FirstMatchingGroup | tests/Decision/BucketingManagerTest.php:343-502 | Returns the first variation group whose targeting matches the visitor, or reports that none matches. |
| Bucketing.CampaignFor | tests/Decision/BucketingManagerTest.php:85-88 | A ruleset campaign yields a campaign iff its first matching group assigns the visitor a variation. The campaign carries the campaign id, that group's id and the variation's id, modifications and reference flag. |
| Bucketing.VisitorCampaigns | tests/Decision/BucketingManagerTest.php:45-95 | A campaign is among the visitor's campaigns iff some ruleset campaign yields it, and there are no more of them than ruleset campaigns. |
| Bucketing.VisitorCampaignsAppend | tests/Decision/BucketingManagerTest.php:45-95 | The visitor's campaigns keep ruleset order: those of a concatenation are those of each part, one after the other. |
| Bucketing.GetCampaignModifications | tests/Decision/BucketingManagerTest.php:45-95 | Never fails. An empty URL, a missing body, a panic body or a body without campaigns give no modification, and only a panic body reports panic. Otherwise the result is the flattening of the visitor's campaigns, one entry per key. |
| Modifications.Entries | tests/Decision/ApiManagerTest.php:218-287 | A campaign's modifications carry its own ids and never an empty key. A campaign without variation, modifications or value carries none. |
| Modifications.EntriesOf | tests/Decision/ApiManagerTest.php:222-229 | Every non-empty key of a value map becomes a modification with the campaign's ids, and every result carries a non-empty key and those ids. |
| Modifications.Find | src/Visitor/DefaultStrategy.php:130-138 | Finds the first modification whose key is strictly equal, and nothing iff the key is absent. |
| Modifications.Upsert | tests/Decision/ApiManagerTest.php:159-163 | A present key keeps the length and the key order; a new key is appended; positions holding other keys are untouched. |
| Modifications.UpsertFind | tests/Decision/ApiManagerTest.php:159-175 | After an upsert, the key reads as the new modification and every other key reads as before. |
| Modifications.FlattenKeys | tests/Decision/ApiManagerTest.php:157-160 | The flattened list has exactly one modification per distinct key, in order of each key's first appearance across campaigns. |
| Modifications.FlattenLastWins | tests/Decision/ApiManagerTest.php:159-175 | The modification kept for a key is the last campaign's: its value, variation group, variation and reference flag. |
| DecisionApi.StatusFor | tests/Decision/ApiManagerTest.php:198-213 | The reported status is READY_PANIC_ON iff panic is on, and never NOT_INITIALIZED. |
| DecisionApi.ModificationsFor | tests/Decision/ApiManagerTest.php:209-215 | A failed call or a panic body gives no modification; otherwise the body's campaigns are flattened. |
| DecisionApi.ApiManager.constructor | tests/Decision/ApiManagerTest.php:18-25 | Panic mode starts off, with no status reported and no error logged. |
| DecisionApi.ApiManager.SetIsPanicMode | tests/Decision/ApiManagerTest.php:25-27 | Sets the flag and reports the status it implies. |
| DecisionApi.ApiManager.GetCampaigns | tests/Decision/ApiManagerTest.php:289-340 | A transport exception returns null with exactly one error log and no other change. A body returns its campaigns, sets the panic flag from it and reports the status. |
| DecisionApi.ApiManager.GetCampaignModifications | tests/Decision/ApiManagerTest.php:157-216 | Returns the flattening (unique keys) or nothing in panic mode, updating the flag and reporting READY or READY_PANIC_ON. |
| VisitorSpec.GetStrategy | tests/Visitor/VisitorDelegateTest.php:280-317 | NOT_INITIALIZED gives NotReady, READY_PANIC_ON gives Panic, READY without consent gives NoConsent, READY with consent gives Default. Each case is an iff. |
| VisitorSpec.SetConsentEffect | src/Visitor/DefaultStrategy.php:17-22 | `setConsent` stores the flag and sends exactly one consent hit with the visitor's ids; nothing else changes. The next strategy is Default or NoConsent accordingly. |
| VisitorSpec.UpdateContextEffect | src/Visitor/DefaultStrategy.php:27-49 | An invalid key or value logs one error and leaves the context. A valid `fs_` key changes nothing. An accepted pair sets exactly that key and keeps all others and the key order. |
| VisitorSpec.UpdateContextCollectionAppend | src/Visitor/DefaultStrategy.php:54-59 | The collection form is `updateContext` applied pair by pair in order: applying a+b equals applying a then b. |
| VisitorSpec.UpdateContextCollectionKeeps | src/Visitor/DefaultStrategy.php:54-59 | Only the context and logs change, keys stay unique, and no `fs_` key enters a context that had none. |
| VisitorSpec.FsPairsIgnored | src/Visitor/DefaultStrategy.php:38-40 | A collection made only of valid `fs_` pairs leaves the visitor unchanged. |
| VisitorSpec.InitialAnonymousId | tests/Visitor/VisitorDelegateTest.php:79-98 | The anonymous id is set iff the visitor is authenticated in decision-API mode. |
| VisitorSpec.PutAllEffect | tests/Visitor/VisitorDelegateTest.php:24-51 | Writing the predefined entries keeps every earlier key, sets each entry, and leaves every other key's value. |
| VisitorSpec.InitialContextShape | tests/Visitor/VisitorDelegateTest.php:24-51 | After construction the context holds the filtered user keys followed by sdk_osName, sdk_deviceType, fs_client, fs_version and fs_users = visitor id. |
| VisitorSpec.AuthenticateEffect | src/Visitor/DefaultStrategy.php:84-100 | In bucketing mode or with an empty id, one log and no other change. Otherwise the anonymous id becomes the old visitor id and the visitor id becomes the new one. |
| VisitorSpec.AuthenticateRoundTrip | src/Visitor/DefaultStrategy.php:84-122 | authenticate(id) then unauthenticate restores the original visitor id and leaves the anonymous id null. |
| VisitorSpec.FalsyIdCannotBeRestored | src/Visitor/DefaultStrategy.php:105-122 | When the original visitor id is "0" (falsy in PHP), unauthenticate after authenticate only logs NOT_AUTHENTICATED. |
| VisitorSpec.Lookup | src/Visitor/DefaultStrategy.php:130-138 | Finds the first modification whose key is strictly equal to the argument; a non-string key finds nothing. |
| VisitorSpec.ModificationValue | src/Visitor/DefaultStrategy.php:143-181 | The value read always has the default's type, and differs from the default only when it is the stored value of a valid, present key. |
| VisitorSpec.ModificationValueFound | src/Visitor/DefaultStrategy.php:143-181 | A valid present key whose value has the default's type reads as the stored value. |
| VisitorSpec.ActivationRulesDiffer | src/Visitor/DefaultStrategy.php:143-181 | The default strategy's activation rule differs from the legacy visitor's iff the stored value is null and the default is not. |
| VisitorSpec.ActivateModificationEffect | src/Visitor/DefaultStrategy.php:244-260 | Exactly one activation is sent iff the modification exists and a tracking manager is attached; only logs and calls change. |
| VisitorSpec.GetModificationEffect | src/Visitor/DefaultStrategy.php:143-181 | One activation is sent exactly when the activation rule holds and a tracking manager is attached. Logs are unchanged iff the read is a valid, present, typed one. |
| VisitorSpec.ModificationInfo | src/Visitor/DefaultStrategy.php:189-226 | A record exists iff the key is valid and present. It is campaignId, variationGroupId, variationId, isReference and value of the first matching modification. |
| VisitorSpec.SendHitEffect | src/Visitor/DefaultStrategy.php:265-288 | Only ready hits are forwarded, stamped with the visitor id, anonymous id and data source. A hit is forwarded iff a tracking manager is attached and the stamped hit is ready. |
| VisitorSpec.PanicRunEffect | tests/Visitor/PanicStrategyTest.php:48-134 | Any run of panic-mode calls leaves identity and context unchanged and only requests campaigns. It appends one error per call (synchronize excepted) whose tag names the operation, in call order. |
| VisitorSpec.PanicTestRun | tests/Visitor/PanicStrategyTest.php:68-124 | The test's twelve calls log the eleven operation names in order and leave consent recorded. |
| Visitors.VisitorDelegate.constructor | tests/Visitor/VisitorDelegateTest.php:19-77 | The new delegate's state is the initial state: filtered user context plus predefined context, anonymous id by authentication and mode, consent as given, no modifications. |
| Visitors.VisitorDelegate.SetVisitorId | tests/Visitor/VisitorDelegateTest.php:136-141 | An empty id logs one VISITOR_ID_ERROR tagged setVisitorId and keeps the id; any other id replaces it. |
| Visitors.VisitorDelegate.SetModifications | tests/Visitor/VisitorDelegateTest.php:70-76 | Replaces the modification list and nothing else. |
| Visitors.VisitorDelegate.GetModifications | tests/Visitor/VisitorDelegateTest.php:70-76 | Returns the stored list unchanged. |
| Visitors.DefaultStrategy.SetConsent | src/Visitor/DefaultStrategy.php:17-22 | The new state is `VisitorSpec.SetConsent` of the old one. |
| Visitors.DefaultStrategy.UpdateContext | src/Visitor/DefaultStrategy.php:27-49 | The new state is `VisitorSpec.UpdateContext` of the old one. |
| Visitors.DefaultStrategy.UpdateContextCollection | src/Visitor/DefaultStrategy.php:54-59 | The loop leaves the state `VisitorSpec.UpdateContextCollection` of the old one. |
| Visitors.DefaultStrategy.ClearContext | src/Visitor/DefaultStrategy.php:64-67 | The context becomes empty and nothing else changes. |
| Visitors.DefaultStrategy.Authenticate | src/Visitor/DefaultStrategy.php:84-100 | The new state is `VisitorSpec.Authenticate` of the old one. |
| Visitors.DefaultStrategy.Unauthenticate | src/Visitor/DefaultStrategy.php:105-122 | The new state is `VisitorSpec.Unauthenticate` of the old one. |
| Visitors.DefaultStrategy.GetObjetModification | src/Visitor/DefaultStrategy.php:130-138 | The loop returns `VisitorSpec.Lookup`: the first strictly equal key's modification, or null. |
| Visitors.DefaultStrategy.ActivateModification | src/Visitor/DefaultStrategy.php:244-260 | The new state is `VisitorSpec.ActivateModification` of the old one. |
| Visitors.DefaultStrategy.GetModification | src/Visitor/DefaultStrategy.php:143-181 | Returns `VisitorSpec.ModificationValue` of the old list; the new state is `VisitorSpec.GetModification` of the old one. |
| Visitors.DefaultStrategy.GetModificationInfo | src/Visitor/DefaultStrategy.php:203-226 | Returns `VisitorSpec.ModificationInfo`; logs one error when it is null. |
| Visitors.DefaultStrategy.SynchronizeModifications | src/Visitor/DefaultStrategy.php:231-239 | Without a decision manager nothing changes; otherwise campaigns are requested for the visitor's id and context and the list is replaced wholesale by the answer. |
| Visitors.DefaultStrategy.SendHit | src/Visitor/DefaultStrategy.php:265-288 | Returns the hit as stamped, and the new state is `VisitorSpec.SendHit` of the old one. |
| Visitors.DefaultStrategy.GetModifications | src/Visitor/DefaultStrategy.php:293-296 | Returns the visitor's list. |
| Visitors.PanicStrategy.LogDeactivated | tests/Visitor/PanicStrategyTest.php:48-56 | Appends one error naming the operation and the panic status, tagged with the operation's name. |
| Visitors.PanicStrategy.UpdateContext | tests/Visitor/PanicStrategyTest.php:92-95 | Only the deactivation log is added. |
| Visitors.PanicStrategy.UpdateContextCollection | tests/Visitor/PanicStrategyTest.php:97-98 | Only the deactivation log is added. |
| Visitors.PanicStrategy.ClearContext | tests/Visitor/PanicStrategyTest.php:100-101 | Only the deactivation log is added; the context is kept. |
| Visitors.PanicStrategy.SynchronizeModifications | tests/Visitor/PanicStrategyTest.php:83-104 | Still fetches campaigns once and replaces the list, with no log. |
| Visitors.PanicStrategy.GetModification | tests/Visitor/PanicStrategyTest.php:106-110 | Returns the caller's default and logs the deactivation. |
| Visitors.PanicStrategy.GetModificationInfo | tests/Visitor/PanicStrategyTest.php:112-114 | Returns null and logs the deactivation. |
| Visitors.PanicStrategy.ActivateModification | tests/Visitor/PanicStrategyTest.php:116-117 | Sends nothing; logs the deactivation. |
| Visitors.PanicStrategy.SendHit | tests/Visitor/PanicStrategyTest.php:119-120 | Sends nothing; logs the deactivation. |
| Visitors.PanicStrategy.SetConsent | tests/Visitor/PanicStrategyTest.php:122-124 | Records consent and logs the consent-specific deactivation message. |
| Visitors.PanicStrategy.GetFlagValue | tests/Visitor/PanicStrategyTest.php:126-128 | Returns the caller's default and logs the deactivation. |
| Visitors.PanicStrategy.UserExposed | tests/Visitor/PanicStrategyTest.php:130-131 | Only the deactivation log is added. |
| Visitors.PanicStrategy.GetFlagMetadata | tests/Visitor/PanicStrategyTest.php:133-134 | Only the deactivation log is added. |
| LegacySpec.ModificationRead | src/Visitor.php:172-215 | In panic mode the default is returned. Otherwise the value equals the default strategy's read. The result always has the default's type. |
| LegacySpec.GetModificationEffect | src/Visitor.php:172-215 | Panic sends nothing. Otherwise one activation is sent exactly on a typed read with activate=true and a tracking manager attached. The log count is unchanged iff an activation is sent or the read is a typed one with activate=false. Only logs and calls change. |
| LegacySpec.LegacyCampaignInfo | src/Visitor.php:263-271 | The four-field record is the default strategy's record without `value`. |
| LegacySpec.ModificationInfoRead | src/Visitor.php:223-255 | A record exists iff not in panic mode and the key is valid and present; it is the first four fields of the default strategy's record. |
| LegacySpec.SendHitEffect | src/Visitor.php:350-377 | Only ready hits are forwarded. A hit is forwarded iff no log is added. A forwarded hit is stamped with the visitor id, and its anonymous id is left as the caller set it. |
| LegacySpec.SetVisitorIdEffect | src/Visitor.php:66-74 | An empty id keeps the previous id and adds one log; any other id replaces it; nothing else changes. |
| LegacySpec.FsKeysAreStored | src/Visitor.php:106-118 | Unlike the default strategy, a valid `fs_` key is stored in the context. |
| LegacySpec.ContextRulesAgree | src/Visitor.php:128-133 | When no valid key starts with `fs_` and the predefined-context check never objects, the legacy visitor and the default strategy build the same context and the same logs from the same pairs. |
| LegacyVisitor.Visitor.constructor | src/Visitor.php:47-52 | The state is `setVisitorId` then `updateContextCollection` applied to an empty visitor. |
| LegacyVisitor.Visitor.SetVisitorId | src/Visitor.php:66-74 | The new state is `LegacySpec.SetVisitorId` of the old one. |
| LegacyVisitor.Visitor.UpdateContext | src/Visitor.php:106-118 | The new state is `LegacySpec.UpdateContext` of the old one. |
| LegacyVisitor.Visitor.UpdateContextCollection | src/Visitor.php:128-133 | The loop leaves the state `LegacySpec.UpdateContextCollection` of the old one. |
| LegacyVisitor.Visitor.GetObjetModification | src/Visitor.php:279-287 | The loop returns the first modification with a strictly equal key, or null. |
| LegacyVisitor.Visitor.ActivateModification | src/Visitor.php:313-344 | Panic, a missing modification or a missing tracking manager each log one error and send nothing; otherwise one activation is sent. |
| LegacyVisitor.Visitor.GetModification | src/Visitor.php:172-215 | Returns `LegacySpec.ModificationRead`; the new state is `LegacySpec.GetModification` of the old one. |
| LegacyVisitor.Visitor.GetModificationInfo | src/Visitor.php:223-255 | Returns `LegacySpec.ModificationInfoRead`; logs one error when it is null. |
| LegacyVisitor.Visitor.SynchronizedModifications | src/Visitor.php:293-306 | Without a decision manager one error and nothing else; otherwise the list is replaced by the manager's answer. |
| LegacyVisitor.Visitor.SendHit | src/Visitor.php:350-377 | Stamps environment id, visitor id, data source, API key and timeout. The new state is `LegacySpec.SendHit` of the old one. |
| Flag.JsonSerialize | src/Flag/FlagMetadata.php:112-122 | Exactly the six keys campaignId, variationGroupId, variationId, isReference, campaignType and slug, in that order, each holding its getter's value. |
| Flag.JsonRoundTrip | src/Flag/FlagMetadata.php:42-122 | Serialising then reading back gives the same metadata: every getter returns its constructor argument. |
| Flag.JsonSerializeInjective | src/Flag/FlagMetadata.php:112-122 | Two metadata values with the same JSON are equal. |
| Flag.GetEmpty | src/Flag/FlagMetadata.php:94-97 | Empty ids and campaign type, isReference false, slug null. |
| Hits.ToArray | tests/Hit/EventTest.php:24-53 | The body starts vid, ds, cid, t with the hit's values, keys unique. An event's keys are exactly vid, ds, cid, t, ec, ea, then el when a label is set and ev when a value is set, in that order. A screen adds exactly dl. |
| Hits.ReadinessExamples | tests/Hit/EventTest.php:112-153 | A hit without its base fields is not ready; with them, an event needs a category and a non-empty action, a screen a non-empty name. |
| Hits.Event.constructor | tests/Hit/EventTest.php:36-43 | The constructor applies the setters' validation to category and action; nothing else is set. |
| Hits.Event.SetVisitorId | tests/Hit/EventTest.php:39-41 | Sets the visitor id only. |
| Hits.Event.SetDs | tests/Hit/EventTest.php:39-41 | Sets the data source only. |
| Hits.Event.SetEnvId | tests/Hit/EventTest.php:37-39 | Sets the environment id only. |
| Hits.Event.SetCategory | tests/Hit/EventTest.php:96-110 | Only the two event categories are accepted; anything else, "" included, keeps the category and logs one error. |
| Hits.Event.SetAction | tests/Hit/EventTest.php:84-85 | A string is stored; anything else keeps the action and logs one error. |
| Hits.Event.SetEventLabel | tests/Hit/EventTest.php:45-88 | A string is stored; anything else keeps the label and logs one error. |
| Hits.Event.SetEventValue | tests/Hit/EventTest.php:50-91 | A number or numeric string is stored; anything else keeps the value and logs one error. |
| Hits.Screen.constructor | tests/Hit/ScreenTest.php:18-21 | The screen name is set from a string argument; nothing else is set. |
| Hits.Screen.SetVisitorId | tests/Hit/ScreenTest.php:19-21 | Sets the visitor id only. |
| Hits.Screen.SetDs | tests/Hit/ScreenTest.php:19-21 | Sets the data source only. |
| Hits.Screen.SetEnvId | tests/Hit/ScreenTest.php:19-21 | Sets the environment id only. |
| Hits.Screen.SetScreenName | tests/Hit/ScreenTest.php:33-34 | A string is stored; anything else keeps the previous name and logs one error. |
| Tracking.BuildActivateBody | src/Api/TrackingManager.php:25-35 | With both ids truthy, vid is the visitor id and aid the anonymous id. Otherwise vid is visitorId ?: anonymousId and aid is null. Every other entry and key is kept. |
| Tracking.ActivateBodyShape | src/Api/TrackingManager.php:46-57 | The activation body holds exactly vid, vaid, caid, cid, aid in that order, naming the variation, the group and the environment. |
| Tracking.ConsentBodyKeys | src/Api/TrackingManager.php:100-117 | The consent body's keys are t, el, ea, ec, cid, ds, vid, cuid in that order. |
| Tracking.ConsentBodyEntries | src/Api/TrackingManager.php:100-108 | t is EVENT, el is the SDK language plus ":true"/":false", ea is "fs_content", ec is "User Engagement", cid is the environment id and ds the data source. |
| Tracking.ConsentReversesActivate | src/Api/TrackingManager.php:25-117 | With both ids truthy the consent body's vid is the activation's aid and its cuid the activation's vid. Otherwise both bodies carry the same vid and null cuid/aid. |
| Tracking.TrackingManager.SendActive | src/Api/TrackingManager.php:39-75 | Returns true and records the activation body on success. On an exception it returns false with exactly one error log. |
| Tracking.TrackingManager.SendHit | src/Api/TrackingManager.php:80-91 | Posts the hit's body on success; an exception is logged once and not propagated. |
| Tracking.TrackingManager.SendConsentHit | src/Api/TrackingManager.php:93-122 | Posts the consent body on success; an exception is logged once and not propagated. |
| HitCaching.HitKey | tests/Api/BatchingOnFailedCachingStrategyTest.php:61-67 | A hit key starts with the visitor id and a colon, followed by the unique id. |
| HitCaching.HitKeysDiffer | tests/Api/BatchingOnFailedCachingStrategyTest.php:61-67 | Keys built for one visitor from different unique ids differ. |
| HitCaching.NoBatchingStrategy.constructor | src/Api/NoBatchingContinuousCachingStrategy.php:13 | `cacheHitKeys` starts empty, and nothing is sent, cached or flushed. |
| HitCaching.NoBatchingStrategy.AddHit | src/Api/NoBatchingContinuousCachingStrategy.php:15-46 | A delivered hit changes no bookkeeping. A failed one gets a fresh key, which alone is appended to `cacheHitKeys`, and is cached as exactly [hit]. |
| HitCaching.NoBatchingStrategy.ActivateFlag | src/Api/NoBatchingContinuousCachingStrategy.php:48-82 | The same success/failure bookkeeping for activations. |
| HitCaching.NoBatchingStrategy.NotConsent | src/Api/NoBatchingContinuousCachingStrategy.php:84-93 | Flushes the purged keys followed by all cached keys in one call, then empties `cacheHitKeys`, other visitors' keys included. An empty merged list changes nothing. |
| HitCaching.Purged | tests/Api/BatchingOnFailedCachingStrategyTest.php:182-198 | The purged pool keeps exactly the entries that are other visitors' or are consent events, in order. |
| HitCaching.PurgedCacheKeys | tests/Api/BatchingOnFailedCachingStrategyTest.php:91-97 | The keys flushed by a purge are exactly those of the removed entries that came from the cache. |
| HitCaching.PurgedAppend | tests/Api/BatchingOnFailedCachingStrategyTest.php:182-198 | The purge of a concatenated pool is the purge of the first part followed by the purge of the second, so surviving entries keep their relative order. |
| HitCaching.PurgedCacheKeysAppend | tests/Api/BatchingOnFailedCachingStrategyTest.php:91-97 | The keys a purge flushes come in pool order: those of the first part, then those of the second. |
| HitCaching.PurgeIdempotent | tests/Api/BatchingOnFailedCachingStrategyTest.php:200-206 | Purging again removes nothing and flushes nothing. |
| HitCaching.CacheKeys | tests/Api/BatchingOnFailedCachingStrategyTest.php:269-294 | The keys flushed after a batch are exactly those of entries hydrated from the cache. |
| HitCaching.CacheKeysAppend | tests/Api/BatchingOnFailedCachingStrategyTest.php:269-294 | The cached keys flushed after a batch come in pool order: those of the first part, then those of the second. |
| HitCaching.PoolHits | tests/Api/BatchingOnFailedCachingStrategyTest.php:507-574 | The hits cached after a failed batch are every pooled hit, in pool order. |
| HitCaching.FreshHits | tests/Api/BatchingOnFailedCachingStrategyTest.php:746-806 | A pooled hit is in the batch iff it is younger than DEFAULT_HIT_CACHE_TIME_MS. |
| HitCaching.FreshHitsAppend | tests/Api/BatchingOnFailedCachingStrategyTest.php:746-806 | The batch of a concatenated pool is the batch of the first part followed by that of the second, so the hits keep pool order. |
| HitCaching.BatchingOnFailedStrategy.HydrateHitsPool | tests/Api/BatchingOnFailedCachingStrategyTest.php:38-42 | Stores key to hit in the hits pool only. |
| HitCaching.BatchingOnFailedStrategy.HydrateActivatePool | tests/Api/BatchingOnFailedCachingStrategyTest.php:44-47 | Stores key to activation in the activation pool only. |
| HitCaching.BatchingOnFailedStrategy.NotConsent | tests/Api/BatchingOnFailedCachingStrategyTest.php:182-206 | Both pools lose the visitor's non-consent entries. The cached keys among them are flushed in one call, when there are any. |
| HitCaching.BatchingOnFailedStrategy.AddHit | tests/Api/BatchingOnFailedCachingStrategyTest.php:100-206 | The hit joins the pool under a fresh key. A consent refusal then purges its visitor's pending entries, and nothing is cached. |
| HitCaching.BatchingOnFailedStrategy.ActivateFlag | tests/Api/BatchingOnFailedCachingStrategyTest.php:100-164 | The activation joins its pool under a fresh key; nothing else changes. |
| HitCaching.BatchingOnFailedStrategy.SendActivateBatch | tests/Api/BatchingOnFailedCachingStrategyTest.php:210-574 | An empty pool sends nothing. Success empties the pool and flushes the hydrated keys. Failure keeps the pool and caches all of it once, never flushing. |
| HitCaching.BatchingOnFailedStrategy.SendHitsBatch | tests/Api/BatchingOnFailedCachingStrategyTest.php:577-806 | The batch holds only unexpired hits. Success empties the pool and flushes the hydrated keys. Failure keeps the pool and caches every pending hit once. |
| HitCaching.BatchingOnFailedStrategy.SendBatch | tests/Api/BatchingOnFailedCachingStrategyTest.php:577-743 | The activation pool then the hits pool. Each pool with something to send is emptied and its batch recorded on success, or kept and cached on failure. The cache sees the activation pool before the hits pool, and flushed keys come in the same order. |

## Left out

- HTTP, shell and header plumbing is not modelled. This covers `shell_exec` to MakeRequest.php, headers, URLs, timeouts and the `httpClient` calls. Each send's outcome is an input.
- The murmur hash is an uninterpreted function: its internals are not part of this model. The concrete variation picks of the hash tests are therefore not proved.
- Log text is not modelled. A log is (level, message kind, tag), and the tag is the operation's name. The real `FlagshipConstant` text and `PROCESS_*` values are not part of this model.
- Constant values not shown in the source are assumed: the hit type names, the request-body item keys (such as `ev` for the event value), `SDK_APP`, `SDK_LANGUAGE`, `SDK_VERSION`, the event category names, and DEFAULT_HIT_CACHE_TIME_MS (four hours).
- Floats are left out: numeric values are integers. PHP loose comparison is narrowed to integers and decimal-integer strings, which is what the targeting tests pin.
- Hits.Event.SetEventValue: accepts integers and decimal-integer strings only. PHP `is_numeric` also accepts a leading `+`, surrounding whitespace, decimals and exponent forms; those strings are rejected here, because floats are not modelled.
- `isKeyValid`, `isValueValid` and `checkFlagshipContext` are not part of this model. The first two are a fixed rule: a non-empty string key; a string, integer or boolean value. `checkFlagshipContext` is a parameter of the default strategy.
- BucketingManager and ApiManager implementations are not part of this model. They are modelled from their tests, and so are the BatchingOnFailed strategy and the Event and Screen classes.
- The bucketing manager's segment-context hit (the test that counts `addHit` calls) is left out.
- The visitor-cache document format is reduced to the assignment-history map.
- NotReadyStrategy, NoConsentStrategy and VisitorDelegate's own source are not part of this model. Only the strategy selection rule is modelled for them.
- The delegate's forwarding of each public method to the current strategy is left out. It is pinned only by mock expectations.
- The abstract strategy's "manager missing" logs are not part of this model. When a manager is missing, the default strategy's operations return silently.
- `Visitors.DefaultStrategy.SetConsent` requires a tracking manager, because the source calls it unconditionally and a null manager is a fatal error in PHP.
- `LegacyVisitor.Visitor.GetModification`, `GetModificationInfo` and `ActivateModification` require a decision manager, because the panic check calls it unconditionally. The panic flag is a parameter.
- Panic mode's `setConsent` sends no consent hit. Its source is not part of this model, and the test expects the "send consent deactivated" message.
- Panic mode's `getFlagMetadata` return value and panic-mode authenticate/unauthenticate are left out (their source is not part of this model). Only their logging is modelled.
- The delegate's JSON view (visitorId, context, hasConsent) is left out: it is serialisation of fields the model already holds.
- `toArray`'s anonymous id entry and the batch size limit of batched sends are left out.
- The legacy visitor's `setContext`, its plain getters, and its null context before the first assignment are left out.
- BucketingPolling (a file-writing polling daemon) and BatchingContinuousCachingStrategy (a wrapper over code not shown) are left out.
- `commonNotConsent` and `generateHitKey` are not part of this model. The purged keys and the unique id are inputs.
- Exposure-callback exception swallowing in the batching tests is left out.
- The consent body's action is "fs_content" in the tracking manager, while the caching strategies recognise consent hits by "fs_consent". The model keeps both strings as written.
- Concurrency is not modelled: every component is sequential.
