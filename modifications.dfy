/** Modifications (flag values) and the flattening of a decision's campaigns
    into one ordered list of modifications, one per key. */
module Modifications {
  import opened Common

  /** One flag value with the ids of the campaign that set it. */
  datatype Modification = Modification(
    key: string,
    value: Value,
    campaignId: string,
    variationGroupId: string,
    variationId: string,
    isReference: bool)

  /** The `modifications` entry of a variation: a type tag and the key/value
      map, which a malformed campaign may lack. */
  datatype ModificationBlock = ModificationBlock(kind: string, value: Option<seq<(string, Value)>>)

  datatype CampaignVariation = CampaignVariation(
    id: string,
    modifications: Option<ModificationBlock>,
    reference: bool)

  /** A campaign as the decision API (or the bucketing engine) reports it. */
  datatype Campaign = Campaign(id: string, variationGroupId: string, variation: Option<CampaignVariation>)

  function KeysOf(mods: seq<Modification>): (ks: seq<string>)
    ensures |ks| == |mods|
    ensures forall i :: 0 <= i < |mods| ==> ks[i] == mods[i].key
  {
    seq(|mods|, i requires 0 <= i < |mods| => mods[i].key)
  }

  /** No key occurs twice. */
  predicate UniqueKeys(mods: seq<Modification>) {
    forall i, j :: 0 <= i < j < |mods| ==> mods[i].key != mods[j].key
  }

  /** The modifications a campaign carries, in the order of its value map;
      entries with an empty key are skipped, and a campaign without a
      variation, modifications or value carries none. */
  function Entries(c: Campaign): (r: seq<Modification>)
    ensures forall m :: m in r ==>
      m.key != "" && m.campaignId == c.id && m.variationGroupId == c.variationGroupId &&
      c.variation.Some? && m.variationId == c.variation.value.id &&
      m.isReference == c.variation.value.reference
    ensures (c.variation.None? || c.variation.value.modifications.None? ||
             c.variation.value.modifications.value.value.None?) ==> r == []
  {
    if c.variation.None? || c.variation.value.modifications.None? ||
       c.variation.value.modifications.value.value.None? then []
    else
      var v := c.variation.value;
      EntriesOf(v.modifications.value.value.value, c.id, c.variationGroupId, v.id, v.reference)
  }

  function EntriesOf(pairs: seq<(string, Value)>, campaignId: string, groupId: string,
                     variationId: string, reference: bool): (r: seq<Modification>)
    ensures forall m :: m in r ==>
      m.key != "" && m.campaignId == campaignId && m.variationGroupId == groupId &&
      m.variationId == variationId && m.isReference == reference
    ensures forall p :: p in pairs && p.0 != "" ==>
      Modification(p.0, p.1, campaignId, groupId, variationId, reference) in r
  {
    if |pairs| == 0 then []
    else
      var rest := EntriesOf(pairs[1..], campaignId, groupId, variationId, reference);
      assert forall p :: p in pairs ==> p == pairs[0] || p in pairs[1..];
      if pairs[0].0 == "" then rest
      else [Modification(pairs[0].0, pairs[0].1, campaignId, groupId, variationId, reference)] + rest
  }

  /** Every modification of every campaign, in campaign order. */
  function AllEntries(cs: seq<Campaign>): seq<Modification> {
    if |cs| == 0 then [] else Entries(cs[0]) + AllEntries(cs[1..])
  }

  /** `i` is the position of the first modification with key `key`. */
  predicate IsFirstWithKey(mods: seq<Modification>, key: string, i: int) {
    0 <= i < |mods| && mods[i].key == key && forall j :: 0 <= j < i ==> mods[j].key != key
  }

  /** `i` is the position of the last modification with key `key`. */
  predicate IsLastWithKey(mods: seq<Modification>, key: string, i: int) {
    0 <= i < |mods| && mods[i].key == key && forall j :: i < j < |mods| ==> mods[j].key != key
  }

  function FirstIndex(mods: seq<Modification>, key: string): (r: Option<nat>)
    ensures r.Some? ==> IsFirstWithKey(mods, key, r.value)
    ensures r.None? <==> key !in KeysOf(mods)
  {
    if |mods| == 0 then None
    else if mods[0].key == key then Some(0)
    else
      assert KeysOf(mods) == [mods[0].key] + KeysOf(mods[1..]);
      match FirstIndex(mods[1..], key)
      case None => None
      case Some(i) => Some(i + 1)
  }

  function LastIndex(mods: seq<Modification>, key: string): (r: Option<nat>)
    ensures r.Some? ==> IsLastWithKey(mods, key, r.value)
    ensures r.None? <==> key !in KeysOf(mods)
    decreases |mods|
  {
    if |mods| == 0 then None
    else if mods[|mods| - 1].key == key then Some(|mods| - 1)
    else
      var init := mods[..|mods| - 1];
      assert KeysOf(mods) == KeysOf(init) + [mods[|mods| - 1].key];
      LastIndex(init, key)
  }

  /** The first modification with key `key` (strict string equality). */
  function Find(mods: seq<Modification>, key: string): (r: Option<Modification>)
    ensures r.None? <==> key !in KeysOf(mods)
    ensures r.Some? ==> exists i :: IsFirstWithKey(mods, key, i) && mods[i] == r.value
  {
    match FirstIndex(mods, key)
    case None => None
    case Some(i) => Some(mods[i])
  }

  /** The modification at the first position holding `key` is the one found. */
  lemma FindAt(mods: seq<Modification>, key: string, i: int)
    requires IsFirstWithKey(mods, key, i)
    ensures Find(mods, key) == Some(mods[i])
  {
    assert KeysOf(mods)[i] == key;
  }

  /** The last modification with key `key`. */
  function FindLast(mods: seq<Modification>, key: string): (r: Option<Modification>)
    ensures r.None? <==> key !in KeysOf(mods)
    ensures r.Some? ==> exists i :: IsLastWithKey(mods, key, i) && mods[i] == r.value
  {
    match LastIndex(mods, key)
    case None => None
    case Some(i) => Some(mods[i])
  }

  /** Add one modification: a key already present is overwritten in place,
      a new key is appended. */
  function Upsert(mods: seq<Modification>, m: Modification): (r: seq<Modification>)
    ensures m.key in KeysOf(mods) ==> |r| == |mods| && KeysOf(r) == KeysOf(mods)
    ensures m.key !in KeysOf(mods) ==> r == mods + [m]
    ensures forall i :: 0 <= i < |mods| && mods[i].key != m.key ==> r[i] == mods[i]
  {
    match FirstIndex(mods, m.key)
    case None => mods + [m]
    case Some(i) =>
      var r := mods[i := m];
      assert KeysOf(r) == KeysOf(mods);
      r
  }

  function UpsertAll(acc: seq<Modification>, es: seq<Modification>): seq<Modification>
    decreases |es|
  {
    if |es| == 0 then acc else UpsertAll(Upsert(acc, es[0]), es[1..])
  }

  /** DecisionManager `getModifications`: the campaigns' modifications merged
      into one list, one entry per key. */
  function Flatten(cs: seq<Campaign>): seq<Modification> {
    UpsertAll([], AllEntries(cs))
  }

  /** `ks` with repeated keys dropped, keeping first occurrences, appended
      to the keys already `seen`. */
  function DedupAfter(seen: seq<string>, ks: seq<string>): seq<string>
    decreases |ks|
  {
    if |ks| == 0 then seen
    else if ks[0] in seen then DedupAfter(seen, ks[1..])
    else DedupAfter(seen + [ks[0]], ks[1..])
  }

  lemma {:induction false} UpsertKeepsUnique(mods: seq<Modification>, m: Modification)
    requires UniqueKeys(mods)
    ensures UniqueKeys(Upsert(mods, m))
  {
    var r := Upsert(mods, m);
    if m.key in KeysOf(mods) {
      forall i, j | 0 <= i < j < |r| ensures r[i].key != r[j].key {
        assert r[i].key == KeysOf(r)[i] == KeysOf(mods)[i] == mods[i].key;
        assert r[j].key == KeysOf(r)[j] == KeysOf(mods)[j] == mods[j].key;
      }
    } else {
      forall i | 0 <= i < |mods| ensures mods[i].key != m.key {
        assert mods[i].key == KeysOf(mods)[i];
      }
    }
  }

  /** After an upsert the key reads as the new modification and every other
      key reads as before. */
  lemma UpsertFind(mods: seq<Modification>, m: Modification, key: string)
    ensures Find(Upsert(mods, m), key) == if key == m.key then Some(m) else Find(mods, key)
  {
    var r := Upsert(mods, m);
    var at := FirstIndex(mods, m.key);
    if key == m.key {
      assert IsFirstWithKey(r, key, if at.Some? then at.value else |mods|);
    } else if key in KeysOf(mods) {
      assert IsFirstWithKey(r, key, FirstIndex(mods, key).value);
    } else {
      assert key !in KeysOf(r);
    }
  }

  lemma {:induction false} UpsertAllUnique(acc: seq<Modification>, es: seq<Modification>)
    requires UniqueKeys(acc)
    ensures UniqueKeys(UpsertAll(acc, es))
    decreases |es|
  {
    if |es| > 0 {
      UpsertKeepsUnique(acc, es[0]);
      UpsertAllUnique(Upsert(acc, es[0]), es[1..]);
    }
  }

  lemma {:induction false} UpsertAllKeys(acc: seq<Modification>, es: seq<Modification>)
    ensures KeysOf(UpsertAll(acc, es)) == DedupAfter(KeysOf(acc), KeysOf(es))
    decreases |es|
  {
    if |es| > 0 {
      var next := Upsert(acc, es[0]);
      UpsertAllKeys(next, es[1..]);
      assert KeysOf(es)[1..] == KeysOf(es[1..]);
      if es[0].key !in KeysOf(acc) {
        assert KeysOf(next) == KeysOf(acc) + [es[0].key];
      }
    }
  }

  lemma {:induction false} UpsertAllFind(acc: seq<Modification>, es: seq<Modification>, key: string)
    ensures Find(UpsertAll(acc, es), key) ==
      if key in KeysOf(es) then FindLast(es, key) else Find(acc, key)
    decreases |es|
  {
    if |es| > 0 {
      var next := Upsert(acc, es[0]);
      UpsertAllFind(next, es[1..], key);
      UpsertFind(acc, es[0], key);
      FindLastCons(es, key);
    }
  }

  /** The last modification with `key` is the one at any last index of it. */
  lemma FindLastAt(mods: seq<Modification>, key: string, i: int)
    requires IsLastWithKey(mods, key, i)
    ensures FindLast(mods, key) == Some(mods[i])
  {
    assert KeysOf(mods)[i] == key;
    var k := LastIndex(mods, key).value;
    assert IsLastWithKey(mods, key, k);
  }

  /** A key of a list occurs in its tail or is its head's. */
  lemma KeysOfCons(es: seq<Modification>, key: string)
    requires |es| > 0
    ensures key in KeysOf(es) <==> es[0].key == key || key in KeysOf(es[1..])
  {
    assert KeysOf(es) == [es[0].key] + KeysOf(es[1..]);
  }

  /** The last `key` of a list is the last one of its tail, or else its head. */
  lemma FindLastCons(es: seq<Modification>, key: string)
    requires |es| > 0
    ensures FindLast(es, key) ==
      if key in KeysOf(es[1..]) then FindLast(es[1..], key)
      else if es[0].key == key then Some(es[0]) else None
  {
    var rest := es[1..];
    KeysOfCons(es, key);
    if key in KeysOf(rest) {
      var i := LastIndex(rest, key).value;
      assert IsLastWithKey(rest, key, i);
      forall j | i + 1 < j < |es| ensures es[j].key != key {
        assert es[j] == rest[j - 1];
      }
      assert es[i + 1] == rest[i];
      FindLastAt(es, key, i + 1);
      FindLastAt(rest, key, i);
    } else if es[0].key == key {
      forall j | 0 < j < |es| ensures es[j].key != key {
        assert es[j].key == KeysOf(rest)[j - 1];
      }
      FindLastAt(es, key, 0);
    }
  }

  /** The flattened list holds exactly one modification per distinct key of
      all campaigns, in order of each key's first appearance. */
  lemma FlattenKeys(cs: seq<Campaign>)
    ensures UniqueKeys(Flatten(cs))
    ensures KeysOf(Flatten(cs)) == DedupAfter([], KeysOf(AllEntries(cs)))
  {
    UpsertAllUnique([], AllEntries(cs));
    UpsertAllKeys([], AllEntries(cs));
  }

  /** The modification kept for a key is the one from the last campaign
      setting it: its value and ids win, at the first occurrence's position. */
  lemma FlattenLastWins(cs: seq<Campaign>, key: string)
    ensures Find(Flatten(cs), key) == FindLast(AllEntries(cs), key)
  {
    UpsertAllFind([], AllEntries(cs), key);
  }
}
