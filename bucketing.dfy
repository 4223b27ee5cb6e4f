/** The bucketing decision engine: per campaign, the first variation group
    whose targeting matches the visitor picks a variation, by the visitor's
    assignment history when it has one for the group, else by hash bucket
    over the cumulative allocations. */
module Bucketing {
  import opened Common
  import opened Targeting
  import opened Modifications

  datatype BucketVariation = BucketVariation(
    id: string,
    modifications: Option<ModificationBlock>,
    allocation: int,
    reference: bool)

  /** A variation group; `id` is absent in a malformed ruleset. */
  datatype VariationGroup = VariationGroup(
    id: Option<string>,
    targeting: Option<TargetingRule>,
    variations: seq<BucketVariation>)

  datatype BucketingCampaign = BucketingCampaign(id: string, variationGroups: Option<seq<VariationGroup>>)

  /** The downloaded ruleset document. */
  datatype BucketingFile = BucketingFile(panic: bool, campaigns: Option<seq<BucketingCampaign>>)

  /** The murmur hash of a visitor id salted with a variation group id; its
      internals are not part of this model. */
  type Hash = (string, string) -> nat

  /** The visitor's allocation bucket for a variation group. */
  function Bucket(hash: Hash, visitorId: string, groupId: string): (b: nat)
    ensures b < 100
  {
    hash(visitorId, groupId) % 100
  }

  /** The end of variation `i`'s cumulative range: the sum of the
      allocations of variations 0 to `i`. */
  function RangeEnd(vs: seq<BucketVariation>, i: nat): int
    requires i < |vs|
  {
    if i == 0 then vs[0].allocation else vs[0].allocation + RangeEnd(vs[1..], i - 1)
  }

  /** `i` is the first variation whose cumulative range, shifted by `offset`,
      reaches past `bucket`. */
  ghost predicate IsFirstCover(vs: seq<BucketVariation>, bucket: int, offset: int, i: int) {
    0 <= i < |vs| && bucket < offset + RangeEnd(vs, i) &&
    forall j :: 0 <= j < i ==> bucket >= offset + RangeEnd(vs, j)
  }

  /** The walk over cumulative allocations: the index of the first variation
      whose running total exceeds the bucket. */
  function PickByAllocation(vs: seq<BucketVariation>, bucket: int, total: int): (r: Option<nat>)
    ensures r.Some? ==> IsFirstCover(vs, bucket, total, r.value)
    ensures r.None? ==> forall j :: 0 <= j < |vs| ==> bucket >= total + RangeEnd(vs, j)
    decreases |vs|
  {
    if |vs| == 0 then None
    else if bucket < total + vs[0].allocation then Some(0)
    else
      var r := PickByAllocation(vs[1..], bucket, total + vs[0].allocation);
      assert forall j :: 0 < j < |vs| ==> RangeEnd(vs, j) == vs[0].allocation + RangeEnd(vs[1..], j - 1);
      match r
      case None => None
      case Some(i) => Some(i + 1)
  }

  /** The first variation with the given id. */
  function IndexOfVariation(vs: seq<BucketVariation>, id: string): (r: Option<nat>)
    ensures r.Some? ==> r.value < |vs| && vs[r.value].id == id &&
                        forall j :: 0 <= j < r.value ==> vs[j].id != id
    ensures r.None? ==> forall j :: 0 <= j < |vs| ==> vs[j].id != id
  {
    if |vs| == 0 then None
    else if vs[0].id == id then Some(0)
    else
      match IndexOfVariation(vs[1..], id)
      case None => None
      case Some(i) => Some(i + 1)
  }

  /** BucketingManager `getVariation`: nothing for a group without id or
      variations; the recorded variation when the history has one for the
      group (nothing if it was deleted); otherwise the variation whose
      cumulative range holds the visitor's bucket. */
  function GetVariation(group: VariationGroup, visitorId: string, history: map<string, string>,
                        hash: Hash): Option<BucketVariation>
  {
    if group.id.None? || |group.variations| == 0 then None
    else
      var gid := group.id.value;
      var pick :=
        if gid in history then IndexOfVariation(group.variations, history[gid])
        else PickByAllocation(group.variations, Bucket(hash, visitorId, gid), 0);
      match pick
      case None => None
      case Some(i) => Some(group.variations[i])
  }

  /** A group without id or without variations yields no variation. */
  lemma EmptyGroupHasNoVariation(group: VariationGroup, visitorId: string, history: map<string, string>, hash: Hash)
    requires group.id.None? || group.variations == []
    ensures GetVariation(group, visitorId, history, hash).None?
  {
  }

  /** A recorded variation that is still listed is returned whatever the
      allocations are, even when its own allocation is 0. */
  lemma HistoryIsSticky(group: VariationGroup, visitorId: string, history: map<string, string>,
                        hash: Hash, i: nat)
    requires group.id.Some? && group.id.value in history
    requires i < |group.variations| && group.variations[i].id == history[group.id.value]
    requires forall j :: 0 <= j < i ==> group.variations[j].id != group.variations[i].id
    ensures GetVariation(group, visitorId, history, hash) == Some(group.variations[i])
  {
  }

  /** A recorded variation that was deleted from the group yields nothing,
      not a fresh allocation. */
  lemma DeletedHistoryGivesNothing(group: VariationGroup, visitorId: string, history: map<string, string>, hash: Hash)
    requires group.id.Some? && group.id.value in history
    requires forall v :: v in group.variations ==> v.id != history[group.id.value]
    ensures GetVariation(group, visitorId, history, hash).None?
  {
  }

  /** Without history, the variation chosen is the first whose cumulative
      range holds the bucket, and nothing when the ranges end before it. */
  lemma FreshAllocationIsFirstCover(group: VariationGroup, visitorId: string, history: map<string, string>, hash: Hash)
    requires group.id.Some? && group.id.value !in history && |group.variations| > 0
    ensures var r := GetVariation(group, visitorId, history, hash);
            var b := Bucket(hash, visitorId, group.id.value);
            (r.Some? <==> exists i :: IsFirstCover(group.variations, b, 0, i)) &&
            (forall i :: IsFirstCover(group.variations, b, 0, i) ==> r == Some(group.variations[i]))
  {
  }

  lemma {:induction false} RangeEndStep(vs: seq<BucketVariation>, i: nat)
    requires 0 < i < |vs|
    ensures RangeEnd(vs, i) == RangeEnd(vs, i - 1) + vs[i].allocation
    decreases i
  {
    if i > 1 {
      RangeEndStep(vs[1..], i - 1);
    }
  }

  /** A variation with allocation 0 or less is never picked by hash; only the
      history can return it. */
  lemma {:induction false} FreshPickHasPositiveAllocation(group: VariationGroup, visitorId: string,
                                                          history: map<string, string>, hash: Hash)
    requires group.id.Some? && group.id.value !in history
    ensures var r := GetVariation(group, visitorId, history, hash);
            r.Some? ==> r.value.allocation > 0
  {
    var vs := group.variations;
    if |vs| > 0 {
      var p := PickByAllocation(vs, Bucket(hash, visitorId, group.id.value), 0);
      if p.Some? && p.value > 0 {
        RangeEndStep(vs, p.value);
      }
    }
  }

  /** When the allocations cover all 100 buckets, a visitor without history
      is always assigned a variation. */
  lemma FullAllocationAlwaysAssigns(group: VariationGroup, visitorId: string,
                                    history: map<string, string>, hash: Hash)
    requires group.id.Some? && group.id.value !in history && |group.variations| > 0
    requires RangeEnd(group.variations, |group.variations| - 1) >= 100
    ensures GetVariation(group, visitorId, history, hash).Some?
  {
  }

  /** The index of the first group whose targeting matches the visitor. */
  function FirstMatchingGroup(groups: seq<VariationGroup>, visitorId: string, context: Context): (r: Option<nat>)
    ensures r.Some? ==>
      r.value < |groups| && IsMatchTargeting(groups[r.value].targeting, visitorId, context) &&
      forall j :: 0 <= j < r.value ==> !IsMatchTargeting(groups[j].targeting, visitorId, context)
    ensures r.None? ==> forall j :: 0 <= j < |groups| ==> !IsMatchTargeting(groups[j].targeting, visitorId, context)
  {
    if |groups| == 0 then None
    else if IsMatchTargeting(groups[0].targeting, visitorId, context) then Some(0)
    else
      match FirstMatchingGroup(groups[1..], visitorId, context)
      case None => None
      case Some(i) => Some(i + 1)
  }

  /** The campaign a ruleset campaign yields for the visitor: decided by the
      first matching variation group, and nothing when no group matches or
      that group assigns no variation. */
  function CampaignFor(c: BucketingCampaign, visitorId: string, context: Context,
                       history: map<string, string>, hash: Hash): (r: Option<Campaign>)
    ensures r.Some? ==>
      var groups := c.variationGroups.GetOr([]);
      exists i :: 0 <= i < |groups| &&
        IsMatchTargeting(groups[i].targeting, visitorId, context) &&
        (forall j :: 0 <= j < i ==> !IsMatchTargeting(groups[j].targeting, visitorId, context)) &&
        groups[i].id == Some(r.value.variationGroupId) &&
        var v := GetVariation(groups[i], visitorId, history, hash);
        v.Some? && r.value == Campaign(c.id, groups[i].id.value,
                                       Some(CampaignVariation(v.value.id, v.value.modifications, v.value.reference)))
    ensures var groups := c.variationGroups.GetOr([]);
      (exists i :: 0 <= i < |groups| &&
        IsMatchTargeting(groups[i].targeting, visitorId, context) &&
        (forall j :: 0 <= j < i ==> !IsMatchTargeting(groups[j].targeting, visitorId, context)) &&
        GetVariation(groups[i], visitorId, history, hash).Some?) ==> r.Some?
  {
    var groups := c.variationGroups.GetOr([]);
    match FirstMatchingGroup(groups, visitorId, context)
    case None => None
    case Some(i) =>
      match GetVariation(groups[i], visitorId, history, hash)
      case None => None
      case Some(v) =>
        Some(Campaign(c.id, groups[i].id.value, Some(CampaignVariation(v.id, v.modifications, v.reference))))
  }

  /** Some campaign of `cs` gives the visitor `c`. */
  ghost predicate SomeCampaignGives(cs: seq<BucketingCampaign>, visitorId: string, context: Context,
                                    history: map<string, string>, hash: Hash, c: Campaign) {
    exists k :: 0 <= k < |cs| && CampaignFor(cs[k], visitorId, context, history, hash) == Some(c)
  }

  /** A campaign comes from a list's head or from its tail. */
  lemma SomeCampaignGivesCons(cs: seq<BucketingCampaign>, visitorId: string, context: Context,
                              history: map<string, string>, hash: Hash, c: Campaign)
    requires |cs| > 0
    ensures SomeCampaignGives(cs, visitorId, context, history, hash, c) <==>
      CampaignFor(cs[0], visitorId, context, history, hash) == Some(c) ||
      SomeCampaignGives(cs[1..], visitorId, context, history, hash, c)
  {
    if SomeCampaignGives(cs[1..], visitorId, context, history, hash, c) {
      var k :| 0 <= k < |cs| - 1 && CampaignFor(cs[1..][k], visitorId, context, history, hash) == Some(c);
      assert cs[1..][k] == cs[k + 1];
    }
    if SomeCampaignGives(cs, visitorId, context, history, hash, c) {
      var k :| 0 <= k < |cs| && CampaignFor(cs[k], visitorId, context, history, hash) == Some(c);
      if k > 0 {
        assert cs[k] == cs[1..][k - 1];
      }
    }
  }

  /** The visitor's campaigns, in ruleset order. */
  function VisitorCampaigns(cs: seq<BucketingCampaign>, visitorId: string, context: Context,
                            history: map<string, string>, hash: Hash): (r: seq<Campaign>)
    ensures |r| <= |cs|
    ensures forall c :: c in r <==> SomeCampaignGives(cs, visitorId, context, history, hash, c)
  {
    if |cs| == 0 then []
    else
      var rest := VisitorCampaigns(cs[1..], visitorId, context, history, hash);
      var head := CampaignFor(cs[0], visitorId, context, history, hash);
      var r := if head.Some? then [head.value] + rest else rest;
      assert forall c :: c in r <==> SomeCampaignGives(cs, visitorId, context, history, hash, c) by {
        forall c ensures c in r <==> SomeCampaignGives(cs, visitorId, context, history, hash, c) {
          SomeCampaignGivesCons(cs, visitorId, context, history, hash, c);
        }
      }
      r
  }

  /** The visitor's campaigns keep the ruleset's order: those of a
      concatenation are those of each part, one after the other. */
  lemma {:induction false} VisitorCampaignsAppend(a: seq<BucketingCampaign>, b: seq<BucketingCampaign>, visitorId: string,
                                                  context: Context, history: map<string, string>, hash: Hash)
    ensures VisitorCampaigns(a + b, visitorId, context, history, hash) ==
            VisitorCampaigns(a, visitorId, context, history, hash) + VisitorCampaigns(b, visitorId, context, history, hash)
    decreases |a|
  {
    if |a| == 0 {
      assert a + b == b;
    } else {
      assert (a + b)[0] == a[0];
      assert (a + b)[1..] == a[1..] + b;
      VisitorCampaignsAppend(a[1..], b, visitorId, context, history, hash);
    }
  }

  /** What a bucketing `getCampaignModifications` call yields: the
      modifications, and whether the ruleset reported panic. */
  datatype BucketingOutcome = BucketingOutcome(modifications: seq<Modification>, panic: bool)

  /** BucketingManager `getCampaignModifications`. An empty ruleset URL is
      never fetched; a missing body, a panic body or a body without
      campaigns gives no modification; otherwise the visitor's campaigns
      are flattened. */
  function GetCampaignModifications(bucketingUrl: string, file: Option<BucketingFile>, visitorId: string,
                                    context: Context, history: map<string, string>, hash: Hash): (r: BucketingOutcome)
    ensures UniqueKeys(r.modifications)
    ensures r.panic <==> bucketingUrl != "" && file.Some? && file.value.panic
    ensures (bucketingUrl == "" || file.None? || file.value.panic || file.value.campaigns.None?) ==>
              r.modifications == []
    ensures bucketingUrl != "" && file.Some? && !file.value.panic ==>
      r.modifications == Flatten(VisitorCampaigns(file.value.campaigns.GetOr([]), visitorId, context, history, hash))
  {
    if bucketingUrl == "" || file.None? then BucketingOutcome([], false)
    else if file.value.panic then BucketingOutcome([], true)
    else
      var cs := VisitorCampaigns(file.value.campaigns.GetOr([]), visitorId, context, history, hash);
      FlattenKeys(cs);
      BucketingOutcome(Flatten(cs), false)
  }
}
