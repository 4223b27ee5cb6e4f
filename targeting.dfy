/** The targeting evaluator of the bucketing decision engine: a typed
    comparison-operator test, the AND of a targeting group's conditions and
    the OR over a variation group's targeting groups. */
module Targeting {
  import opened Common
  import opened PhpStrings
  import opened OrderedMap

  /** One condition `{key, operator, value}` of a targeting group. */
  datatype Condition = Condition(key: string, operator: string, value: Value)

  /** A targeting group; `targetings` is absent when the rule omits the key. */
  datatype TargetingGroup = TargetingGroup(targetings: Option<seq<Condition>>)

  /** The `targeting` entry of a variation group. */
  datatype TargetingRule = TargetingRule(targetingGroups: Option<seq<TargetingGroup>>)

  type Context = OMap<string, Value>

  const FS_ALL_USERS: string := "fs_all_users"
  const FS_USERS: string := "fs_users"

  /** The integer a value denotes for numeric comparison: an integer, or a
      string holding a decimal integer. */
  function NumericOf(v: Value): Option<int> {
    match v
    case VInt(i) => Some(i)
    case VStr(s) => ParseInt(s)
    case _ => None
  }

  /** Loose equality as far as the engine needs it: identical values, or two
      values denoting the same integer (5 and "5"). */
  predicate LooseEquals(a: Value, b: Value) {
    a == b || (NumericOf(a).Some? && NumericOf(a) == NumericOf(b))
  }

  function Sign(x: int): int {
    if x < 0 then -1 else if x > 0 then 1 else 0
  }

  /** Three-way ordering of two values: numeric when both denote integers,
      otherwise by bytes, an integer facing a non-numeric string taking its
      decimal form. Booleans, null and lists are not ordered. */
  function Compare(a: Value, b: Value): Option<int> {
    if NumericOf(a).Some? && NumericOf(b).Some? then Some(Sign(NumericOf(a).value - NumericOf(b).value))
    else if a.VStr? && b.VStr? then Some(LexCompare(a.s, b.s))
    else if a.VInt? && b.VStr? then Some(LexCompare(IntToString(a.i), b.s))
    else if a.VStr? && b.VInt? then Some(LexCompare(a.s, IntToString(b.i)))
    else None
  }

  predicate Ordered(a: Value, b: Value, accept: int -> bool) {
    var c := Compare(a, b);
    c.Some? && accept(c.value)
  }

  /** EQUALS: strict equality, or strict membership when the rule holds a list. */
  predicate EqualsTest(contextValue: Value, targetingValue: Value) {
    if targetingValue.VList? then contextValue in targetingValue.items
    else contextValue == targetingValue
  }

  /** CONTAINS: substring of a string, or against a list: an element loosely
      equal to the context value, or a string element found inside it. */
  predicate ContainsTest(contextValue: Value, targetingValue: Value) {
    if targetingValue.VList? then
      exists e :: e in targetingValue.items &&
        (LooseEquals(contextValue, e) ||
         (contextValue.VStr? && e.VStr? && IsSubstring(e.s, contextValue.s)))
    else (contextValue.VStr? && targetingValue.VStr? &&
          IsSubstring(targetingValue.s, contextValue.s))
  }

  /** BucketingManager `testOperator`. */
  predicate TestOperator(operator: string, contextValue: Value, targetingValue: Value) {
    if operator == "EQUALS" then EqualsTest(contextValue, targetingValue)
    else if operator == "NOT_EQUALS" then
      if targetingValue.VList? then contextValue !in targetingValue.items
      else contextValue != targetingValue
    else if operator == "CONTAINS" then ContainsTest(contextValue, targetingValue)
    else if operator == "NOT_CONTAINS" then !ContainsTest(contextValue, targetingValue)
    else if operator == "GREATER_THAN" then Ordered(contextValue, targetingValue, c => c > 0)
    else if operator == "LOWER_THAN" then Ordered(contextValue, targetingValue, c => c < 0)
    else if operator == "GREATER_THAN_OR_EQUALS" then Ordered(contextValue, targetingValue, c => c >= 0)
    else if operator == "LOWER_THAN_OR_EQUALS" then Ordered(contextValue, targetingValue, c => c <= 0)
    else if operator == "STARTS_WITH" then
      contextValue.VStr? && targetingValue.VStr? && targetingValue.s <= contextValue.s
    else if operator == "ENDS_WITH" then
      contextValue.VStr? && targetingValue.VStr? && IsSuffix(targetingValue.s, contextValue.s)
    else false
  }

  predicate IsKnownOperator(operator: string) {
    operator in ["EQUALS", "NOT_EQUALS", "CONTAINS", "NOT_CONTAINS", "GREATER_THAN", "LOWER_THAN",
                 "GREATER_THAN_OR_EQUALS", "LOWER_THAN_OR_EQUALS", "STARTS_WITH", "ENDS_WITH"]
  }

  /** Swapping the operands of a comparison reverses its sign. */
  lemma {:induction false} CompareAntisymmetric(a: Value, b: Value)
    ensures Compare(a, b).Some? == Compare(b, a).Some?
    ensures Compare(a, b).Some? ==> Compare(a, b).value == -Compare(b, a).value
  {
    if NumericOf(a).Some? && NumericOf(b).Some? {
    } else if a.VStr? && b.VStr? {
      LexCompareAntisymmetric(a.s, b.s);
    } else if a.VInt? && b.VStr? {
      LexCompareAntisymmetric(IntToString(a.i), b.s);
    } else if a.VStr? && b.VInt? {
      LexCompareAntisymmetric(a.s, IntToString(b.i));
    }
  }

  /** Every integer and every string is ordered equal to itself. */
  lemma {:induction false} CompareReflexive(a: Value)
    requires a.VInt? || a.VStr?
    ensures Compare(a, a) == Some(0)
  {
    if NumericOf(a).None? {
      LexCompareZeroIffEqual(a.s, a.s);
    }
  }

  /** NOT_EQUALS is the negation of EQUALS on every pair. */
  lemma NotEqualsNegatesEquals(c: Value, t: Value)
    ensures TestOperator("NOT_EQUALS", c, t) == !TestOperator("EQUALS", c, t)
  {
  }

  /** For a context value (never a list) EQUALS is "strictly equal, or a
      strictly equal member of a list rule". */
  lemma EqualsDisjunctiveForm(c: Value, t: Value)
    requires IsValueValid(c)
    ensures TestOperator("EQUALS", c, t) <==> c == t || (t.VList? && c in t.items)
  {
  }

  /** GREATER_THAN and LOWER_THAN are mirror images, and so are the
      _OR_EQUALS variants. */
  lemma {:induction false} OrderOperatorsMirror(a: Value, b: Value)
    ensures TestOperator("GREATER_THAN", a, b) == TestOperator("LOWER_THAN", b, a)
    ensures TestOperator("GREATER_THAN_OR_EQUALS", a, b) == TestOperator("LOWER_THAN_OR_EQUALS", b, a)
  {
    CompareAntisymmetric(a, b);
  }

  /** The strict comparisons are false on equal values; the _OR_EQUALS ones true. */
  lemma {:induction false} OrderOperatorsOnEqualValues(a: Value)
    requires a.VInt? || a.VStr?
    ensures !TestOperator("GREATER_THAN", a, a) && !TestOperator("LOWER_THAN", a, a)
    ensures TestOperator("GREATER_THAN_OR_EQUALS", a, a) && TestOperator("LOWER_THAN_OR_EQUALS", a, a)
  {
    CompareReflexive(a);
  }

  /** A value is _OR_EQUALS-greater exactly when it is strictly greater or
      ordered equal. */
  lemma OrEqualsIsStrictOrTie(a: Value, b: Value)
    ensures TestOperator("GREATER_THAN_OR_EQUALS", a, b) <==>
      TestOperator("GREATER_THAN", a, b) || Compare(a, b) == Some(0)
    ensures TestOperator("LOWER_THAN_OR_EQUALS", a, b) <==>
      TestOperator("LOWER_THAN", a, b) || Compare(a, b) == Some(0)
  {
  }

  /** A string prefix or suffix is also a substring, so STARTS_WITH and
      ENDS_WITH imply CONTAINS. */
  lemma {:induction false} AffixImpliesContains(c: Value, t: Value)
    ensures TestOperator("STARTS_WITH", c, t) ==> TestOperator("CONTAINS", c, t)
    ensures TestOperator("ENDS_WITH", c, t) ==> TestOperator("CONTAINS", c, t)
  {
    if c.VStr? && t.VStr? {
      IsSubstringIff(t.s, c.s);
      if t.s <= c.s {
        assert OccursAt(t.s, c.s, 0);
      }
      if IsSuffix(t.s, c.s) {
        assert OccursAt(t.s, c.s, |c.s| - |t.s|);
      }
    }
  }

  /** Pairs from the operator's test suite, evaluated by the model: type-strict
      EQUALS and membership in a list rule. */
  lemma EqualsExamples()
    ensures !TestOperator("EQUALS", VInt(5), VStr("5"))
    ensures TestOperator("EQUALS", VInt(5), VList([VInt(5), VInt(1), VInt(2), VInt(3)]))
  {
  }

  /** CONTAINS against a list holding a string found inside the context value. */
  lemma ContainsListExample()
    ensures TestOperator("CONTAINS", VStr("nopq_hij"), VList([VStr("abc"), VStr("dfg"), VStr("hij"), VStr("klm")]))
  {
    var hay := "nopq_hij";
    assert "hij" <= hay[5..];
    assert IsSubstring("hij", hay[5..]);
    assert hay[5..] == hay[1..][1..][1..][1..][1..];
    assert IsSubstring("hij", hay[1..][1..][1..][1..]);
    assert IsSubstring("hij", hay[1..][1..][1..]);
    assert IsSubstring("hij", hay[1..][1..]);
    assert IsSubstring("hij", hay[1..]);
    assert IsSubstring("hij", hay);
    assert VStr("hij") in [VStr("abc"), VStr("dfg"), VStr("hij"), VStr("klm")];
  }

  /** CONTAINS against a string that does not occur in the context value. */
  lemma NotContainsExample()
    ensures !TestOperator("CONTAINS", VStr("nopq_hij"), VStr("hidf"))
  {
    var hay := "nopq_hij";
    assert 'd' in "hidf" && 'd' !in hay;
    if IsSubstring("hidf", hay) {
      SubstringCharsOccur("hidf", hay, 'd');
    }
  }

  /** CONTAINS against a list of strings and against a string. */
  lemma ContainsExamples()
    ensures TestOperator("CONTAINS", VStr("nopq_hij"), VList([VStr("abc"), VStr("dfg"), VStr("hij"), VStr("klm")]))
    ensures !TestOperator("CONTAINS", VStr("nopq_hij"), VStr("hidf"))
  {
    ContainsListExample();
    NotContainsExample();
  }


  /** Byte-wise ordering of strings, and "9dlk" above 8. */
  lemma OrderExamples()
    ensures TestOperator("LOWER_THAN", VStr("abz"), VStr("bcg"))
    ensures TestOperator("GREATER_THAN", VStr("9dlk"), VInt(8))
  {
    assert ParseInt("abz") == None by { assert !IsDigit("abz"[0]); }
    assert ParseInt("9dlk") == None by { assert !IsDigit("9dlk"[1]); }
    assert IntToString(8) == "8";
    assert LexCompare("9dlk", "8") == 1;
  }

  /** An operator outside the known ten never matches. */
  lemma UnknownOperatorIsFalse(operator: string, c: Value, t: Value)
    requires !IsKnownOperator(operator)
    ensures !TestOperator(operator, c, t)
  {
  }

  /** One condition of a targeting group. `fs_all_users` always holds;
      `fs_users` tests the visitor id; any other key is read from the
      context and fails when absent. */
  predicate ConditionHolds(cond: Condition, visitorId: string, context: Context) {
    if cond.key == FS_ALL_USERS then true
    else if cond.key == FS_USERS then TestOperator(cond.operator, VStr(visitorId), cond.value)
    else
      match Get(context, cond.key)
      case None => false
      case Some(v) => TestOperator(cond.operator, v, cond.value)
  }

  predicate AllHold(conds: seq<Condition>, visitorId: string, context: Context)
    decreases |conds|
  {
    |conds| == 0 || (ConditionHolds(conds[0], visitorId, context) && AllHold(conds[1..], visitorId, context))
  }

  /** BucketingManager `checkAndTargeting`: an empty group never matches. */
  predicate CheckAndTargeting(conds: seq<Condition>, visitorId: string, context: Context) {
    |conds| > 0 && AllHold(conds, visitorId, context)
  }

  /** `checkAndTargeting` is the conjunction of its (at least one) conditions. */
  lemma {:induction false} CheckAndTargetingIsConjunction(conds: seq<Condition>, visitorId: string, context: Context)
    ensures CheckAndTargeting(conds, visitorId, context) <==>
      |conds| > 0 && forall i :: 0 <= i < |conds| ==> ConditionHolds(conds[i], visitorId, context)
  {
    AllHoldIff(conds, visitorId, context);
  }

  lemma {:induction false} AllHoldIff(conds: seq<Condition>, visitorId: string, context: Context)
    ensures AllHold(conds, visitorId, context) <==>
      forall i :: 0 <= i < |conds| ==> ConditionHolds(conds[i], visitorId, context)
    decreases |conds|
  {
    if |conds| > 0 {
      AllHoldIff(conds[1..], visitorId, context);
      assert forall i :: 1 <= i < |conds| ==> conds[i] == conds[1..][i - 1];
    }
  }

  /** Whether a targeting group has conditions and all of them hold. */
  predicate GroupMatches(group: TargetingGroup, visitorId: string, context: Context) {
    group.targetings.Some? && CheckAndTargeting(group.targetings.value, visitorId, context)
  }

  predicate AnyGroupMatches(groups: seq<TargetingGroup>, visitorId: string, context: Context)
    decreases |groups|
  {
    |groups| > 0 && (GroupMatches(groups[0], visitorId, context) || AnyGroupMatches(groups[1..], visitorId, context))
  }

  /** BucketingManager `isMatchTargeting` on a variation group's `targeting`. */
  predicate IsMatchTargeting(targeting: Option<TargetingRule>, visitorId: string, context: Context) {
    targeting.Some? && targeting.value.targetingGroups.Some? &&
    AnyGroupMatches(targeting.value.targetingGroups.value, visitorId, context)
  }

  /** `isMatchTargeting` is false without a targeting rule or its group list,
      and otherwise holds exactly when some group has conditions that all hold. */
  lemma {:induction false} IsMatchTargetingIsDisjunction(targeting: Option<TargetingRule>, visitorId: string, context: Context)
    ensures IsMatchTargeting(targeting, visitorId, context) <==>
      targeting.Some? && targeting.value.targetingGroups.Some? &&
      exists i :: 0 <= i < |targeting.value.targetingGroups.value| &&
        GroupMatches(targeting.value.targetingGroups.value[i], visitorId, context)
  {
    if targeting.Some? && targeting.value.targetingGroups.Some? {
      AnyGroupIff(targeting.value.targetingGroups.value, visitorId, context);
    }
  }

  lemma {:induction false} AnyGroupIff(groups: seq<TargetingGroup>, visitorId: string, context: Context)
    ensures AnyGroupMatches(groups, visitorId, context) <==>
      exists i :: 0 <= i < |groups| && GroupMatches(groups[i], visitorId, context)
    decreases |groups|
  {
    if |groups| > 0 {
      AnyGroupIff(groups[1..], visitorId, context);
      if exists i :: 0 <= i < |groups| && GroupMatches(groups[i], visitorId, context) {
        var i :| 0 <= i < |groups| && GroupMatches(groups[i], visitorId, context);
        if i > 0 {
          assert groups[1..][i - 1] == groups[i];
        }
      }
    }
  }

  /** A group without conditions never makes the rule match. */
  lemma EmptyGroupsNeverMatch(visitorId: string, context: Context)
    ensures !GroupMatches(TargetingGroup(None), visitorId, context)
    ensures !GroupMatches(TargetingGroup(Some([])), visitorId, context)
  {
  }
}
