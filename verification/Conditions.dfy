/** The ControlPlane's status conditions: the list, with the object's generation, encodes the state
    deploying, updating, ready, or something unknown. */
module Conditions {
  import opened GoStrings

  const READY := "ready"
  const DEPLOYING := "deploying"
  const UPDATING := "updating"

  datatype Status = IsTrue | IsFalse | IsUnknown

  datatype Condition = Condition(
    kind: string,
    status: Status,
    reason: string,
    message: string,
    observedGeneration: int,
    lastTransition: int
  )

  /* ----- setting a condition ----- */

  function MigratedReason(reason: string): string {
    ReplaceAll(ReplaceAll(ToLower(reason), ' ', "_"), '-', "_")
  }

  predicate MigratedChar(c: char) { c != ' ' && c != '-' && !('A' <= c <= 'Z') }

  predicate AllMigrated(s: string) { forall i :: 0 <= i < |s| ==> MigratedChar(s[i]) }

  lemma {:induction false} ReplacedAt(s: string, old_: char, new_: char, i: nat)
    requires i < |s|
    ensures |ReplaceAll(s, old_, [new_])| == |s|
    ensures ReplaceAll(s, old_, [new_])[i] == if s[i] == old_ then new_ else s[i]
  {
    if |s| > 1 {
      ReplacedAt(s[1..], old_, new_, if i == 0 then 0 else i - 1);
    }
  }

  lemma NothingReplaced(old_: char, new_: char)
    ensures ReplaceAll("", old_, [new_]) == ""
  {
  }

  // The migration leaves a reason without capitals, blanks and dashes, and changes it exactly when it had some.
  lemma MigratedReasonMeaning(reason: string)
    ensures AllMigrated(MigratedReason(reason)) && |MigratedReason(reason)| == |reason|
    ensures MigratedReason(reason) == reason <==> AllMigrated(reason)
  {
    hide ReplaceAll, ToLower;
    var lower := ToLower(reason);
    var first := ReplaceAll(lower, ' ', "_");
    if reason == "" {
      NothingReplaced(' ', '_');
      NothingReplaced('-', '_');
    } else {
      ReplacedAt(lower, ' ', '_', 0);
      ReplacedAt(first, '-', '_', 0);
      forall i | 0 <= i < |reason|
        ensures MigratedChar(MigratedReason(reason)[i])
        ensures MigratedReason(reason)[i] == reason[i] <==> MigratedChar(reason[i])
      {
        ReplacedAt(lower, ' ', '_', i);
        ReplacedAt(first, '-', '_', i);
      }
    }
  }

  function Cleared(c: Condition, kind: string, generation: int, now: int): Condition {
    var migrated := c.(reason := MigratedReason(c.reason));
    if c.status == IsTrue then
      migrated.(status := IsFalse, reason := "transition_to_" + kind, lastTransition := now, observedGeneration := generation)
    else migrated
  }

  function ClearedAll(cs: seq<Condition>, kind: string, generation: int, now: int): seq<Condition> {
    seq(|cs|, i requires 0 <= i < |cs| => Cleared(cs[i], kind, generation, now))
  }

  // The first position with this type, or the length of the list.
  function FirstOfKind(cs: seq<Condition>, kind: string): (i: nat)
    ensures i <= |cs| && (i < |cs| ==> cs[i].kind == kind)
    ensures forall j :: 0 <= j < i ==> cs[j].kind != kind
  {
    if cs == [] || cs[0].kind == kind then 0 else 1 + FirstOfKind(cs[1..], kind)
  }

  // meta.SetStatusCondition: overwrites the first entry of the type, or appends.
  function WithStatusCondition(cs: seq<Condition>, c: Condition): seq<Condition> {
    var i := FirstOfKind(cs, c.kind);
    if i == |cs| then cs + [c]
    else cs[i := c.(lastTransition := if cs[i].status != c.status then c.lastTransition else cs[i].lastTransition)]
  }

  function WithCondition(cs: seq<Condition>, kind: string, generation: int, now: int): seq<Condition> {
    WithStatusCondition(ClearedAll(cs, kind, generation, now),
      Condition(kind, IsTrue, "initial_status", "", generation, now))
  }

  // The state that the first true condition stands for.
  function StateOf(cs: seq<Condition>, generation: int): string {
    if cs == [] then DEPLOYING
    else if cs[0].status == IsTrue then if cs[0].observedGeneration == generation then cs[0].kind else UPDATING
    else StateOf(cs[1..], generation)
  }

  class ControlPlane {
    var generation: int
    var conditions: seq<Condition>

    constructor (generation: int, conditions: seq<Condition>)
      ensures this.generation == generation && this.conditions == conditions
    {
      this.generation, this.conditions := generation, conditions;
    }

    method SetCondition(kind: string, now: int)
      modifies this`conditions
      ensures conditions == WithCondition(old(conditions), kind, generation, now)
      ensures SetEffect(old(conditions), conditions, FirstOfKind(old(conditions), kind), kind, generation, now)
    {
      hide MigratedReason, SetEffect;
      ghost var before := conditions;
      for idx := 0 to |conditions|
        invariant |conditions| == |before|
        invariant forall k :: 0 <= k < idx ==> conditions[k] == Cleared(before[k], kind, generation, now)
        invariant forall k :: idx <= k < |before| ==> conditions[k] == before[k]
      {
        var condition := conditions[idx];
        condition := condition.(reason := MigratedReason(condition.reason));
        if condition.status == IsTrue {
          condition := condition.(status := IsFalse, reason := "transition_to_" + kind,
                                  lastTransition := now, observedGeneration := generation);
        }
        conditions := conditions[idx := condition];
      }
      assert conditions == ClearedAll(before, kind, generation, now);
      WithConditionEffects(before, kind, generation, now);
      conditions := WithStatusCondition(conditions, Condition(kind, IsTrue, "initial_status", "", generation, now));
    }

    method GetCondition() returns (state: string)
      ensures state == StateOf(conditions, generation)
    {
      state := DEPLOYING;
      for i := 0 to |conditions|
        invariant state == DEPLOYING && StateOf(conditions, generation) == StateOf(conditions[i..], generation)
      {
        assert conditions[i..][1..] == conditions[i + 1..];
        if conditions[i].status == IsTrue {
          if conditions[i].observedGeneration == generation {
            state := conditions[i].kind;
          } else {
            state := UPDATING;
          }
          break;
        }
      }
    }
  }

  /* ----- what one call establishes ----- */

  ghost predicate OnlyTrue(cs: seq<Condition>, i: int) {
    0 <= i < |cs| && forall j :: 0 <= j < |cs| ==> (cs[j].status == IsTrue <==> j == i)
  }

  predicate NoDuplicates(cs: seq<Condition>) {
    forall i, j :: 0 <= i < j < |cs| ==> cs[i].kind != cs[j].kind
  }

  function Kinds(cs: seq<Condition>): set<string> { set i | 0 <= i < |cs| :: cs[i].kind }

  // The one true condition is the one just set, stamped with the generation.
  lemma WithConditionTrue(cs: seq<Condition>, kind: string, generation: int, now: int)
    ensures var ds, i := WithCondition(cs, kind, generation, now), FirstOfKind(cs, kind);
      OnlyTrue(ds, i) && ds[i].kind == kind && ds[i].observedGeneration == generation
  {
    hide MigratedReason;
    SameKinds(cs, ClearedAll(cs, kind, generation, now), kind);
  }

  // A reason with capitals lowered, and blanks and dashes turned to underscores.
  ghost predicate Lowered(r: string, reason: string) {
    |r| == |reason| && forall k :: 0 <= k < |reason| ==>
      r[k] == if reason[k] == ' ' || reason[k] == '-' then '_'
              else if 'A' <= reason[k] <= 'Z' then (reason[k] as int + 32) as char else reason[k]
  }

  lemma MigratedReasonLowered(reason: string)
    ensures Lowered(MigratedReason(reason), reason)
  {
    hide ReplaceAll, ToLower;
    var lower := ToLower(reason);
    var first := ReplaceAll(lower, ' ', "_");
    if reason == "" {
      NothingReplaced(' ', '_');
      NothingReplaced('-', '_');
    } else {
      ReplacedAt(lower, ' ', '_', 0);
      ReplacedAt(first, '-', '_', 0);
      forall k | 0 <= k < |reason|
        ensures MigratedReason(reason)[k] == if reason[k] == ' ' || reason[k] == '-' then '_'
              else if 'A' <= reason[k] <= 'Z' then (reason[k] as int + 32) as char else reason[k]
      {
        ReplacedAt(lower, ' ', '_', k);
        ReplacedAt(first, '-', '_', k);
      }
    }
  }

  // What one call leaves at each place, field by field: a fresh condition of the type set; every other one that was
  // true is false, dated and marked with the transition, its message kept; the rest keep all but their old reason.
  ghost predicate SetEffect(cs: seq<Condition>, ds: seq<Condition>, i: nat, kind: string, generation: int, now: int) {
    && i <= |cs| <= |ds| && |ds| == (if i == |cs| then |cs| + 1 else |cs|)
    && (forall j :: 0 <= j < i ==> cs[j].kind != kind) && (i < |cs| ==> cs[i].kind == kind)
    && ds[i] == Condition(kind, IsTrue, "initial_status", "", generation, now)
    && (forall j :: 0 <= j < |cs| && j != i && cs[j].status == IsTrue ==>
          ds[j] == Condition(cs[j].kind, IsFalse, "transition_to_" + kind, cs[j].message, generation, now))
    && (forall j :: 0 <= j < |cs| && j != i && cs[j].status != IsTrue ==>
          ds[j] == cs[j].(reason := ds[j].reason) && Lowered(ds[j].reason, cs[j].reason))
  }

  lemma WithConditionEffects(cs: seq<Condition>, kind: string, generation: int, now: int)
    ensures SetEffect(cs, WithCondition(cs, kind, generation, now), FirstOfKind(cs, kind), kind, generation, now)
  {
    hide MigratedReason, Lowered;
    SameKinds(cs, ClearedAll(cs, kind, generation, now), kind);
    forall j | 0 <= j < |cs| ensures Lowered(MigratedReason(cs[j].reason), cs[j].reason) {
      MigratedReasonLowered(cs[j].reason);
    }
  }

  // What a list reads as: "deploying" when nothing is true, else the first true type, or "updating" when that was
  // observed at another generation.
  ghost predicate FirstTrue(cs: seq<Condition>, i: nat) {
    i <= |cs| && (forall j :: 0 <= j < i ==> cs[j].status != IsTrue) && (i < |cs| ==> cs[i].status == IsTrue)
  }

  lemma {:induction false} StateOfMeaning(cs: seq<Condition>, generation: int, i: nat)
    requires FirstTrue(cs, i)
    ensures StateOf(cs, generation) ==
      if i == |cs| then "deploying"
      else if cs[i].observedGeneration == generation then cs[i].kind else "updating"
  {
    if i > 0 {
      FirstTrueTail(cs, i);
      StateOfMeaning(cs[1..], generation, i - 1);
    }
  }

  lemma FirstTrueTail(cs: seq<Condition>, i: nat)
    requires 0 < i && FirstTrue(cs, i)
    ensures cs[0].status != IsTrue && FirstTrue(cs[1..], i - 1)
  {
    assert forall j :: 0 <= j < |cs| - 1 ==> cs[1..][j] == cs[j + 1];
  }

  // The types of the list: the old ones at their places, and the new one at its first place or at the end.
  lemma WithConditionKinds(cs: seq<Condition>, kind: string, generation: int, now: int)
    ensures var ds, i := WithCondition(cs, kind, generation, now), FirstOfKind(cs, kind);
      && |ds| == (if i == |cs| then |cs| + 1 else |cs|) && ds[i].kind == kind
      && (forall j :: 0 <= j < |cs| ==> ds[j].kind == cs[j].kind)
  {
    hide MigratedReason;
    SameKinds(cs, ClearedAll(cs, kind, generation, now), kind);
  }

  lemma WithConditionEffect(cs: seq<Condition>, kind: string, generation: int, now: int)
    ensures var ds := WithCondition(cs, kind, generation, now);
      && (NoDuplicates(cs) ==> NoDuplicates(ds))
      && Kinds(ds) == Kinds(cs) + {kind}
  {
    hide WithCondition;
    WithConditionKinds(cs, kind, generation, now);
    var ds, i := WithCondition(cs, kind, generation, now), FirstOfKind(cs, kind);
    forall k | k in Kinds(cs)
      ensures k in Kinds(ds)
    {
      var j :| 0 <= j < |cs| && cs[j].kind == k;
      assert ds[j].kind == k;
    }
  }

  lemma {:induction false} SameKinds(cs: seq<Condition>, ds: seq<Condition>, kind: string)
    requires |cs| == |ds| && forall j :: 0 <= j < |cs| ==> cs[j].kind == ds[j].kind
    ensures FirstOfKind(cs, kind) == FirstOfKind(ds, kind)
  {
    if cs != [] {
      SameKinds(cs[1..], ds[1..], kind);
    }
  }

  lemma {:induction false} StateOfOnlyTrue(cs: seq<Condition>, i: int, generation: int)
    requires OnlyTrue(cs, i)
    ensures StateOf(cs, generation) == if cs[i].observedGeneration == generation then cs[i].kind else UPDATING
  {
    if i > 0 {
      StateOfOnlyTrue(cs[1..], i - 1, generation);
    }
  }

  // The state just set is the state read back, and reads as updating under any other generation.
  lemma SetThenGet(cs: seq<Condition>, kind: string, generation: int, now: int, later: int)
    ensures StateOf(WithCondition(cs, kind, generation, now), later) == if later == generation then kind else UPDATING
  {
    hide WithCondition;
    WithConditionTrue(cs, kind, generation, now);
    StateOfOnlyTrue(WithCondition(cs, kind, generation, now), FirstOfKind(cs, kind), later);
  }

  /* ----- sequences of calls ----- */

  datatype Call = Call(kind: string, generation: int, now: int)

  function AfterCalls(cs: seq<Condition>, calls: seq<Call>): seq<Condition> {
    if calls == [] then cs
    else
      var last := calls[|calls| - 1];
      WithCondition(AfterCalls(cs, calls[..|calls| - 1]), last.kind, last.generation, last.now)
  }

  function CalledKinds(calls: seq<Call>): set<string> { set i | 0 <= i < |calls| :: calls[i].kind }

  // From any list: after any calls exactly one condition is true, it reads back as the last type set (or as
  // updating under another generation), and a duplicate-free list stays duplicate-free.
  lemma AnyCalls(cs: seq<Condition>, calls: seq<Call>, later: int)
    requires calls != []
    ensures var ds, last := AfterCalls(cs, calls), calls[|calls| - 1];
      && (exists i :: OnlyTrue(ds, i))
      && StateOf(ds, later) == if later == last.generation then last.kind else UPDATING
  {
    hide WithCondition;
    var last := calls[|calls| - 1];
    var before := AfterCalls(cs, calls[..|calls| - 1]);
    WithConditionTrue(before, last.kind, last.generation, last.now);
    assert OnlyTrue(AfterCalls(cs, calls), FirstOfKind(before, last.kind));
    SetThenGet(before, last.kind, last.generation, last.now, later);
  }

  lemma {:induction false} CallsKeepKinds(cs: seq<Condition>, calls: seq<Call>)
    ensures var ds := AfterCalls(cs, calls);
      && Kinds(ds) == Kinds(cs) + CalledKinds(calls)
      && (NoDuplicates(cs) ==> NoDuplicates(ds))
  {
    hide WithCondition, NoDuplicates;
    if calls != [] {
      var front, last := calls[..|calls| - 1], calls[|calls| - 1];
      CallsKeepKinds(cs, front);
      WithConditionEffect(AfterCalls(cs, front), last.kind, last.generation, last.now);
      assert CalledKinds(calls) == CalledKinds(front) + {last.kind} by {
        assert forall i :: 0 <= i < |front| ==> front[i] == calls[i];
        assert calls[|front|].kind == last.kind;
        assert forall i :: 0 <= i < |calls| ==> i < |front| || calls[i].kind == last.kind;
      }
    }
  }

  lemma KindsSnoc(front: seq<Condition>, last: Condition)
    ensures Kinds(front + [last]) == Kinds(front) + {last.kind}
  {
    var cs := front + [last];
    assert cs[|front|].kind == last.kind;
    forall k | k in Kinds(front)
      ensures k in Kinds(cs)
    {
      var i :| 0 <= i < |front| && front[i].kind == k;
      assert cs[i].kind == k;
    }
  }

  lemma {:induction false} DistinctKindsCount(cs: seq<Condition>)
    requires NoDuplicates(cs)
    ensures |Kinds(cs)| == |cs|
  {
    if cs == [] {
      assert Kinds(cs) == {};
    } else {
      var front, last := cs[..|cs| - 1], cs[|cs| - 1];
      DistinctKindsCount(front);
      KindsSnoc(front, last);
      assert cs == front + [last];
      assert last.kind !in Kinds(front);
    }
  }

  // A list that started empty holds one entry for each type ever set.
  lemma OneEntryPerKind(calls: seq<Call>)
    ensures |AfterCalls([], calls)| == |CalledKinds(calls)| && NoDuplicates(AfterCalls([], calls))
  {
    CallsKeepKinds([], calls);
    assert Kinds([]) == {};
    DistinctKindsCount(AfterCalls([], calls));
  }
}
