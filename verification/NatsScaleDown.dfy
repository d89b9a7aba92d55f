/** The rolling restart that drops cluster routes: a new restartedAt stamp goes with every decrease of the
    StatefulSet's replica count by a pass, and with nothing else. */
module NatsScaleDown {
  import opened Wrappers
  import opened NatsCluster
  import opened NatsRuns

  function RestartedAt(c: Cluster): Option<string> {
    if c.sts.Some? && RESTARTED_AT in c.sts.value.annotations then Some(c.sts.value.annotations[RESTARTED_AT]) else None
  }

  predicate Decreased(c: Cluster, d: Cluster) {
    c.sts.Some? && d.sts.Some? && StoredReplicas(d.sts.value) < StoredReplicas(c.sts.value)
  }

  // One pass: the stamp is new exactly when the stored count decreased, and every other annotation stays.
  lemma StampIffDecrease(c: Cluster, in_: Input, budget: nat)
    requires RestartedAt(c) != Some(in_.now)
    ensures var d := RunPass(c, in_, budget);
      && (RestartedAt(d) == Some(in_.now) <==> Decreased(c, d))
      && (!Decreased(c, d) ==> RestartedAt(d) == RestartedAt(c))
      && (c.sts.Some? ==>
            d.sts.Some? && d.sts.value.annotations - {RESTARTED_AT} == c.sts.value.annotations - {RESTARTED_AT})
      && (Completes(c, in_, budget) ==> d.sts.Some? && StoredReplicas(d.sts.value) == in_.Replicas())
  {
    hide RunPass, AfterTls, NewConf, WritesConf, Completes;
    PassFields(c, in_, budget);
  }

  // The time of the last pass that lowered the stored count, else the stamp at the start of the run.
  function LastDecrease(c: Cluster, events: seq<Event>): Option<string> {
    if events == [] then RestartedAt(c)
    else
      var front, e := events[..|events| - 1], events[|events| - 1];
      if e.Pass? && Decreased(Run(c, front), Run(c, events)) then Some(e.in_.now) else LastDecrease(c, front)
  }

  // Over any run, with the count also changed by others and passes failing anywhere, the stored stamp is
  // that of the last decrease: none is missed, none is overwritten or dropped by a later pass.
  lemma {:induction false} StampIsLastDecrease(c: Cluster, events: seq<Event>)
    ensures RestartedAt(Run(c, events)) == LastDecrease(c, events)
  {
    hide RunPass, AfterTls, NewConf, WritesConf, Completes;
    if events != [] {
      var front, e := events[..|events| - 1], events[|events| - 1];
      StampIsLastDecrease(c, front);
      if e.Pass? { PassFields(Run(c, front), e.in_, e.budget); }
    }
  }

  predicate OnlyFailingPasses(c: Cluster, events: seq<Event>) {
    forall i :: 0 <= i < |events| ==>
      events[i].Pass? && !Completes(Run(c, events[..i]), events[i].in_, events[i].budget)
  }

  lemma {:induction false} FailingPassesKeepSts(c: Cluster, events: seq<Event>)
    requires OnlyFailingPasses(c, events)
    ensures Run(c, events).sts == c.sts
  {
    hide RunPass, AfterTls, NewConf, NewSts, WritesConf, Completes;
    if events != [] {
      var front, e := events[..|events| - 1], events[|events| - 1];
      assert forall i :: 0 <= i <= |front| ==> front[..i] == events[..i];
      FailingPassesKeepSts(c, front);
      PassFields(Run(c, front), e.in_, e.budget);
    }
  }

  // Passes that stop after shrinking the configuration but before the StatefulSet do not lose the restart:
  // the next completed pass stamps exactly when the count still stored exceeds the desired one.
  lemma RestartNotLost(c: Cluster, failing: seq<Event>, in_: Input, budget: nat)
    requires OnlyFailingPasses(c, failing) && Completes(Run(c, failing), in_, budget)
    requires RestartedAt(c) != Some(in_.now)
    ensures var d := RunPass(Run(c, failing), in_, budget);
      RestartedAt(d) == Some(in_.now) <==> c.sts.Some? && StoredReplicas(c.sts.value) > in_.Replicas()
  {
    hide RunPass, Run, AfterTls, NewConf, WritesConf, Completes, OnlyFailingPasses;
    FailingPassesKeepSts(c, failing);
    PassFields(Run(c, failing), in_, budget);
  }
}
