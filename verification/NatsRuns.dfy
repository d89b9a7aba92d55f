/** Runs of NATS passes, each cut short anywhere, interleaved with the Controller editing the stored
    server.conf and with someone scaling the StatefulSet: what happens to the cluster routes. */
module NatsRuns {
  import opened Wrappers
  import opened GoStrings
  import opened NatsRoutes
  import opened NatsRouteTheorems
  import opened NatsMergeTheorems
  import opened NatsHosts
  import opened ServerConf
  import opened NatsCluster

  datatype Event =
    | Pass(in_: Input, budget: nat)
    | ControllerAdds(route: string, conf: string)
    | Scale(replicas: int)

  function Step(c: Cluster, e: Event): Cluster {
    match e
    case Pass(in_, budget) => RunPass(c, in_, budget)
    case ControllerAdds(_, conf) => c.(conf := Some(conf))
    case Scale(n) => if c.sts.None? then c else c.(sts := Some(c.sts.value.(replicas := Some(n))))
  }

  function Run(c: Cluster, events: seq<Event>): Cluster {
    if events == [] then c else Step(Run(c, events[..|events| - 1]), events[|events| - 1])
  }

  function RoutesOf(conf: string): seq<string> {
    if ParsedRoutes(conf).Some? then ParsedRoutes(conf).value else []
  }

  predicate Ordinal(r: string) { IsK8sOrdinalRoute(r, HEADLESS, DEFAULT_CLUSTER_PORT) }

  // The routes that are not the operator's own.
  function Foreign(conf: string): set<string> {
    set r | r in RoutesOf(conf) && !Ordinal(r)
  }

  // The replica count is an int32, a generated key is not empty, no value before the routes line holds its key.
  ghost predicate InputOk(in_: Input) {
    && in_.specReplicas <= MAX_REPLICAS && in_.newJsk != ""
    && !Contains(in_.newJsk, ROUTES_KEY) && !Contains(in_.operatorJWT, ROUTES_KEY)
    && !Contains(in_.systemAccount, ROUTES_KEY) && !Contains(in_.ns, ROUTES_KEY)
    && !Contains(in_.instance, ROUTES_KEY)
    && !Contains(MemoryStore(in_), ROUTES_KEY) && !Contains(FileStore(in_), ROUTES_KEY)
  }

  // The Controller adds one clean route of its own and keeps the clean foreign ones, in any layout.
  ghost predicate EventOk(c: Cluster, e: Event) {
    match e
    case Pass(in_, _) => InputOk(in_)
    case ControllerAdds(r, conf) =>
      && Clean(r) && !Ordinal(r) && r in RoutesOf(conf)
      && forall o :: o in Foreign(StoredConf(c)) && Clean(o) ==> o in RoutesOf(conf)
    case Scale(_) => true
  }

  ghost predicate RunOk(c: Cluster, events: seq<Event>) {
    forall i :: 0 <= i < |events| ==> EventOk(Run(c, events[..i]), events[i])
  }

  ghost predicate JskFree(c: Cluster) { !Contains(StoredJsk(c), ROUTES_KEY) }

  lemma HeadlessName()
    ensures PlainName(HEADLESS) && HostName(HEADLESS)
  {
  }

  /* ----- the configuration that a pass writes ----- */

  lemma NewConfFramed(c: Cluster, in_: Input)
    requires InputOk(in_) && JskFree(c)
    ensures var p := ConfParams(StoredJsk(c), in_, PrintRoutes(Routes(c, in_)));
      && NewConf(c, in_) == Framed(Before(p), Routes(c, in_), After(p))
      && WellFramed(Before(p), Routes(c, in_), After(p))
  {
    hide Contains, Routes, PrintRoutes, Before, After, StoredJsk, IndexFrom, Index, MemoryStore, FileStore, LeafAdvertise;
    var p := ConfParams(StoredJsk(c), in_, PrintRoutes(Routes(c, in_)));
    ShortHasNoKey("");
    RoutesLineFoundFirst(p);
  }

  lemma PassKeepsJskFree(c: Cluster, in_: Input, budget: nat)
    requires InputOk(in_) && JskFree(c)
    ensures JskFree(RunPass(c, in_, budget))
    ensures WritesConf(c, in_, budget) ==> JskFree(AfterTls(c, in_)) && StoredConf(AfterTls(c, in_)) == StoredConf(c)
  {
    hide RunPass, AfterTls, NewConf, NewSts, Contains, WritesConf, Completes;
    PassFields(c, in_, budget);
  }

  /* ----- routes survive ----- */

  lemma RouteSurvivesStep(c: Cluster, e: Event, r: string)
    requires EventOk(c, e) && JskFree(c)
    requires r in Foreign(StoredConf(c)) && Clean(r)
    ensures r in Foreign(StoredConf(Step(c, e))) && JskFree(Step(c, e))
  {
    hide RunPass, AfterTls, NewConf, NewSts, Contains, WritesConf, Completes, Clean, ParsedRoutes, IsK8sOrdinalRoute,
      MergedRoutes, BuildServerConf, Framed, InputOk, IndexFrom, Index;
    if e.Pass? {
      var settled := AfterTls(c, e.in_);
      PassFields(c, e.in_, e.budget);
      PassKeepsJskFree(c, e.in_, e.budget);
      if WritesConf(c, e.in_, e.budget) {
        NewConfFramed(settled, e.in_);
        HeadlessName();
        var p := ConfParams(StoredJsk(settled), e.in_, PrintRoutes(Routes(settled, e.in_)));
        ReplicasInRange(e.in_);
        RouteSurvivesRound(HEADLESS, e.in_.Replicas(), DEFAULT_CLUSTER_PORT, StoredConf(c), Before(p), After(p), r);
      }
    }
  }

  lemma ReplicasInRange(in_: Input)
    requires InputOk(in_)
    ensures in_.Replicas() <= MAX_REPLICAS
  {
  }

  lemma RunSplit(c: Cluster, events: seq<Event>)
    requires events != []
    ensures Run(c, events) == Step(Run(c, events[..|events| - 1]), events[|events| - 1])
    ensures RunOk(c, events) ==> RunOk(c, events[..|events| - 1]) && EventOk(Run(c, events[..|events| - 1]), events[|events| - 1])
  {
    hide Run, Step, EventOk;
    var front := events[..|events| - 1];
    assert Run(c, events) == Step(Run(c, front), events[|events| - 1]) by { RunUnfold(c, events); }
    assert forall i :: 0 <= i <= |front| ==> front[..i] == events[..i];
  }

  lemma RunUnfold(c: Cluster, events: seq<Event>)
    requires events != []
    ensures Run(c, events) == Step(Run(c, events[..|events| - 1]), events[|events| - 1])
  {
  }

  lemma {:induction false} RunKeepsJskFree(c: Cluster, events: seq<Event>)
    requires RunOk(c, events) && JskFree(c)
    ensures JskFree(Run(c, events))
  {
    hide RunPass, Contains, RunOk, InputOk, Foreign;
    if events != [] {
      RunSplit(c, events);
      RunKeepsJskFree(c, events[..|events| - 1]);
      var e := events[|events| - 1];
      if e.Pass? { PassKeepsJskFree(Run(c, events[..|events| - 1]), e.in_, e.budget); }
    }
  }

  // A clean foreign route present after some part of a run is present after the whole run, whatever the
  // replica counts, wherever the passes fail, and whatever else the file holds.
  lemma {:induction false} RoutesSurvive(c: Cluster, events: seq<Event>, i: nat, r: string)
    requires RunOk(c, events) && JskFree(c) && i <= |events|
    requires r in Foreign(StoredConf(Run(c, events[..i]))) && Clean(r)
    ensures r in Foreign(StoredConf(Run(c, events)))
    decreases |events|
  {
    hide Run, Step, EventOk, RunOk, Foreign, Clean, JskFree;
    if i == |events| {
      assert events[..i] == events;
    } else {
      var front := events[..|events| - 1];
      RunSplit(c, events);
      assert front[..i] == events[..i];
      RoutesSurvive(c, front, i, r);
      RunKeepsJskFree(c, front);
      RouteSurvivesStep(Run(c, front), events[|events| - 1], r);
    }
  }

  // In particular every route that the Controller ever added.
  lemma AddedRoutesSurvive(c: Cluster, events: seq<Event>, i: nat)
    requires RunOk(c, events) && JskFree(c) && i < |events| && events[i].ControllerAdds?
    ensures events[i].route in RoutesOf(StoredConf(Run(c, events)))
  {
    hide RunOk, Clean, JskFree, IsK8sOrdinalRoute, ParsedRoutes, RunPass;
    var r := events[i].route;
    assert EventOk(Run(c, events[..i]), events[i]) by { EventAt(c, events, i); }
    assert events[..i + 1][..i] == events[..i];
    RunUnfold(c, events[..i + 1]);
    assert Run(c, events[..i + 1]) == Step(Run(c, events[..i]), events[i]);
    RoutesSurvive(c, events, i + 1, r);
  }

  lemma EventAt(c: Cluster, events: seq<Event>, i: nat)
    requires RunOk(c, events) && i < |events|
    ensures EventOk(Run(c, events[..i]), events[i])
  {
  }

  /* ----- exact conservation ----- */

  // Every stored route is clean, as it is when the operator and the Controller are the only writers.
  predicate Tidy(c: Cluster) { AllClean(RoutesOf(StoredConf(c))) }

  // The Controller leaves only clean routes, and its edit adds exactly the one foreign route.
  ghost predicate TidyEvent(c: Cluster, e: Event) {
    EventOk(c, e) &&
    (e.ControllerAdds? ==> AllClean(RoutesOf(e.conf)) && Foreign(e.conf) == Foreign(StoredConf(c)) + {e.route})
  }

  ghost predicate TidyRun(c: Cluster, events: seq<Event>) {
    forall i :: 0 <= i < |events| ==> TidyEvent(Run(c, events[..i]), events[i])
  }

  lemma MergeKeepsForeign(replicas: nat, conf: string)
    requires replicas <= MAX_REPLICAS && AllClean(RoutesOf(conf))
    ensures var merged := MergedRoutes(HEADLESS, replicas, DEFAULT_CLUSTER_PORT, conf);
      && |merged| >= replicas
      && (forall i :: 0 <= i < replicas ==> merged[i] == OrdinalRoute(i, HEADLESS, DEFAULT_CLUSTER_PORT) && Ordinal(merged[i]))
      && (forall r :: r in merged[replicas..] <==> r in Foreign(conf)) && Distinct(merged)
  {
    hide ParsedRoutes, IsK8sOrdinalRoute, OrdinalRoute, Clean, Norm, OtherRoutes;
    var merged := MergedRoutes(HEADLESS, replicas, DEFAULT_CLUSTER_PORT, conf);
    forall i | 0 <= i < replicas
      ensures merged[i] == OrdinalRoute(i, HEADLESS, DEFAULT_CLUSTER_PORT) && Ordinal(merged[i])
    {
      OrdinalIsK8s(i, HEADLESS, DEFAULT_CLUSTER_PORT);
    }
    if ParsedRoutes(conf).Some? {
      var existing := ParsedRoutes(conf).value;
      ForeignByIndex(conf);
      hide MergedRoutes;
      MergeShape(HEADLESS, replicas, DEFAULT_CLUSTER_PORT, conf);
    } else {
      assert merged[replicas..] == [];
      forall i, j | 0 <= i < j < |merged| ensures merged[i] != merged[j] {
        if merged[i] == merged[j] { OrdinalsDistinct(i, j, HEADLESS, DEFAULT_CLUSTER_PORT); }
      }
    }
  }

  lemma ForeignByIndex(conf: string)
    requires ParsedRoutes(conf).Some? && AllClean(RoutesOf(conf))
    ensures var existing := ParsedRoutes(conf).value;
      forall r :: r in Foreign(conf) <==>
        (r != "" && !Ordinal(r) && exists k :: 0 <= k < |existing| && Norm(existing[k]) == r)
  {
    hide ParsedRoutes, IsK8sOrdinalRoute, Norm, NoEdge;
    var existing := ParsedRoutes(conf).value;
    forall k | 0 <= k < |existing|
      ensures Norm(existing[k]) == existing[k] && existing[k] != ""
    {
      CleanNormFixed(existing[k]);
    }
    forall r | r in existing && !Ordinal(r)
      ensures exists k :: 0 <= k < |existing| && Norm(existing[k]) == r
    {
      var k :| 0 <= k < |existing| && existing[k] == r;
      assert Norm(existing[k]) == r;
    }
  }

  // A pass that reaches the configuration write leaves the ordinals 0..replicas-1 and then exactly the foreign
  // routes that were there before, each once.
  lemma PassRoutesExact(c: Cluster, in_: Input, budget: nat)
    requires InputOk(in_) && JskFree(c) && Tidy(c) && WritesConf(c, in_, budget)
    ensures var d := RunPass(c, in_, budget);
      var n := in_.Replicas();
      var routes := RoutesOf(StoredConf(d));
      && Tidy(d) && |routes| >= n
      && (forall i :: 0 <= i < n ==> routes[i] == OrdinalRoute(i, HEADLESS, DEFAULT_CLUSTER_PORT))
      && (forall r :: r in routes[n..] <==> r in Foreign(StoredConf(c))) && Distinct(routes)
      && Foreign(StoredConf(d)) == Foreign(StoredConf(c))
  {
    hide RunPass, AfterTls, NewConf, NewSts, Contains, WritesConf, Completes, Clean, ParsedRoutes, IsK8sOrdinalRoute,
      MergedRoutes, BuildServerConf, Framed, InputOk, IndexFrom, Index, OrdinalRoute;
    var settled, n := AfterTls(c, in_), in_.Replicas();
    PassFields(c, in_, budget);
    PassKeepsJskFree(c, in_, budget);
    NewConfFramed(settled, in_);
    HeadlessName();
    ReplicasInRange(in_);
    var p := ConfParams(StoredJsk(settled), in_, PrintRoutes(Routes(settled, in_)));
    CleanRound(HEADLESS, n, DEFAULT_CLUSTER_PORT, StoredConf(c), Before(p), After(p));
    MergeKeepsForeign(n, StoredConf(c));
    var routes := RoutesOf(StoredConf(RunPass(c, in_, budget)));
    assert routes == MergedRoutes(HEADLESS, n, DEFAULT_CLUSTER_PORT, StoredConf(c));
    assert routes == routes[..n] + routes[n..];
  }

  function Added(events: seq<Event>): set<string> {
    if events == [] then {}
    else
      var e := events[|events| - 1];
      Added(events[..|events| - 1]) + if e.ControllerAdds? then {e.route} else {}
  }

  lemma TidyStep(c: Cluster, e: Event)
    requires TidyEvent(c, e) && JskFree(c) && Tidy(c)
    ensures var d := Step(c, e);
      && JskFree(d) && Tidy(d)
      && Foreign(StoredConf(d)) == Foreign(StoredConf(c)) + if e.ControllerAdds? then {e.route} else {}
  {
    hide RunPass, AfterTls, NewConf, NewSts, Contains, WritesConf, Completes, Clean, ParsedRoutes, IsK8sOrdinalRoute, InputOk;
    if e.Pass? {
      PassFields(c, e.in_, e.budget);
      PassKeepsJskFree(c, e.in_, e.budget);
      if WritesConf(c, e.in_, e.budget) { PassRoutesExact(c, e.in_, e.budget); }
    }
  }

  lemma TidySplit(c: Cluster, events: seq<Event>)
    requires events != [] && TidyRun(c, events)
    ensures TidyRun(c, events[..|events| - 1]) && TidyEvent(Run(c, events[..|events| - 1]), events[|events| - 1])
  {
    hide Run, TidyEvent;
    var front := events[..|events| - 1];
    assert forall i :: 0 <= i <= |front| ==> front[..i] == events[..i];
  }

  // The foreign routes after a run are exactly those at its start plus those the Controller added: passes
  // neither lose nor invent any.
  lemma {:induction false} ForeignRoutesConserved(c: Cluster, events: seq<Event>)
    requires TidyRun(c, events) && JskFree(c) && Tidy(c)
    ensures var d := Run(c, events);
      JskFree(d) && Tidy(d) && Foreign(StoredConf(d)) == Foreign(StoredConf(c)) + Added(events)
  {
    hide Step, TidyEvent, TidyRun, Foreign, JskFree, Tidy;
    if events != [] {
      var front := events[..|events| - 1];
      TidySplit(c, events);
      ForeignRoutesConserved(c, front);
      TidyStep(Run(c, front), events[|events| - 1]);
    }
  }

  // A run that starts from nothing and ends with a pass that wrote its configuration: ordinals 0..replicas-1
  // in order, then exactly the routes ever added.
  lemma RoutesAfterRun(events: seq<Event>, in_: Input, budget: nat)
    requires TidyRun(EMPTY, events + [Pass(in_, budget)])
    requires WritesConf(Run(EMPTY, events), in_, budget)
    ensures var routes := RoutesOf(StoredConf(Run(EMPTY, events + [Pass(in_, budget)])));
      var n := in_.Replicas();
      && |routes| >= n
      && (forall i :: 0 <= i < n ==> routes[i] == OrdinalRoute(i, HEADLESS, DEFAULT_CLUSTER_PORT))
      && (forall r :: r in routes[n..] <==> r in Added(events)) && Distinct(routes)
  {
    hide RunPass, TidyRun, WritesConf, Clean, Contains, Foreign, OrdinalRoute, JskFree, Tidy, InputOk, RoutesOf, StoredConf;
    var all := events + [Pass(in_, budget)];
    assert all[..|all| - 1] == events;
    TidySplit(EMPTY, all);
    EmptyIsTidy();
    ForeignRoutesConserved(EMPTY, events);
    RunUnfold(EMPTY, all);
    PassRoutesExact(Run(EMPTY, events), in_, budget);
  }

  const EMPTY := Cluster(map[], None, None, None)

  lemma EmptyIsTidy()
    ensures JskFree(EMPTY) && Tidy(EMPTY) && Foreign(StoredConf(EMPTY)) == {}
  {
    hide Contains;
    ShortHasNoKey("");
    EmptyConfHasNoRoutes();
  }
}
