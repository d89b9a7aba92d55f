/** The TLS secrets and the JetStream key over runs of NATS passes that may stop after any write. */
module NatsSecrets {
  import opened Wrappers
  import opened GoStrings
  import opened Decimal
  import opened Certs
  import opened NatsRoutes
  import opened NatsRouteTheorems
  import opened NatsHosts
  import opened ServerConf
  import opened NatsCluster
  import opened NatsRuns

  /* ----- the invariant on stored TLS secrets ----- */

  // Every stored server certificate has its authority stored, was signed by it, and carries it as ca.crt.
  predicate Chained(secrets: map<string, Secret>) {
    && (SITE_CA in secrets ==> secrets[SITE_CA].tlsCrt.isCA)
    && (LOCAL_CA in secrets ==> secrets[LOCAL_CA].tlsCrt.isCA)
    && (SITE_SERVER in secrets ==> SITE_CA in secrets && IssuedBy(secrets[SITE_SERVER], secrets[SITE_CA]))
    && (MQTT_SERVER in secrets ==> LOCAL_CA in secrets && IssuedBy(secrets[MQTT_SERVER], secrets[LOCAL_CA]))
  }

  predicate NamesReplicas(s: Secret, n: nat) {
    forall i :: 0 <= i < n ==> ReplicaHost(i, HEADLESS) in s.tlsCrt.dnsNames
  }

  // The certificate names every replica below the number in its annotation.
  ghost predicate Covers(s: Secret) {
    exists n: nat :: AnnotatedReplicas(s) == Itoa(n) && NamesReplicas(s, n)
  }

  ghost predicate TlsInvariant(secrets: map<string, Secret>) {
    && Chained(secrets)
    && (SITE_SERVER in secrets ==> Covers(secrets[SITE_SERVER]))
  }

  // The writes that keep the invariant: an authority is never replaced or deleted, and a server
  // certificate is written only beside the authority that signed it.
  ghost predicate SafeWrite(secrets: map<string, Secret>, w: Write) {
    match w
    case CreateSecret(s) =>
      && ((s.name == SITE_CA || s.name == LOCAL_CA) ==> s.name !in secrets && s.tlsCrt.isCA)
      && (s.name == SITE_SERVER ==> SITE_CA in secrets && IssuedBy(s, secrets[SITE_CA]) && Covers(s))
      && (s.name == MQTT_SERVER ==> LOCAL_CA in secrets && IssuedBy(s, secrets[LOCAL_CA]))
    case DeleteSecret(name) => name != SITE_CA && name != LOCAL_CA
    case _ => true
  }

  ghost predicate SafeWrites(c: Cluster, ws: seq<Write>)
    decreases |ws|
  {
    ws == [] || (SafeWrite(c.secrets, ws[0]) && SafeWrites(Apply(c, ws[0]), ws[1..]))
  }

  lemma SafeStep(c: Cluster, w: Write)
    requires TlsInvariant(c.secrets) && SafeWrite(c.secrets, w)
    ensures TlsInvariant(Apply(c, w).secrets)
  {
    hide Covers, IssuedBy;
  }

  lemma {:induction false} SafePrefix(c: Cluster, ws: seq<Write>, k: nat)
    requires TlsInvariant(c.secrets) && SafeWrites(c, ws) && k <= |ws|
    ensures TlsInvariant(ApplyAll(c, ws[..k]).secrets)
    decreases |ws|
  {
    hide TlsInvariant, SafeWrite, Apply;
    if k > 0 {
      SafeStep(c, ws[0]);
      SafePrefix(Apply(c, ws[0]), ws[1..], k - 1);
      assert ws[..k][1..] == ws[1..][..k - 1];
    }
  }

  lemma {:induction false} SafeAppend(c: Cluster, a: seq<Write>, b: seq<Write>)
    requires SafeWrites(c, a) && SafeWrites(ApplyAll(c, a), b)
    ensures SafeWrites(c, a + b)
    decreases |a|
  {
    hide SafeWrite, Apply;
    if a == [] {
      assert a + b == b;
    } else {
      SafeAppend(Apply(c, a[0]), a[1..], b);
      assert (a + b)[1..] == a[1..] + b;
    }
  }

  lemma SafeOne(c: Cluster, w: Write)
    requires SafeWrite(c.secrets, w)
    ensures SafeWrites(c, [w])
  {
    assert [w][1..] == [];
  }

  /* ----- creating what is missing ----- */

  // c with the secret stored under its name unless the name was taken.
  function Ensured(c: Cluster, name: string, s: Secret): Cluster {
    if name in c.secrets then c else c.(secrets := c.secrets[name := s])
  }

  lemma CreateMissing(base: Cluster, c: Cluster, name: string, s: Secret)
    requires (name !in c.secrets ==> s.name == name) && (name in base.secrets <==> name in c.secrets)
    ensures ApplyAll(c, Creates(Missing(base, name, s))) == Ensured(c, name, s)
    ensures (name !in c.secrets ==> SafeWrite(c.secrets, CreateSecret(s)))
      ==> SafeWrites(c, Creates(Missing(base, name, s)))
  {
    hide SafeWrite;
    if name !in c.secrets {
      assert Creates(Missing(base, name, s)) == [CreateSecret(s)];
      ApplyOne(c, CreateSecret(s));
      if SafeWrite(c.secrets, CreateSecret(s)) { SafeOne(c, CreateSecret(s)); }
    } else {
      assert Creates(Missing(base, name, s)) == [];
    }
  }

  function Ensured2(c: Cluster, in_: Input): Cluster {
    Ensured(Ensured(c, SITE_CA, SiteCa(c, in_)), LOCAL_CA, LocalCa(c, in_))
  }

  function Ensured4(c: Cluster, in_: Input): Cluster {
    Ensured(Ensured(Ensured2(c, in_), SITE_SERVER, SiteServer(c, in_)), MQTT_SERVER, MqttServer(c, in_))
  }

  lemma CreatesAppend(a: seq<Secret>, b: seq<Secret>)
    ensures Creates(a + b) == Creates(a) + Creates(b)
  {
  }

  lemma NewServersSafe(c: Cluster, in_: Input)
    requires TlsInvariant(c.secrets)
    ensures var d := Ensured2(c, in_);
      && d.secrets[SITE_CA] == SiteCa(c, in_) && d.secrets[LOCAL_CA] == LocalCa(c, in_)
      && (SITE_CA !in c.secrets ==> SafeWrite(c.secrets, CreateSecret(SiteCa(c, in_))))
      && (LOCAL_CA !in c.secrets ==>
            SafeWrite(Ensured(c, SITE_CA, SiteCa(c, in_)).secrets, CreateSecret(LocalCa(c, in_))))
      && SafeWrite(d.secrets, CreateSecret(SiteServer(c, in_)))
      && SafeWrite(Ensured(d, SITE_SERVER, SiteServer(c, in_)).secrets, CreateSecret(MqttServer(c, in_)))
  {
    hide Covers, Split, SiteServerHosts;
    SiteServerCovers(c, in_);
  }

  lemma SiteServerCovers(c: Cluster, in_: Input)
    ensures Covers(SiteServer(c, in_))
  {
    hide SiteServerHosts, Split, TrimSpace, Sans, ReplicaHost, Itoa, SiteCa;
    var n := in_.Replicas();
    var s := SiteServer(c, in_);
    assert AnnotatedReplicas(s) == Itoa(n);
    HeadlessName();
    forall i | 0 <= i < n
      ensures ReplicaHost(i, HEADLESS) in s.tlsCrt.dnsNames
    {
      SansNameReplicas(HEADLESS, in_.ns, n, in_.address, i);
    }
  }

  lemma FourStages(c: Cluster, a: seq<Write>, b: seq<Write>, s: seq<Write>, m: seq<Write>)
    requires var c1 := ApplyAll(c, a);
      var c2 := ApplyAll(c1, b);
      SafeWrites(c, a) && SafeWrites(c1, b) && SafeWrites(c2, s) && SafeWrites(ApplyAll(c2, s), m)
    ensures SafeWrites(c, a + b + s + m)
    ensures ApplyAll(c, a + b + s + m) == ApplyAll(ApplyAll(ApplyAll(ApplyAll(c, a), b), s), m)
  {
    hide SafeWrites, ApplyAll;
    ApplyAppend(c, a, b);
    SafeAppend(c, a, b);
    ApplyAppend(c, a + b, s);
    SafeAppend(c, a + b, s);
    ApplyAppend(c, a + b + s, m);
    SafeAppend(c, a + b + s, m);
  }

  lemma CreatesFour(a: seq<Secret>, b: seq<Secret>, s: seq<Secret>, m: seq<Secret>)
    ensures Creates(a + b + s + m) == Creates(a) + Creates(b) + Creates(s) + Creates(m)
  {
    hide Creates;
    CreatesAppend(a, b);
    CreatesAppend(a + b, s);
    CreatesAppend(a + b + s, m);
  }

  // All creations of a pass are safe, and leave all four secrets stored.
  lemma TlsCreates(c: Cluster, in_: Input)
    requires TlsInvariant(c.secrets)
    ensures SafeWrites(c, Creates(TlsSecrets(c, in_)))
    ensures ApplyAll(c, Creates(TlsSecrets(c, in_))) == Ensured4(c, in_)
  {
    hide TlsInvariant, SafeWrite, SafeWrites, ApplyAll, Creates, Missing, SiteCa, LocalCa, SiteServer, MqttServer;
    NewServersSafe(c, in_);
    var ca, local := SiteCa(c, in_), LocalCa(c, in_);
    var site, mqtt := SiteServer(c, in_), MqttServer(c, in_);
    var c1 := Ensured(c, SITE_CA, ca);
    var c2 := Ensured(c1, LOCAL_CA, local);
    var c3 := Ensured(c2, SITE_SERVER, site);
    SecretNames(c, in_);
    CreateMissing(c, c, SITE_CA, ca);
    CreateMissing(c, c1, LOCAL_CA, local);
    CreateMissing(c, c2, SITE_SERVER, site);
    CreateMissing(c, c3, MQTT_SERVER, mqtt);
    var a, b := Missing(c, SITE_CA, ca), Missing(c, LOCAL_CA, local);
    var s, m := Missing(c, SITE_SERVER, site), Missing(c, MQTT_SERVER, mqtt);
    FourStages(c, Creates(a), Creates(b), Creates(s), Creates(m));
    CreatesFour(a, b, s, m);
  }

  lemma SecretNames(c: Cluster, in_: Input)
    ensures (SITE_CA !in c.secrets ==> SiteCa(c, in_).name == SITE_CA)
    ensures (LOCAL_CA !in c.secrets ==> LocalCa(c, in_).name == LOCAL_CA)
    ensures SiteServer(c, in_).name == SITE_SERVER && MqttServer(c, in_).name == MQTT_SERVER
  {
    hide Split, SiteServerHosts;
  }

  /* ----- the invariant over whole runs ----- */

  lemma FrontSafe(c: Cluster, in_: Input)
    requires TlsInvariant(c.secrets)
    ensures SafeWrites(c, SecretWrites(c, in_))
    ensures TlsInvariant(AfterStale(c, in_).secrets)
    ensures AfterTls(c, in_) == Ensured4(AfterStale(c, in_), in_)
  {
    hide TlsInvariant, TlsSecrets, Creates, Ensured4;
    var jsk := JskWrites(c, in_);
    var c1 := AfterJsk(c, in_);
    JskSafe(c, in_);
    var stale := StaleWrites(c1, in_);
    StaleSafe(c1, in_);
    SafePrefix(c1, stale, |stale|);
    assert stale[..|stale|] == stale;
    TlsCreates(AfterStale(c, in_), in_);
    hide JskWrites, StaleWrites, ApplyAll, SafeWrites;
    SafeAppend(c, jsk, stale);
    ApplyAppend(c, jsk, stale);
    SafeAppend(c, jsk + stale, Creates(TlsSecrets(AfterStale(c, in_), in_)));
  }

  lemma JskSafe(c: Cluster, in_: Input)
    ensures SafeWrites(c, JskWrites(c, in_)) && AfterJsk(c, in_).secrets == c.secrets
  {
    SafeOne(c, CreateJsk(in_.newJsk));
    ApplyOne(c, CreateJsk(in_.newJsk));
  }

  lemma StaleSafe(c: Cluster, in_: Input)
    ensures SafeWrites(c, StaleWrites(c, in_))
  {
    hide AnnotatedReplicas;
    var first, second := DeleteSecret(SITE_SERVER), DeleteSecret(MQTT_SERVER);
    SafeOne(Apply(c, first), second);
    assert [first, second][1..] == [second];
  }

  lemma PassKeepsTls(c: Cluster, in_: Input, budget: nat)
    requires TlsInvariant(c.secrets)
    ensures TlsInvariant(RunPass(c, in_, budget).secrets)
  {
    hide TlsInvariant, SecretWrites, SafeWrites, AfterTls, NewConf, NewSts, ApplyAll;
    if !Blocked(c) {
      hide RunPass, PassWrites;
      FrontSafe(c, in_);
      PassEnds(c, in_, budget);
      var front := SecretWrites(c, in_);
      if budget <= |front| {
        SafePrefix(c, front, budget);
      } else {
        SafePrefix(c, front, |front|);
        assert front[..|front|] == front;
        SecretWritesEnd(c, in_);
      }
    }
  }

  lemma {:induction false} TlsAlways(c: Cluster, events: seq<Event>)
    requires TlsInvariant(c.secrets)
    ensures TlsInvariant(Run(c, events).secrets)
  {
    hide TlsInvariant, RunPass;
    if events != [] {
      var e := events[|events| - 1];
      TlsAlways(c, events[..|events| - 1]);
      if e.Pass? { PassKeepsTls(Run(c, events[..|events| - 1]), e.in_, e.budget); }
    }
  }

  // From an empty store, at every point of every run, however passes fail: each stored server certificate
  // has its authority stored and carries that authority's certificate.
  lemma CertificateChainAlways(events: seq<Event>)
    ensures Chained(Run(EMPTY, events).secrets)
  {
    TlsAlways(EMPTY, events);
  }

  /* ----- host coverage ----- */

  lemma StaleGone(c: Cluster, in_: Input)
    ensures var d := ApplyAll(c, StaleWrites(c, in_));
      && (SITE_SERVER in d.secrets ==> AnnotatedReplicas(d.secrets[SITE_SERVER]) == Itoa(in_.Replicas()))
      && d.secrets == (if SITE_SERVER in c.secrets && AnnotatedReplicas(c.secrets[SITE_SERVER]) != Itoa(in_.Replicas())
                       then c.secrets - {SITE_SERVER, MQTT_SERVER} else c.secrets)
  {
    hide AnnotatedReplicas, Itoa;
    var first, second := DeleteSecret(SITE_SERVER), DeleteSecret(MQTT_SERVER);
    if StaleWrites(c, in_) != [] {
      assert [first, second][1..] == [second];
      ApplyOne(Apply(c, first), second);
      assert c.secrets - {SITE_SERVER} - {MQTT_SERVER} == c.secrets - {SITE_SERVER, MQTT_SERVER};
    }
  }

  // The site server's certificate after the secret stage is the one for the desired replica count.
  lemma SiteServerFresh(c: Cluster, in_: Input)
    requires TlsInvariant(c.secrets)
    ensures var d := AfterTls(c, in_);
      && SITE_SERVER in d.secrets
      && AnnotatedReplicas(d.secrets[SITE_SERVER]) == Itoa(in_.Replicas())
      && Covers(d.secrets[SITE_SERVER])
  {
    hide Covers, ApplyAll, StaleWrites, JskWrites, AfterTls, Itoa, SiteCa, LocalCa, MqttServer, Generated, Chained;
    FrontSafe(c, in_);
    StaleGone(AfterJsk(c, in_), in_);
    SiteServerCovers(AfterStale(c, in_), in_);
  }

  // After a pass that wrote its configuration, the host of every ordinal route in server.conf is among the
  // names of the stored site-server certificate.
  lemma RouteHostsCertified(c: Cluster, in_: Input, budget: nat)
    requires InputOk(in_) && JskFree(c) && Tidy(c) && TlsInvariant(c.secrets) && WritesConf(c, in_, budget)
    ensures var d := RunPass(c, in_, budget);
      && SITE_SERVER in d.secrets
      && forall r :: r in RoutesOf(StoredConf(d)) && Ordinal(r) ==>
           RouteHost(r, DEFAULT_CLUSTER_PORT) in d.secrets[SITE_SERVER].tlsCrt.dnsNames
  {
    hide RunPass, AfterTls, NewConf, NewSts, TlsInvariant, WritesConf, Completes, InputOk, JskFree, Tidy, RoutesOf,
      IsK8sOrdinalRoute, RouteHost, OrdinalRoute, AnnotatedReplicas, Distinct, Itoa, ReplicaHost;
    var d, n := RunPass(c, in_, budget), in_.Replicas();
    PassFields(c, in_, budget);
    SiteServerFresh(c, in_);
    var s := d.secrets[SITE_SERVER];
    var m: nat :| AnnotatedReplicas(s) == Itoa(m) && NamesReplicas(s, m);
    ItoaInjective(m, n);
    PassRoutesExact(c, in_, budget);
    forall r | r in RoutesOf(StoredConf(d)) && Ordinal(r)
      ensures RouteHost(r, DEFAULT_CLUSTER_PORT) in s.tlsCrt.dnsNames
    {
      var i := OrdinalAmong(RoutesOf(StoredConf(d)), n, r, Foreign(StoredConf(c)));
      OrdinalRouteHost(i, HEADLESS, DEFAULT_CLUSTER_PORT);
      assert ReplicaHost(i, HEADLESS) in s.tlsCrt.dnsNames;
    }
  }

  // In a list of n ordinals and then foreign routes, an ordinal is one of the first n.
  lemma OrdinalAmong(routes: seq<string>, n: nat, r: string, foreign: set<string>) returns (i: nat)
    requires n <= |routes| && r in routes && r !in foreign
    requires forall k :: 0 <= k < n ==> routes[k] == OrdinalRoute(k, HEADLESS, DEFAULT_CLUSTER_PORT)
    requires forall o :: o in routes[n..] <==> o in foreign
    ensures i < n && r == OrdinalRoute(i, HEADLESS, DEFAULT_CLUSTER_PORT)
  {
    hide OrdinalRoute;
    assert routes == routes[..n] + routes[n..];
    assert r in routes[..n];
    i :| 0 <= i < n && routes[..n][i] == r;
  }

  // The same over whole runs from an empty store.
  lemma RouteHostsCertifiedAfterRun(events: seq<Event>, in_: Input, budget: nat)
    requires TidyRun(EMPTY, events) && InputOk(in_) && WritesConf(Run(EMPTY, events), in_, budget)
    ensures var d := RunPass(Run(EMPTY, events), in_, budget);
      && SITE_SERVER in d.secrets
      && forall r :: r in RoutesOf(StoredConf(d)) && Ordinal(r) ==>
           RouteHost(r, DEFAULT_CLUSTER_PORT) in d.secrets[SITE_SERVER].tlsCrt.dnsNames
  {
    hide RunPass, TidyRun, InputOk, WritesConf, JskFree, Tidy, IsK8sOrdinalRoute, RouteHost, RoutesOf;
    EmptyIsTidy();
    ForeignRoutesConserved(EMPTY, events);
    TlsAlways(EMPTY, events);
    RouteHostsCertified(Run(EMPTY, events), in_, budget);
  }

  /* ----- the MQTT certificate is the exception ----- */

  // The annotation of the MQTT server's certificate after the secret stage is the desired count exactly when it
  // was absent, already right, or dropped together with a stale site-server certificate.
  lemma MqttFreshIff(c: Cluster, in_: Input)
    requires TlsInvariant(c.secrets)
    ensures var d, n := AfterTls(c, in_), Itoa(in_.Replicas());
      && MQTT_SERVER in d.secrets
      && (AnnotatedReplicas(d.secrets[MQTT_SERVER]) == n
          <==> (MQTT_SERVER !in c.secrets
             || AnnotatedReplicas(c.secrets[MQTT_SERVER]) == n
             || (SITE_SERVER in c.secrets && AnnotatedReplicas(c.secrets[SITE_SERVER]) != n)))
  {
    hide Covers, ApplyAll, StaleWrites, JskWrites, AfterTls, Itoa, SiteCa, LocalCa, SiteServer, Generated, Chained;
    FrontSafe(c, in_);
    JskSafe(c, in_);
    StaleGone(AfterJsk(c, in_), in_);
  }

  // A pass that stops between the two deletions leaves the old MQTT certificate to the next one, which keeps it.
  lemma MqttStaysStale(c: Cluster, first: Input, second: Input, budget: nat)
    requires TlsInvariant(c.secrets) && SITE_SERVER in c.secrets && MQTT_SERVER in c.secrets
    requires c.jsk.Some? && c.jsk.value != ""
    requires AnnotatedReplicas(c.secrets[SITE_SERVER]) != Itoa(first.Replicas())
    ensures var stopped := RunPass(c, first, 1);
      && SITE_SERVER !in stopped.secrets
      && (WritesConf(stopped, second, budget) ==>
            var d := RunPass(stopped, second, budget);
            MQTT_SERVER in d.secrets && d.secrets[MQTT_SERVER] == c.secrets[MQTT_SERVER])
  {
    hide Itoa, AnnotatedReplicas, TlsInvariant, AfterTls, WritesConf, Completes, PassWrites, RunPass, Ensured4, TlsSecrets, Creates;
    FirstDeletion(c, first);
    var stopped := RunPass(c, first, 1);
    PassKeepsTls(c, first, 1);
    PassFields(stopped, second, budget);
    FrontSafe(stopped, second);
    JskSafe(stopped, second);
    StaleGone(AfterJsk(stopped, second), second);
    EnsuredKeeps(AfterStale(stopped, second), second);
  }

  lemma EnsuredKeeps(c: Cluster, in_: Input)
    ensures MQTT_SERVER in c.secrets ==>
      MQTT_SERVER in Ensured4(c, in_).secrets && Ensured4(c, in_).secrets[MQTT_SERVER] == c.secrets[MQTT_SERVER]
  {
    hide SiteCa, LocalCa, SiteServer, MqttServer;
  }

  lemma FirstDeletion(c: Cluster, in_: Input)
    requires SITE_SERVER in c.secrets && c.jsk.Some? && c.jsk.value != ""
    requires AnnotatedReplicas(c.secrets[SITE_SERVER]) != Itoa(in_.Replicas())
    ensures RunPass(c, in_, 1) == c.(secrets := c.secrets - {SITE_SERVER})
  {
    hide Itoa, AnnotatedReplicas, TlsSecrets, NewConf, NewSts, AfterStale;
    var ws := PassWrites(c, in_);
    assert ws[0] == DeleteSecret(SITE_SERVER);
    assert ws[..1] == [ws[0]];
    ApplyOne(c, ws[0]);
  }

  /* ----- the JetStream key ----- */

  // A stored key is never changed by any run.
  lemma {:induction false} JskStable(c: Cluster, events: seq<Event>)
    requires c.jsk.Some?
    ensures Run(c, events).jsk == c.jsk
  {
    hide RunPass, AfterTls, NewConf, NewSts, WritesConf, Completes;
    if events != [] {
      var front, e := events[..|events| - 1], events[|events| - 1];
      JskStable(c, front);
      if e.Pass? { PassFields(Run(c, front), e.in_, e.budget); }
    }
  }

  // Every configuration that a pass writes holds the stored key between quotes on a line of its own.
  lemma ConfEmbedsKey(c: Cluster, in_: Input, budget: nat)
    requires WritesConf(c, in_, budget)
    ensures var d := RunPass(c, in_, budget);
      && d.jsk.Some?
      && Contains(StoredConf(d), "\n  key: \"" + EscapeConfString(d.jsk.value) + "\"\n")
      && ('"' !in d.jsk.value ==> Contains(StoredConf(d), "\n  key: \"" + d.jsk.value + "\"\n"))
  {
    hide RunPass, AfterTls, NewSts, WritesConf, Completes, Contains, BuildServerConf, Routes, PrintRoutes, EscapeConfString;
    PassFields(c, in_, budget);
    var settled := AfterTls(c, in_);
    KeyInServerConf(ConfParams(StoredJsk(settled), in_, PrintRoutes(Routes(settled, in_))));
  }

  // Along any run, all configurations written after the i-th event embed the key that was stored then.
  lemma SameKeyEverywhere(c: Cluster, events: seq<Event>, i: nat, j: nat)
    requires i <= j < |events| && Run(c, events[..i]).jsk.Some?
    requires events[j].Pass? && WritesConf(Run(c, events[..j]), events[j].in_, events[j].budget)
    ensures var key, conf := Run(c, events[..i]).jsk.value, StoredConf(Run(c, events[..j + 1]));
      && Contains(conf, "\n  key: \"" + EscapeConfString(key) + "\"\n")
      && ('"' !in key ==> Contains(conf, "\n  key: \"" + key + "\"\n"))
  {
    hide RunPass, WritesConf, Contains, EscapeConfString, Run;
    var k := events[j];
    assert events[..j + 1][..j] == events[..j];
    RunUnfold(c, events[..j + 1]);
    ConfEmbedsKey(Run(c, events[..j]), k.in_, k.budget);
    RunSuffix(c, events[..i], events[i..j + 1]);
    assert events[..i] + events[i..j + 1] == events[..j + 1];
    JskStable(Run(c, events[..i]), events[i..j + 1]);
  }

  lemma {:induction false} RunSuffix(c: Cluster, a: seq<Event>, b: seq<Event>)
    ensures Run(c, a + b) == Run(Run(c, a), b)
  {
    hide Step;
    if b == [] {
      assert a + b == a;
    } else {
      RunSuffix(c, a, b[..|b| - 1]);
      assert (a + b)[..|a + b| - 1] == a + b[..|b| - 1];
    }
  }

  // What is left of a run when its passes are taken out.
  function WithoutPasses(events: seq<Event>): seq<Event> {
    if events == [] then []
    else
      var front, e := events[..|events| - 1], events[|events| - 1];
      WithoutPasses(front) + if e.Pass? then [] else [e]
  }

  lemma BlockedPass(c: Cluster, in_: Input, budget: nat)
    requires c.jsk == Some("")
    ensures RunPass(c, in_, budget) == c
  {
  }

  // From a store whose key secret holds no key, a whole run does exactly what others do in it: no pass of it
  // changes a TLS secret, the key, the configuration or the StatefulSet, and none completes.
  lemma {:induction false} EmptyKeyBlocks(c: Cluster, events: seq<Event>)
    requires c.jsk == Some("")
    ensures Run(c, events) == Run(c, WithoutPasses(events)) && Run(c, events).jsk == Some("")
    ensures forall i :: 0 <= i < |events| && events[i].Pass? ==>
      !Completes(Run(c, events[..i]), events[i].in_, events[i].budget)
  {
    hide PassWrites, RunPass;
    if events != [] {
      var front, e := events[..|events| - 1], events[|events| - 1];
      EmptyKeyBlocks(c, front);
      assert forall i :: 0 <= i <= |front| ==> front[..i] == events[..i];
      var rest := WithoutPasses(events);
      if e.Pass? {
        assert rest == WithoutPasses(front);
        BlockedPass(Run(c, front), e.in_, e.budget);
      } else {
        assert rest[..|rest| - 1] == WithoutPasses(front) && rest[|rest| - 1] == e;
      }
    }
  }

  lemma {:induction false} EmptyKeyIffAtStart(c: Cluster, events: seq<Event>)
    requires forall i :: 0 <= i < |events| && events[i].Pass? ==> events[i].in_.newJsk != ""
    ensures Run(c, events).jsk == Some("") <==> c.jsk == Some("")
  {
    hide RunPass, AfterTls, NewConf, NewSts, WritesConf, Completes;
    if events != [] {
      var front, e := events[..|events| - 1], events[|events| - 1];
      EmptyKeyIffAtStart(c, front);
      if e.Pass? { PassFields(Run(c, front), e.in_, e.budget); }
    }
  }

  // The operator never gets itself there: after any run whose generated keys are not empty, some pass can complete
  // exactly if the run did not start with such a secret.
  lemma StuckIffStartedStuck(c: Cluster, events: seq<Event>, in_: Input)
    requires forall i :: 0 <= i < |events| && events[i].Pass? ==> events[i].in_.newJsk != ""
    ensures (exists b: nat :: Completes(Run(c, events), in_, b)) <==> c.jsk != Some("")
  {
    hide PassWrites, Run;
    EmptyKeyIffAtStart(c, events);
    var d := Run(c, events);
    if d.jsk != Some("") { assert Completes(d, in_, |PassWrites(d, in_)|); }
  }
}
