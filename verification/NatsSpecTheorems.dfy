/** What a NATS pass stores for a given spec, in the texts and numbers of the spec itself. */
module NatsSpecTheorems {
  import opened Wrappers
  import opened GoStrings
  import opened Decimal
  import opened Certs
  import opened NatsRoutes
  import opened NatsRouteTheorems
  import opened NatsHosts
  import opened NatsStorage
  import opened ServerConf
  import opened NatsCluster
  import opened NatsRuns
  import opened NatsSecrets

  // The replica count that the spec asks for: two at least.
  predicate AskedFor(in_: Input, n: nat) {
    (in_.specReplicas >= 2 ==> n == in_.specReplicas) && (in_.specReplicas < 2 ==> n == 2)
  }

  lemma AskedIsUsed(in_: Input, n: nat)
    requires AskedFor(in_, n)
    ensures in_.Replicas() == n
  {
  }

  /* ----- the StatefulSet ----- */

  // A completed pass stores the count asked for. It keeps the annotations, and stamps them with the time of the pass
  // exactly when the stored count, one if left out, is larger.
  lemma StatefulSetForSpec(c: Cluster, in_: Input, budget: nat, n: nat)
    requires AskedFor(in_, n) && Completes(c, in_, budget)
    ensures var d := RunPass(c, in_, budget);
      && d.sts.Some? && d.sts.value.replicas == Some(n)
      && (c.sts.None? ==> d.sts.value.annotations == map[])
      && (c.sts.Some? ==>
            var was := if c.sts.value.replicas.Some? then c.sts.value.replicas.value else 1;
            d.sts.value.annotations ==
              if was > n then c.sts.value.annotations["kubectl.kubernetes.io/restartedAt" := in_.now]
              else c.sts.value.annotations)
  {
    hide RunPass, AfterTls, NewConf, WritesConf, Completes;
    AskedIsUsed(in_, n);
    PassFields(c, in_, budget);
  }

  /* ----- the routes and the names ----- */

  lemma OrdinalText(i: nat)
    ensures OrdinalRoute(i, HEADLESS, DEFAULT_CLUSTER_PORT) == "nats://nats-" + Itoa(i) + ".nats-headless:6222"
  {
    var a := Itoa(i);
    DefaultPortText();
    hide Itoa;
    var suffix := "." + HEADLESS + ":" + "6222";
    assert suffix == ".nats-headless:6222";
  }

  lemma DefaultPortText()
    ensures Itoa(6222) == "6222" && Itoa(DEFAULT_CLUSTER_PORT) == "6222"
  {
    assert Digits(6) == "6" && Digits(62) == "62" && Digits(622) == "622" && Digits(6222) == "6222";
  }

  lemma OrdinalSuffixText()
    ensures OrdinalSuffix(HEADLESS, DEFAULT_CLUSTER_PORT) == ".nats-headless:6222"
  {
    DefaultPortText();
    hide Itoa;
  }

  // No other route of the operator's form: none whose number can be read.
  lemma NotOrdinalText(r: string)
    requires !Ordinal(r)
    ensures forall mid :: r == "nats://nats-" + mid + ".nats-headless:6222" ==> Atoi(mid) == None
  {
    hide Atoi, IsK8sOrdinalRoute;
    OrdinalRouteShape(r, HEADLESS, DEFAULT_CLUSTER_PORT);
    OrdinalSuffixText();
    hide OrdinalSuffix;
  }

  // A pass that writes its configuration leaves routes that begin with exactly one for each replica asked for, in
  // order, and hold no other route of that form; the stored site-server certificate names each of their hosts and is
  // marked with the count.
  lemma RoutesForSpec(c: Cluster, in_: Input, budget: nat, n: nat)
    requires AskedFor(in_, n) && WritesConf(c, in_, budget)
    requires InputOk(in_) && JskFree(c) && Tidy(c) && TlsInvariant(c.secrets)
    ensures var d := RunPass(c, in_, budget);
      var routes := RoutesOf(StoredConf(d));
      && |routes| >= n
      && (forall i :: 0 <= i < n ==> routes[i] == "nats://nats-" + Itoa(i) + ".nats-headless:6222")
      && (forall r, mid :: r in routes[n..] && r == "nats://nats-" + mid + ".nats-headless:6222" ==> Atoi(mid) == None)
  {
    hide RunPass, AfterTls, NewConf, NewSts, TlsInvariant, WritesConf, Completes, InputOk, JskFree, Tidy, RoutesOf,
      IsK8sOrdinalRoute, OrdinalRoute, Distinct, Atoi, Itoa;
    AskedIsUsed(in_, n);
    PassRoutesExact(c, in_, budget);
    var routes := RoutesOf(StoredConf(RunPass(c, in_, budget)));
    forall i | 0 <= i < n ensures routes[i] == "nats://nats-" + Itoa(i) + ".nats-headless:6222" { OrdinalText(i); }
    forall r | r in routes[n..]
      ensures forall mid :: r == "nats://nats-" + mid + ".nats-headless:6222" ==> Atoi(mid) == None
    {
      NotOrdinalText(r);
    }
  }

  lemma HostsForSpec(c: Cluster, in_: Input, budget: nat, n: nat)
    requires AskedFor(in_, n) && WritesConf(c, in_, budget) && TlsInvariant(c.secrets)
    ensures var d := RunPass(c, in_, budget);
      && "nats-site-server" in d.secrets
      && var s := d.secrets["nats-site-server"];
         && "datasance.com/nats-replicas" in s.annotations && s.annotations["datasance.com/nats-replicas"] == Itoa(n)
         && forall i :: 0 <= i < n ==> "nats-" + Itoa(i) + ".nats-headless" in s.tlsCrt.dnsNames
  {
    hide RunPass, AfterTls, NewConf, NewSts, TlsInvariant, WritesConf, Completes, Itoa;
    AskedIsUsed(in_, n);
    PassFields(c, in_, budget);
    SiteServerFresh(c, in_);
    var s := AfterTls(c, in_).secrets[SITE_SERVER];
    var m: nat :| AnnotatedReplicas(s) == Itoa(m) && NamesReplicas(s, m);
    ItoaInjective(m, n);
    ItoaNotEmpty(n);
    forall i | 0 <= i < n ensures "nats-" + Itoa(i) + ".nats-headless" in s.tlsCrt.dnsNames {
      assert ReplicaHost(i, HEADLESS) == "nats-" + Itoa(i) + ".nats-headless" by { HostTextHeadless(i); }
    }
  }

  lemma ItoaNotEmpty(n: int)
    ensures Itoa(n) != ""
  {
  }

  lemma HostTextHeadless(i: int)
    ensures ReplicaHost(i, HEADLESS) == "nats-" + Itoa(i) + ".nats-headless"
  {
    hide Itoa;
    assert "." + HEADLESS == ".nats-headless";
  }

  // All of it at the end of any tidy run from an empty store, for a completed last pass.
  lemma SpecAfterRun(events: seq<Event>, in_: Input, budget: nat, n: nat)
    requires AskedFor(in_, n) && TidyRun(EMPTY, events) && InputOk(in_) && Completes(Run(EMPTY, events), in_, budget)
    ensures var d := RunPass(Run(EMPTY, events), in_, budget);
      var routes := RoutesOf(StoredConf(d));
      && d.sts.Some? && d.sts.value.replicas == Some(n)
      && |routes| >= n
      && (forall i :: 0 <= i < n ==> routes[i] == "nats://nats-" + Itoa(i) + ".nats-headless:6222")
      && (forall r, mid :: r in routes[n..] && r == "nats://nats-" + mid + ".nats-headless:6222" ==> Atoi(mid) == None)
      && "nats-site-server" in d.secrets
      && (forall i :: 0 <= i < n ==> "nats-" + Itoa(i) + ".nats-headless" in d.secrets["nats-site-server"].tlsCrt.dnsNames)
  {
    hide RunPass, TidyRun, InputOk, JskFree, Tidy, RoutesOf, Atoi, Itoa, AskedFor, PassWrites, TlsInvariant, Blocked;
    EmptyIsTidy();
    ForeignRoutesConserved(EMPTY, events);
    TlsAlways(EMPTY, events) by { EmptyIsSound(); }
    var c := Run(EMPTY, events);
    StatefulSetForSpec(c, in_, budget, n);
    RoutesForSpec(c, in_, budget, n);
    HostsForSpec(c, in_, budget, n);
  }

  lemma EmptyIsSound()
    ensures TlsInvariant(EMPTY.secrets)
  {
  }

  /* ----- the certificates ----- */

  function SpecNames(in_: Input, n: nat): seq<string> {
    seq(n, i => "nats-" + Itoa(i) + ".nats-headless") +
    ["nats." + in_.ns + ".svc.cluster.local", "nats-server." + in_.ns + ".svc.cluster.local",
     "*.nats-headless." + in_.ns + ".svc.cluster.local",
     "nats." + in_.ns + ".svc.cluster.local", "nats-server." + in_.ns + ".svc.cluster.local"] +
    if in_.address != "" then Sans(Split(in_.address, ',')) else []
  }

  lemma HostsNamed(in_: Input, n: nat)
    requires AskedFor(in_, n) && ',' !in in_.ns
    ensures Sans(Split(Hosts(in_), ',')) == SpecNames(in_, n)
  {
    hide SiteServerHosts, Split, Sans, Itoa, HostName, AskedFor;
    AskedIsUsed(in_, n);
    HeadlessName();
    SansExactly(HEADLESS, in_.ns, n, in_.address);
    ReplicaTexts(n);
    WildText(in_.ns);
  }

  lemma ReplicaTexts(n: nat)
    ensures seq(n, i => "nats-" + Itoa(i) + "." + HEADLESS) == seq(n, i => "nats-" + Itoa(i) + ".nats-headless")
  {
    hide Itoa;
    forall i | 0 <= i < n ensures "nats-" + Itoa(i) + "." + HEADLESS == "nats-" + Itoa(i) + ".nats-headless" {
      HostTextHeadless(i);
    }
  }

  lemma WildText(ns: string)
    ensures "*." + HEADLESS + "." + ns + ".svc.cluster.local" == "*.nats-headless." + ns + ".svc.cluster.local"
  {
    assert "*." + HEADLESS + "." == "*.nats-headless.";
  }

  // Both server certificates are made for the same names: the replicas asked for, the services, and the address. The
  // site server's is signed by the site authority, the MQTT server's by the local one.
  lemma ServersForSpec(c: Cluster, in_: Input, n: nat)
    requires AskedFor(in_, n) && ',' !in in_.ns
    ensures var site, local := SiteCa(c, in_).tlsCrt, LocalCa(c, in_).tlsCrt;
      var mark := map["datasance.com/nats-replicas" := Itoa(n)];
      && SiteServer(c, in_) == Secret("nats-site-server",
           Cert("iofog-nats", SpecNames(in_, n), in_.siteKey, site.keyId, false), site, mark)
      && MqttServer(c, in_) == Secret("nats-mqtt-server",
           Cert("iofog-nats-mqtt", SpecNames(in_, n), in_.mqttKey, local.keyId, false), local, mark)
  {
    AskedIsUsed(in_, n);
    HostsNamed(in_, n);
    hide SpecNames, Hosts, SiteCa, LocalCa, Itoa, Split, Sans;
  }

  // A missing authority is self-signed and named after itself.
  lemma AuthoritiesForSpec(c: Cluster, in_: Input)
    ensures "nats-site-ca" !in c.secrets ==>
      SiteCa(c, in_).tlsCrt == Cert("nats-site-ca", ["nats-site-ca"], in_.siteCaKey, in_.siteCaKey, true)
    ensures "default-nats-local-ca" !in c.secrets ==>
      LocalCa(c, in_).tlsCrt
      == Cert("default-nats-local-ca", ["default-nats-local-ca"], in_.localCaKey, in_.localCaKey, true)
    ensures "nats-site-ca" in c.secrets ==> SiteCa(c, in_) == c.secrets["nats-site-ca"]
    ensures "default-nats-local-ca" in c.secrets ==> LocalCa(c, in_) == c.secrets["default-nats-local-ca"]
  {
    PlainSiteName();
    PlainLocalName();
    OneName("nats-site-ca");
    OneName("default-nats-local-ca");
    hide Split, Sans, NoEdge;
  }

  lemma PlainSiteName()
    ensures ',' !in "nats-site-ca" && NoEdge("nats-site-ca", WHITESPACE)
  {
  }

  lemma PlainLocalName()
    ensures ',' !in "default-nats-local-ca" && NoEdge("default-nats-local-ca", WHITESPACE)
  {
  }

  // What is stored after the secret stage. The servers' certificates are made new when they are missing, and both when
  // the site server's is marked with another count.
  lemma SecretsForSpec(c: Cluster, in_: Input, budget: nat, n: nat)
    requires AskedFor(in_, n) && WritesConf(c, in_, budget) && TlsInvariant(c.secrets)
    ensures var d := RunPass(c, in_, budget).secrets;
      var stale := "nats-site-server" in c.secrets && AnnotatedReplicas(c.secrets["nats-site-server"]) != Itoa(n);
      && "nats-site-ca" in d && d["nats-site-ca"] == SiteCa(c, in_)
      && "default-nats-local-ca" in d && d["default-nats-local-ca"] == LocalCa(c, in_)
      && "nats-site-server" in d && d["nats-site-server"] ==
           (if "nats-site-server" in c.secrets && !stale then c.secrets["nats-site-server"] else SiteServer(c, in_))
      && "nats-mqtt-server" in d && d["nats-mqtt-server"] ==
           (if "nats-mqtt-server" in c.secrets && !stale then c.secrets["nats-mqtt-server"] else MqttServer(c, in_))
  {
    hide RunPass, AfterTls, NewConf, NewSts, WritesConf, Completes, Covers, Chained, Generated, AnnotatedReplicas, Itoa,
      ApplyAll, StaleWrites, JskWrites, Hosts;
    AskedIsUsed(in_, n);
    PassFields(c, in_, budget);
    FrontSafe(c, in_);
    JskSafe(c, in_);
    StaleGone(AfterJsk(c, in_), in_);
    SecretNames(AfterStale(c, in_), in_);
  }

  /* ----- the configuration ----- */

  ghost predicate HasLine(conf: string, line: string) { Contains(conf, "\n" + line + "\n") }

  // The lines that carry the spec's values, each in its place.
  lemma ConfForSpec(c: Cluster, in_: Input, budget: nat)
    requires WritesConf(c, in_, budget)
    ensures var conf := StoredConf(RunPass(c, in_, budget));
      && HasLine(conf, "operator = " + in_.operatorJWT)
      && HasLine(conf, "system_account = " + in_.systemAccount)
      && HasLine(conf, "  domain: " + in_.ns)
      && HasLine(conf, "  name: " + in_.instance)
      && HasLine(conf, "  max_file_store: " + if in_.storageSize != "" then ToNatsSize(in_.storageSize) else "10G")
      && HasLine(conf, "  max_memory_store: " + if in_.memoryStoreSize != "" then ToNatsSize(in_.memoryStoreSize) else "1G")
  {
    hide RunPass, AfterTls, NewSts, WritesConf, Completes, BuildServerConf, Routes, PrintRoutes, HasLine, ToNatsSize,
      EscapeConfString;
    PassFields(c, in_, budget);
    var settled := AfterTls(c, in_);
    var p := ConfParams(StoredJsk(settled), in_, PrintRoutes(Routes(settled, in_)));
    ParamLines(p);
  }

  lemma ParamLines(p: ServerConfParams)
    ensures var conf := BuildServerConf(p);
      && HasLine(conf, "operator = " + p.operatorJWT)
      && HasLine(conf, "system_account = " + p.systemAccount)
      && HasLine(conf, "  domain: " + p.jetStreamDomain)
      && HasLine(conf, "  name: " + p.controllerName)
      && HasLine(conf, "  max_file_store: " + p.maxFileStore)
      && HasLine(conf, "  max_memory_store: " + p.maxMemoryStore)
  {
    hide BuildServerConf, Contains, Itoa, EscapeConfString;
    LineAt(p, 6, "operator = " + p.operatorJWT);
    LineAt(p, 9, "system_account = " + p.systemAccount);
    LineAt(p, 13, "  domain: " + p.jetStreamDomain);
    LineAt(p, 14, "  max_memory_store: " + p.maxMemoryStore);
    LineAt(p, 15, "  max_file_store: " + p.maxFileStore);
    LineAt(p, 22, "  name: " + p.controllerName);
  }

  lemma LineAt(p: ServerConfParams, k: nat, line: string)
    requires 0 < k < |HeaderLines(p)| && HeaderLines(p)[k] == line
    ensures HasLine(BuildServerConf(p), line)
  {
    hide BuildServerConf, Contains, HeaderLines;
    HeaderLineInServerConf(p, k);
  }

  // The hub's own certificates, the MQTT ones, and the leaf address, with the spec's leaf port or 7422.
  lemma EndpointsForSpec(c: Cluster, in_: Input, budget: nat)
    requires WritesConf(c, in_, budget)
    ensures var conf := StoredConf(RunPass(c, in_, budget));
      && HasLine(conf, "    cert_file: \"/etc/nats/certs/nats-site-server/tls.crt\"")
      && HasLine(conf, "    cert_file: \"/etc/nats/certs/nats-mqtt-server/tls.crt\"")
      && HasLine(conf, "  dir: \"/home/runner/nats/jwt\"")
      && (in_.address == "" ==> HasLine(conf, "  advertise: "))
      && (in_.address != "" ==>
            HasLine(conf, "  advertise: " + in_.address + ":" + Itoa(if in_.leafPort > 0 then in_.leafPort else 7422)))
  {
    hide RunPass, AfterTls, NewSts, WritesConf, Completes, BuildServerConf, Routes, PrintRoutes, HasLine, ToNatsSize,
      EscapeConfString, Itoa;
    PassFields(c, in_, budget);
    var settled := AfterTls(c, in_);
    var p := ConfParams(StoredJsk(settled), in_, PrintRoutes(Routes(settled, in_)));
    EndpointLines(p);
    SiteCertText();
    MqttCertText();
    DirText();
    hide LeafAdvertise;
    LeafText(in_);
  }

  lemma SiteCertText()
    ensures "    cert_file: \"" + "/etc/nats/certs" + "/" + SITE_SERVER + "/tls.crt\""
      == "    cert_file: \"/etc/nats/certs/nats-site-server/tls.crt\""
  {
  }

  lemma MqttCertText()
    ensures "    cert_file: \"" + "/etc/nats/certs" + "/" + MQTT_SERVER + "/tls.crt\""
      == "    cert_file: \"/etc/nats/certs/nats-mqtt-server/tls.crt\""
  {
  }

  lemma DirText()
    ensures "  dir: \"" + "/home/runner/nats/jwt" + "\"" == "  dir: \"/home/runner/nats/jwt\""
  {
  }

  lemma LeafText(in_: Input)
    ensures in_.address == "" ==> "  advertise: " + LeafAdvertise(in_) == "  advertise: "
    ensures in_.address != "" ==>
      "  advertise: " + LeafAdvertise(in_)
      == "  advertise: " + in_.address + ":" + Itoa(if in_.leafPort > 0 then in_.leafPort else 7422)
  {
    hide Itoa;
  }

  lemma EndpointLines(p: ServerConfParams)
    ensures var conf := BuildServerConf(p);
      && HasLine(conf, "    cert_file: \"" + p.sslDir + "/" + p.certName + "/tls.crt\"")
      && HasLine(conf, "    cert_file: \"" + p.sslDir + "/" + p.mqttCertName + "/tls.crt\"")
      && HasLine(conf, "  dir: \"" + p.jwtDir + "\"")
      && HasLine(conf, "  advertise: " + p.leafAdvertise)
  {
    hide BuildServerConf, Contains, Itoa;
    FootAt(p, 2, "    cert_file: \"" + p.sslDir + "/" + p.certName + "/tls.crt\"");
    FootAt(p, 12, "  advertise: " + p.leafAdvertise);
    FootAt(p, 27, "    cert_file: \"" + p.sslDir + "/" + p.mqttCertName + "/tls.crt\"");
    FootAt(p, 36, "  dir: \"" + p.jwtDir + "\"");
  }

  lemma FootAt(p: ServerConfParams, k: nat, line: string)
    requires k < |FooterLines(p)| && FooterLines(p)[k] == line
    ensures HasLine(BuildServerConf(p), line)
  {
    hide BuildServerConf, Contains, FooterLines;
    FooterLineInServerConf(p, k);
  }
}
