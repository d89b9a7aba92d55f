/** One NATS reconcile pass as the list of single-object writes that it issues against the object store,
    and runs of such passes. A pass that fails or crashes has executed a prefix of its list, so every
    state between two writes is the end of a shorter run. */
module NatsCluster {
  import opened Wrappers
  import opened Decimal
  import opened Certs
  import opened NatsHosts
  import opened NatsRoutes
  import opened NatsStorage
  import opened ServerConf

  const HEADLESS := "nats-headless"
  const SITE_CA := "nats-site-ca"
  const LOCAL_CA := "default-nats-local-ca"
  const SITE_SERVER := "nats-site-server"
  const MQTT_SERVER := "nats-mqtt-server"
  const REPLICAS_ANNOTATION := "datasance.com/nats-replicas"
  const RESTARTED_AT := "kubectl.kubernetes.io/restartedAt"

  // replicas is None when the stored object leaves it out, which Kubernetes and the operator read as 1.
  datatype StatefulSet = StatefulSet(replicas: Option<int>, annotations: map<string, string>)

  // The stored objects that the pass reads back: TLS secrets by name, the JetStream key secret's jsk entry,
  // the server.conf entry of the ConfigMap, and the StatefulSet.
  datatype Cluster = Cluster(
    secrets: map<string, Secret>,
    jsk: Option<string>,
    conf: Option<string>,
    sts: Option<StatefulSet>
  )

  // What a pass takes from the ControlPlane spec, from the Controller's bootstrap answer, from the resolved
  // address, from the random source and from the clock.
  datatype Input = Input(
    specReplicas: int,
    ns: string,
    instance: string,
    address: string,
    leafPort: int,
    operatorJWT: string,
    systemAccount: string,
    storageSize: string,
    memoryStoreSize: string,
    siteCaKey: int,
    localCaKey: int,
    siteKey: int,
    mqttKey: int,
    newJsk: string,
    now: string
  )
  {
    function Replicas(): (r: int)
      ensures r >= 2
    {
      if specReplicas < 2 then 2 else specReplicas
    }
  }

  datatype Write =
    | CreateJsk(key: string)
    | CreateSecret(secret: Secret)
    | DeleteSecret(name: string)
    | PutConf(text: string)
    | PutSts(sts: StatefulSet)

  function Apply(c: Cluster, w: Write): Cluster {
    match w
    case CreateJsk(key) => c.(jsk := Some(key))
    case CreateSecret(s) => c.(secrets := c.secrets[s.name := s])
    case DeleteSecret(name) => c.(secrets := c.secrets - {name})
    case PutConf(text) => c.(conf := Some(text))
    case PutSts(sts) => c.(sts := Some(sts))
  }

  function ApplyAll(c: Cluster, ws: seq<Write>): Cluster
    decreases |ws|
  {
    if ws == [] then c else ApplyAll(Apply(c, ws[0]), ws[1..])
  }

  /* ----- the stages of a pass ----- */

  function JskWrites(c: Cluster, in_: Input): seq<Write> {
    if c.jsk.Some? && c.jsk.value != "" then [] else [CreateJsk(in_.newJsk)]
  }

  function AnnotatedReplicas(s: Secret): string {
    if REPLICAS_ANNOTATION in s.annotations then s.annotations[REPLICAS_ANNOTATION] else ""
  }

  // The server certificates are dropped when the site server's was made for another replica count.
  function StaleWrites(c: Cluster, in_: Input): seq<Write> {
    if SITE_SERVER in c.secrets && AnnotatedReplicas(c.secrets[SITE_SERVER]) != Itoa(in_.Replicas())
    then [DeleteSecret(SITE_SERVER), DeleteSecret(MQTT_SERVER)]
    else []
  }

  function Hosts(in_: Input): string { SiteServerHosts(HEADLESS, in_.ns, in_.Replicas(), in_.address) }

  function SiteCa(c: Cluster, in_: Input): Secret {
    if SITE_CA in c.secrets then c.secrets[SITE_CA] else Generated(SITE_CA, SITE_CA, SITE_CA, in_.siteCaKey, None)
  }

  function LocalCa(c: Cluster, in_: Input): Secret {
    if LOCAL_CA in c.secrets then c.secrets[LOCAL_CA] else Generated(LOCAL_CA, LOCAL_CA, LOCAL_CA, in_.localCaKey, None)
  }

  function WithReplicas(s: Secret, in_: Input): Secret {
    s.(annotations := s.annotations[REPLICAS_ANNOTATION := Itoa(in_.Replicas())])
  }

  function SiteServer(c: Cluster, in_: Input): Secret {
    WithReplicas(Generated(SITE_SERVER, "iofog-nats", Hosts(in_), in_.siteKey, Some(SiteCa(c, in_))), in_)
  }

  function MqttServer(c: Cluster, in_: Input): Secret {
    WithReplicas(Generated(MQTT_SERVER, "iofog-nats-mqtt", Hosts(in_), in_.mqttKey, Some(LocalCa(c, in_))), in_)
  }

  function Missing(c: Cluster, name: string, s: Secret): seq<Secret> {
    if name in c.secrets then [] else [s]
  }

  // The missing TLS secrets, authorities before the servers that they sign.
  function TlsSecrets(c: Cluster, in_: Input): seq<Secret> {
    Missing(c, SITE_CA, SiteCa(c, in_)) + Missing(c, LOCAL_CA, LocalCa(c, in_)) +
    Missing(c, SITE_SERVER, SiteServer(c, in_)) + Missing(c, MQTT_SERVER, MqttServer(c, in_))
  }

  function Creates(ss: seq<Secret>): seq<Write> {
    seq(|ss|, i requires 0 <= i < |ss| => CreateSecret(ss[i]))
  }

  function StoredConf(c: Cluster): string { if c.conf.Some? then c.conf.value else "" }

  function Routes(c: Cluster, in_: Input): seq<string> {
    MergedRoutes(HEADLESS, in_.Replicas(), DEFAULT_CLUSTER_PORT, StoredConf(c))
  }

  // The storage limits as the ControlPlane spec gives them, in NATS units.
  function FileStore(in_: Input): string {
    if in_.storageSize != "" then ToNatsSize(in_.storageSize) else DEFAULT_STORAGE_SIZE
  }

  function MemoryStore(in_: Input): string {
    if in_.memoryStoreSize != "" then ToNatsSize(in_.memoryStoreSize) else "1G"
  }

  function LeafAdvertise(in_: Input): string {
    if in_.address != "" then in_.address + ":" + Itoa(if in_.leafPort > 0 then in_.leafPort else 7422) else ""
  }

  function ConfParams(jsk: string, in_: Input, clusterRoutes: string): ServerConfParams {
    ServerConfParams(4222, 8222, in_.operatorJWT, in_.systemAccount, in_.ns, jsk, "", clusterRoutes,
      "/etc/nats/certs", SITE_SERVER, MQTT_SERVER, 7422, LeafAdvertise(in_), DEFAULT_CLUSTER_PORT, 8883,
      "/home/runner/nats/jwt", in_.instance, MemoryStore(in_), FileStore(in_))
  }

  function StoredJsk(c: Cluster): string { if c.jsk.Some? then c.jsk.value else "" }

  function NewConf(c: Cluster, in_: Input): string {
    BuildServerConf(ConfParams(StoredJsk(c), in_, PrintRoutes(Routes(c, in_))))
  }

  function StoredReplicas(sts: StatefulSet): int { if sts.replicas.Some? then sts.replicas.value else 1 }

  function NewSts(c: Cluster, in_: Input): StatefulSet {
    var annotations :=
      if c.sts.None? then map[]
      else if StoredReplicas(c.sts.value) > in_.Replicas() then c.sts.value.annotations[RESTARTED_AT := in_.now]
      else c.sts.value.annotations;
    StatefulSet(Some(in_.Replicas()), annotations)
  }

  /* ----- a whole pass ----- */

  // Creating a JetStream key secret that exists without a key is refused by the store: the pass ends there.
  predicate Blocked(c: Cluster) { c.jsk == Some("") }

  function AfterJsk(c: Cluster, in_: Input): Cluster { ApplyAll(c, JskWrites(c, in_)) }

  function AfterStale(c: Cluster, in_: Input): Cluster {
    ApplyAll(AfterJsk(c, in_), StaleWrites(AfterJsk(c, in_), in_))
  }

  function AfterTls(c: Cluster, in_: Input): Cluster {
    ApplyAll(AfterStale(c, in_), Creates(TlsSecrets(AfterStale(c, in_), in_)))
  }

  function SecretWrites(c: Cluster, in_: Input): seq<Write> {
    JskWrites(c, in_) + StaleWrites(AfterJsk(c, in_), in_) + Creates(TlsSecrets(AfterStale(c, in_), in_))
  }

  function PassWrites(c: Cluster, in_: Input): seq<Write> {
    SecretWrites(c, in_) + [PutConf(NewConf(AfterTls(c, in_), in_)), PutSts(NewSts(c, in_))]
  }

  // The store after a pass whose first `budget` writes succeed and whose next one, if any, fails.
  function RunPass(c: Cluster, in_: Input, budget: nat): Cluster {
    if Blocked(c) then c
    else
      var ws := PassWrites(c, in_);
      ApplyAll(c, if budget < |ws| then ws[..budget] else ws)
  }

  predicate Completes(c: Cluster, in_: Input, budget: nat) {
    !Blocked(c) && budget >= |PassWrites(c, in_)|
  }

  predicate WritesConf(c: Cluster, in_: Input, budget: nat) {
    !Blocked(c) && budget >= |PassWrites(c, in_)| - 1
  }

  /* ----- lists of writes ----- */

  lemma {:induction false} ApplyAppend(c: Cluster, a: seq<Write>, b: seq<Write>)
    ensures ApplyAll(c, a + b) == ApplyAll(ApplyAll(c, a), b)
    decreases |a|
  {
    if a == [] {
      assert a + b == b;
    } else {
      assert (a + b)[1..] == a[1..] + b;
      ApplyAppend(Apply(c, a[0]), a[1..], b);
    }
  }

  predicate OnlySecrets(ws: seq<Write>) {
    forall i :: 0 <= i < |ws| ==> ws[i].CreateSecret? || ws[i].DeleteSecret?
  }

  lemma {:induction false} SecretsOnly(c: Cluster, ws: seq<Write>)
    requires OnlySecrets(ws)
    ensures var d := ApplyAll(c, ws); d == c.(secrets := d.secrets)
    decreases |ws|
  {
    if ws != [] {
      SecretsOnly(Apply(c, ws[0]), ws[1..]);
    }
  }

  // Up to the configuration write, a pass touches secrets and the key only, and leaves a key.
  lemma JskSettled(c: Cluster, in_: Input)
    requires !Blocked(c)
    ensures var jsk := if c.jsk.Some? then c.jsk else Some(in_.newJsk);
      && AfterJsk(c, in_) == c.(jsk := jsk)
      && AfterStale(c, in_) == c.(jsk := jsk, secrets := AfterStale(c, in_).secrets)
      && AfterTls(c, in_) == c.(jsk := jsk, secrets := AfterTls(c, in_).secrets)
  {
    var c1 := AfterJsk(c, in_);
    assert ApplyAll(c, [CreateJsk(in_.newJsk)]) == Apply(c, CreateJsk(in_.newJsk));
    SecretsOnly(c1, StaleWrites(c1, in_));
    SecretsOnly(AfterStale(c, in_), Creates(TlsSecrets(AfterStale(c, in_), in_)));
  }

  lemma SecretWritesEnd(c: Cluster, in_: Input)
    ensures ApplyAll(c, SecretWrites(c, in_)) == AfterTls(c, in_)
  {
    hide JskWrites, StaleWrites, TlsSecrets;
    var a, b := JskWrites(c, in_), StaleWrites(AfterJsk(c, in_), in_);
    ApplyAppend(c, a + b, Creates(TlsSecrets(AfterStale(c, in_), in_)));
    ApplyAppend(c, a, b);
  }

  // The three places where a pass can stop.
  lemma PassEnds(c: Cluster, in_: Input, budget: nat)
    requires !Blocked(c)
    ensures var n := |SecretWrites(c, in_)|;
      var settled := AfterTls(c, in_);
      && |PassWrites(c, in_)| == n + 2
      && (budget <= n ==> RunPass(c, in_, budget) == ApplyAll(c, SecretWrites(c, in_)[..budget]))
      && (budget == n + 1 ==> RunPass(c, in_, budget) == settled.(conf := Some(NewConf(settled, in_))))
      && (budget >= n + 2 ==>
            RunPass(c, in_, budget) == settled.(conf := Some(NewConf(settled, in_)), sts := Some(NewSts(c, in_))))
  {
    hide SecretWrites, AfterTls, NewConf, NewSts, ApplyAll;
    JskSettled(c, in_);
    var settled := AfterTls(c, in_);
    SecretWritesEnd(c, in_);
    PrefixOfThree(c, SecretWrites(c, in_), PutConf(NewConf(settled, in_)), PutSts(NewSts(c, in_)), budget);
  }

  lemma PrefixOfThree(c: Cluster, front: seq<Write>, put: Write, sts: Write, budget: nat)
    ensures var ws, n, d := front + [put, sts], |front|, ApplyAll(c, front);
      && (budget <= n ==> ws[..budget] == front[..budget])
      && (budget == n + 1 ==> ApplyAll(c, ws[..budget]) == Apply(d, put))
      && ApplyAll(c, ws) == Apply(Apply(d, put), sts)
      && (budget == n + 2 ==> ws[..budget] == ws)
  {
    hide ApplyAll, Apply;
    var ws, n, d := front + [put, sts], |front|, ApplyAll(c, front);
    if budget == n + 1 {
      assert ws[..budget] == front + [put];
    }
    ApplyAppend(c, front, [put]);
    ApplyOne(d, put);
    assert ws == front + [put] + [sts];
    ApplyAppend(c, front + [put], [sts]);
    ApplyOne(Apply(d, put), sts);
  }

  lemma ApplyOne(c: Cluster, w: Write)
    ensures ApplyAll(c, [w]) == Apply(c, w)
  {
    assert [w][1..] == [];
  }

  /* ----- what a pass does to each stored object ----- */

  lemma FrontWrites(c: Cluster, in_: Input)
    ensures forall i :: 0 <= i < |SecretWrites(c, in_)| ==>
      var w := SecretWrites(c, in_)[i];
      w.CreateSecret? || w.DeleteSecret? || (w == CreateJsk(in_.newJsk) && (c.jsk.None? || c.jsk == Some("")))
  {
    hide TlsSecrets, ApplyAll, AnnotatedReplicas;
  }

  lemma {:induction false} FrontKeeps(c: Cluster, ws: seq<Write>, key: string)
    requires forall i :: 0 <= i < |ws| ==> ws[i].CreateSecret? || ws[i].DeleteSecret? || ws[i] == CreateJsk(key)
    ensures var d := ApplyAll(c, ws);
      && d.conf == c.conf && d.sts == c.sts && (d.jsk == c.jsk || d.jsk == Some(key))
      && (CreateJsk(key) !in ws ==> d.jsk == c.jsk)
    decreases |ws|
  {
    if ws != [] {
      FrontKeeps(Apply(c, ws[0]), ws[1..], key);
    }
  }

  lemma PassFields(c: Cluster, in_: Input, budget: nat)
    ensures var d := RunPass(c, in_, budget);
      var settled := AfterTls(c, in_);
      && d.conf == (if WritesConf(c, in_, budget) then Some(NewConf(settled, in_)) else c.conf)
      && d.sts == (if Completes(c, in_, budget) then Some(NewSts(c, in_)) else c.sts)
      && (d.jsk == c.jsk || (c.jsk.None? && d.jsk == Some(in_.newJsk)))
      && (WritesConf(c, in_, budget) ==>
            d.secrets == settled.secrets && d.jsk == settled.jsk && d.jsk.Some? && settled.conf == c.conf)
  {
    hide SecretWrites, AfterTls, NewConf, NewSts, ApplyAll, PassWrites;
    if !Blocked(c) {
      hide RunPass;
      PassEnds(c, in_, budget);
      JskSettled(c, in_);
      var front := SecretWrites(c, in_);
      FrontWrites(c, in_);
      if budget <= |front| {
        FrontKeeps(c, front[..budget], in_.newJsk);
      }
    }
  }
}
