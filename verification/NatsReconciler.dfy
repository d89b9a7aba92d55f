/** The NATS pass as the operator executes it: reads and ordered single-object writes against a store that
    may start refusing writes at any moment. Proved to issue exactly the writes of NatsCluster.PassWrites. */
module NatsReconciler {
  import opened Wrappers
  import opened Decimal
  import opened Certs
  import opened NatsHosts
  import opened NatsRoutes
  import opened ServerConf
  import opened ServerConfTemplate
  import opened NatsCluster
  import opened NatsSecrets

  datatype ApiResult = Done | AlreadyExists | Failed

  // From store c with b writes left, the writes ws were issued in order: all of them, or as many as were left.
  ghost predicate Issued(c: Cluster, b: nat, ws: seq<Write>, d: Cluster, left: nat, ok: bool) {
    if b >= |ws| then ok && d == ApplyAll(c, ws) && left == b - |ws|
    else !ok && d == ApplyAll(c, ws[..b]) && left == 0
  }

  lemma IssuedThen(c: Cluster, b: nat, first: seq<Write>, d: Cluster, left: nat,
                   second: seq<Write>, e: Cluster, left2: nat, ok: bool)
    requires Issued(c, b, first, d, left, true) && Issued(d, left, second, e, left2, ok)
    ensures Issued(c, b, first + second, e, left2, ok)
  {
    hide ApplyAll;
    ApplyAppend(c, first, second);
    if b < |first + second| {
      assert (first + second)[..b] == first + second[..b - |first|];
      ApplyAppend(c, first, second[..b - |first|]);
    }
  }

  lemma IssuedStops(c: Cluster, b: nat, first: seq<Write>, d: Cluster, left: nat, second: seq<Write>)
    requires Issued(c, b, first, d, left, false)
    ensures Issued(c, b, first + second, d, left, false)
  {
    hide ApplyAll;
    assert (first + second)[..b] == first[..b];
  }

  lemma IssuedNothing(c: Cluster, b: nat)
    ensures Issued(c, b, [], c, b, true)
  {
  }

  function Deletions(names: seq<string>): seq<Write> {
    seq(|names|, i requires 0 <= i < |names| => DeleteSecret(names[i]))
  }

  class Reconciler {
    var secrets: map<string, Secret>
    var jsk: Option<string>
    var conf: Option<string>
    var sts: Option<StatefulSet>
    var budget: nat  // writes that the store still accepts

    function Snapshot(): Cluster
      reads this
    {
      Cluster(secrets, jsk, conf, sts)
    }

    constructor (c: Cluster, budget: nat)
      ensures Snapshot() == c && this.budget == budget
    {
      secrets, jsk, conf, sts := c.secrets, c.jsk, c.conf, c.sts;
      this.budget := budget;
    }

    /* ----- the store ----- */

    method CreateJskSecret(key: string) returns (r: ApiResult)
      modifies this
      ensures old(jsk).Some? ==> r == AlreadyExists && Snapshot() == old(Snapshot()) && budget == old(budget)
      ensures old(jsk).None? ==> r != AlreadyExists
      ensures old(jsk).None? ==>
        Issued(old(Snapshot()), old(budget), [CreateJsk(key)], Snapshot(), budget, r == Done)
    {
      if jsk.Some? { return AlreadyExists; }
      if budget == 0 { return Failed; }
      jsk, budget := Some(key), budget - 1;
      ApplyOne(old(Snapshot()), CreateJsk(key));
      r := Done;
    }

    method CreateTlsSecret(s: Secret) returns (r: ApiResult)
      modifies this
      ensures s.name in old(secrets) ==> r == AlreadyExists && Snapshot() == old(Snapshot()) && budget == old(budget)
      ensures s.name !in old(secrets) ==> r != AlreadyExists
      ensures s.name !in old(secrets) ==>
        Issued(old(Snapshot()), old(budget), [CreateSecret(s)], Snapshot(), budget, r == Done)
    {
      if s.name in secrets { return AlreadyExists; }
      if budget == 0 { return Failed; }
      secrets, budget := secrets[s.name := s], budget - 1;
      ApplyOne(old(Snapshot()), CreateSecret(s));
      r := Done;
    }

    // Deleting what is not there counts as done for the operator.
    method DeleteTlsSecret(name: string) returns (ok: bool)
      modifies this
      ensures Issued(old(Snapshot()), old(budget), [DeleteSecret(name)], Snapshot(), budget, ok)
    {
      if budget == 0 { return false; }
      secrets, budget := secrets - {name}, budget - 1;
      ApplyOne(old(Snapshot()), DeleteSecret(name));
      ok := true;
    }

    method PutServerConf(text: string) returns (ok: bool)
      modifies this
      ensures Issued(old(Snapshot()), old(budget), [PutConf(text)], Snapshot(), budget, ok)
    {
      if budget == 0 { return false; }
      conf, budget := Some(text), budget - 1;
      ApplyOne(old(Snapshot()), PutConf(text));
      ok := true;
    }

    method PutStatefulSet(st: StatefulSet) returns (ok: bool)
      modifies this
      ensures Issued(old(Snapshot()), old(budget), [PutSts(st)], Snapshot(), budget, ok)
    {
      if budget == 0 { return false; }
      sts, budget := Some(st), budget - 1;
      ApplyOne(old(Snapshot()), PutSts(st));
      ok := true;
    }

    /* ----- the stages of the pass ----- */

    method EnsureJetStreamKeySecret(in_: Input) returns (ok: bool)
      modifies this
      ensures Blocked(old(Snapshot())) ==> !ok && Snapshot() == old(Snapshot()) && budget == old(budget)
      ensures !Blocked(old(Snapshot())) ==>
        Issued(old(Snapshot()), old(budget), JskWrites(old(Snapshot()), in_), Snapshot(), budget, ok)
    {
      if jsk.Some? && |jsk.value| > 0 {
        IssuedNothing(Snapshot(), budget);
        return true;
      }
      var r := CreateJskSecret(in_.newJsk);
      ok := r == Done;
    }

    method DropStaleCertificates(in_: Input) returns (ok: bool)
      modifies this
      ensures Issued(old(Snapshot()), old(budget), StaleWrites(old(Snapshot()), in_), Snapshot(), budget, ok)
    {
      hide ApplyAll, Issued, Itoa;
      IssuedNothing(Snapshot(), budget);
      var desired := Itoa(in_.Replicas());
      if SITE_SERVER in secrets && AnnotatedReplicas(secrets[SITE_SERVER]) != desired {
        var names := [SITE_SERVER, MQTT_SERVER];
        assert Deletions(names) == StaleWrites(old(Snapshot()), in_);
        assert Deletions(names[..0]) == [];
        for i := 0 to |names|
          invariant Issued(old(Snapshot()), old(budget), Deletions(names[..i]), Snapshot(), budget, true)
        {
          ghost var mid, left := Snapshot(), budget;
          assert Deletions(names[..i + 1]) == Deletions(names[..i]) + [DeleteSecret(names[i])];
          ok := DeleteTlsSecret(names[i]);
          IssuedThen(old(Snapshot()), old(budget), Deletions(names[..i]), mid, left, [DeleteSecret(names[i])],
            Snapshot(), budget, ok);
          if !ok {
            IssuedStops(old(Snapshot()), old(budget), Deletions(names[..i + 1]), Snapshot(), budget, Deletions(names[i + 1..]));
            assert Deletions(names) == Deletions(names[..i + 1]) + Deletions(names[i + 1..]);
            return;
          }
        }
        assert names[..|names|] == names;
      }
      ok := true;
    }

    // The missing secrets, in creation order; a new authority is used at once to sign.
    method EnsureNatsSecrets(in_: Input) returns (out: seq<Secret>)
      ensures out == TlsSecrets(Snapshot(), in_)
    {
      hide Generated, SiteServerHosts, Itoa;
      out := [];
      var siteCa, localCa: Secret;
      if SITE_CA in secrets {
        siteCa := secrets[SITE_CA];
      } else {
        siteCa := GenerateSecret(SITE_CA, SITE_CA, SITE_CA, in_.siteCaKey, None);
        out := out + [siteCa];
      }
      if LOCAL_CA in secrets {
        localCa := secrets[LOCAL_CA];
      } else {
        localCa := GenerateSecret(LOCAL_CA, LOCAL_CA, LOCAL_CA, in_.localCaKey, None);
        out := out + [localCa];
      }
      if SITE_SERVER !in secrets {
        var hosts := NatsSiteServerHosts(HEADLESS, in_.ns, in_.Replicas(), in_.address);
        var s := GenerateSecret(SITE_SERVER, "iofog-nats", hosts, in_.siteKey, Some(siteCa));
        s := s.(annotations := s.annotations[REPLICAS_ANNOTATION := Itoa(in_.Replicas())]);
        out := out + [s];
      }
      if MQTT_SERVER !in secrets {
        var hosts := NatsSiteServerHosts(HEADLESS, in_.ns, in_.Replicas(), in_.address);
        var s := GenerateSecret(MQTT_SERVER, "iofog-nats-mqtt", hosts, in_.mqttKey, Some(localCa));
        s := s.(annotations := s.annotations[REPLICAS_ANNOTATION := Itoa(in_.Replicas())]);
        out := out + [s];
      }
    }

    method CreateTlsSecrets(in_: Input) returns (ok: bool)
      modifies this
      ensures Issued(old(Snapshot()), old(budget), Creates(TlsSecrets(old(Snapshot()), in_)), Snapshot(), budget, ok)
    {
      hide ApplyAll, Issued, TlsSecrets;
      var out := EnsureNatsSecrets(in_);
      NewNames(Snapshot(), in_);
      IssuedNothing(Snapshot(), budget);
      assert Creates(out[..0]) == [];
      for i := 0 to |out|
        invariant Issued(old(Snapshot()), old(budget), Creates(out[..i]), Snapshot(), budget, true)
        invariant forall k :: i <= k < |out| ==> out[k].name !in secrets
      {
        ghost var mid, left := Snapshot(), budget;
        assert Creates(out[..i + 1]) == Creates(out[..i]) + [CreateSecret(out[i])];
        var r := CreateTlsSecret(out[i]);
        IssuedThen(old(Snapshot()), old(budget), Creates(out[..i]), mid, left, [CreateSecret(out[i])],
          Snapshot(), budget, r == Done);
        if r == Failed {
          IssuedStops(old(Snapshot()), old(budget), Creates(out[..i + 1]), Snapshot(), budget, Creates(out[i + 1..]));
          assert Creates(out) == Creates(out[..i + 1]) + Creates(out[i + 1..]);
          return false;
        }
        CreatedNames(mid, left, out[i], Snapshot(), budget);
      }
      assert out[..|out|] == out;
      ok := true;
    }

    method WriteServerConf(in_: Input) returns (ok: bool)
      modifies this
      ensures Issued(old(Snapshot()), old(budget), [PutConf(NewConf(old(Snapshot()), in_))], Snapshot(), budget, ok)
    {
      hide BuildServerConf, PrintRoutes, MergedRoutes, Issued;
      var key := if jsk.Some? then jsk.value else "";
      var existing := if conf.Some? then conf.value else "";
      var routes := ClusterRoutesMerge(HEADLESS, in_.Replicas(), DEFAULT_CLUSTER_PORT, existing);
      var text := Build(ConfParams(key, in_, routes));
      ok := PutServerConf(text);
    }

    method CreateStatefulSet(in_: Input) returns (ok: bool)
      modifies this
      ensures Issued(old(Snapshot()), old(budget), [PutSts(NewSts(old(Snapshot()), in_))], Snapshot(), budget, ok)
    {
      hide Issued;
      var annotations: map<string, string> := map[];
      if sts.Some? {
        var existingReplicas := 1;
        if sts.value.replicas.Some? { existingReplicas := sts.value.replicas.value; }
        if existingReplicas > in_.Replicas() {
          annotations := sts.value.annotations[RESTARTED_AT := in_.now];
        } else {
          annotations := sts.value.annotations;
        }
      }
      ok := PutStatefulSet(StatefulSet(Some(in_.Replicas()), annotations));
    }

    // The whole pass: all its writes, or those that the store accepted before it refused one.
    method ReconcileNats(in_: Input) returns (ok: bool)
      modifies this
      ensures Snapshot() == RunPass(old(Snapshot()), in_, old(budget))
      ensures ok <==> Completes(old(Snapshot()), in_, old(budget))
      ensures old(jsk) == Some("") ==> !ok && Snapshot() == old(Snapshot())
      ensures ok ==> sts.Some? && sts.value.replicas == Some(if in_.specReplicas >= 2 then in_.specReplicas else 2)
    {
      ghost var c, b := Snapshot(), budget;
      ok := IssuePass(in_);
      hide ApplyAll, PassWrites;
      assert Snapshot() == RunPass(c, in_, b) && (ok <==> Completes(c, in_, b));
      hide RunPass, Completes, Issued;
      CountStored(c, in_, b);
    }

    method IssuePass(in_: Input) returns (ok: bool)
      modifies this
      ensures Blocked(old(Snapshot())) ==> !ok && Snapshot() == old(Snapshot())
      ensures !Blocked(old(Snapshot())) ==>
        Issued(old(Snapshot()), old(budget), PassWrites(old(Snapshot()), in_), Snapshot(), budget, ok)
    {
      hide Issued, ApplyAll, JskWrites, StaleWrites, TlsSecrets, NewConf, NewSts, Creates;
      ghost var c0, b0 := Snapshot(), budget;
      ok := EnsureJetStreamKeySecret(in_);
      ghost var c1, b1 := Snapshot(), budget;
      ghost var w1 := JskWrites(c0, in_);
      ghost var w2 := StaleWrites(AfterJsk(c0, in_), in_);
      ghost var w3 := Creates(TlsSecrets(AfterStale(c0, in_), in_));
      ghost var w4 := [PutConf(NewConf(AfterTls(c0, in_), in_))];
      ghost var w5 := [PutSts(NewSts(c0, in_))];
      assert PassWrites(c0, in_) == w1 + (w2 + (w3 + (w4 + w5)));
      assert PassWrites(c0, in_) == w1 + w2 + (w3 + (w4 + w5));
      assert PassWrites(c0, in_) == w1 + w2 + w3 + (w4 + w5);
      assert PassWrites(c0, in_) == w1 + w2 + w3 + w4 + w5;
      if !ok {
        if !Blocked(c0) { IssuedStops(c0, b0, w1, c1, b1, w2 + (w3 + (w4 + w5))); }
        return;
      }
      IssuedEnd(c0, b0, w1, c1, b1);

      ok := DropStaleCertificates(in_);
      ghost var c2, b2 := Snapshot(), budget;
      IssuedThen(c0, b0, w1, c1, b1, w2, c2, b2, ok);
      if !ok { IssuedStops(c0, b0, w1 + w2, c2, b2, w3 + (w4 + w5)); return; }
      IssuedEnd(c1, b1, w2, c2, b2);

      ok := CreateTlsSecrets(in_);
      ghost var c3, b3 := Snapshot(), budget;
      IssuedThen(c0, b0, w1 + w2, c2, b2, w3, c3, b3, ok);
      if !ok { IssuedStops(c0, b0, w1 + w2 + w3, c3, b3, w4 + w5); return; }
      IssuedEnd(c2, b2, w3, c3, b3);

      ok := WriteServerConf(in_);
      ghost var c4, b4 := Snapshot(), budget;
      IssuedThen(c0, b0, w1 + w2 + w3, c3, b3, w4, c4, b4, ok);
      if !ok { IssuedStops(c0, b0, w1 + w2 + w3 + w4, c4, b4, w5); return; }
      IssuedEnd(c3, b3, w4, c4, b4);

      StsUntouched(c0, in_, c4);
      ok := CreateStatefulSet(in_);
      IssuedThen(c0, b0, w1 + w2 + w3 + w4, c4, b4, w5, Snapshot(), budget, ok);
    }
  }

  lemma CountStored(c: Cluster, in_: Input, b: nat)
    ensures Completes(c, in_, b) ==>
      RunPass(c, in_, b).sts.Some?
      && RunPass(c, in_, b).sts.value.replicas == Some(if in_.specReplicas >= 2 then in_.specReplicas else 2)
  {
    hide RunPass, AfterTls, NewConf, WritesConf, Completes;
    PassFields(c, in_, b);
  }

  lemma IssuedEnd(c: Cluster, b: nat, ws: seq<Write>, d: Cluster, left: nat)
    requires Issued(c, b, ws, d, left, true)
    ensures d == ApplyAll(c, ws)
  {
  }

  lemma NewNames(c: Cluster, in_: Input)
    ensures var ss := TlsSecrets(c, in_);
      && (forall i :: 0 <= i < |ss| ==> ss[i].name !in c.secrets)
      && (forall i, j :: 0 <= i < j < |ss| ==> ss[i].name != ss[j].name)
  {
    hide SiteCa, LocalCa, SiteServer, MqttServer;
    SecretNames(c, in_);
  }

  lemma CreatedNames(c: Cluster, b: nat, s: Secret, d: Cluster, left: nat)
    requires Issued(c, b, [CreateSecret(s)], d, left, true)
    ensures d.secrets.Keys == c.secrets.Keys + {s.name}
  {
    ApplyOne(c, CreateSecret(s));
  }

  // The configuration stage and those before it leave the StatefulSet alone.
  lemma StsUntouched(c: Cluster, in_: Input, c4: Cluster)
    requires !Blocked(c) && c4 == ApplyAll(AfterTls(c, in_), [PutConf(NewConf(AfterTls(c, in_), in_))])
    ensures NewSts(c4, in_) == NewSts(c, in_)
  {
    hide AfterTls, NewConf;
    JskSettled(c, in_);
    ApplyOne(AfterTls(c, in_), PutConf(NewConf(AfterTls(c, in_), in_)));
  }
}
