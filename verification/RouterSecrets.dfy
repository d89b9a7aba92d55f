/** The router's TLS secrets: which ones a pass builds, and how it stores them one by one in a store that may
    refuse any write. */
module RouterSecrets {
  import opened Wrappers
  import opened GoStrings
  import opened Certs

  const SITE_CA := "router-site-ca"
  const LOCAL_CA := "default-router-local-ca"
  const SITE_SERVER := "router-site-server"
  const LOCAL_SERVER := "router-local-server"

  type Secrets = map<string, Secret>

  datatype Input = Input(service: string, ns: string, address: string,
                         siteCaKey: int, localCaKey: int, siteKey: int, localKey: int)

  function Hosts(in_: Input): string { in_.service + "." + in_.ns + ".svc.cluster.local," + in_.address }

  function SiteCa(m: Secrets, in_: Input): Secret {
    if SITE_CA in m then m[SITE_CA] else Generated(SITE_CA, SITE_CA, SITE_CA, in_.siteCaKey, None)
  }

  function LocalCa(m: Secrets, in_: Input): Secret {
    if LOCAL_CA in m then m[LOCAL_CA] else Generated(LOCAL_CA, LOCAL_CA, LOCAL_CA, in_.localCaKey, None)
  }

  function SiteServer(m: Secrets, in_: Input): Secret {
    if SITE_SERVER in m then m[SITE_SERVER]
    else Generated(SITE_SERVER, "iofog-router", Hosts(in_), in_.siteKey, Some(SiteCa(m, in_)))
  }

  function LocalServer(m: Secrets, in_: Input): Secret {
    if LOCAL_SERVER in m then m[LOCAL_SERVER]
    else Generated(LOCAL_SERVER, "iofog-router-local", Hosts(in_), in_.localKey, Some(LocalCa(m, in_)))
  }

  // The microservice's secrets after createRouterSecrets: missing authorities, then both servers.
  function Built(m: Secrets, in_: Input): seq<Secret> {
    (if SITE_CA in m then [] else [SiteCa(m, in_)]) + (if LOCAL_CA in m then [] else [LocalCa(m, in_)]) +
    [SiteServer(m, in_), LocalServer(m, in_)]
  }

  // Storing ss in order, with `budget` writes accepted; an existing secret is skipped, or overwritten on update.
  function Stored(m: Secrets, ss: seq<Secret>, update: bool, budget: nat): Secrets
    decreases |ss|
  {
    if ss == [] then m
    else if ss[0].name in m && !update then Stored(m, ss[1..], update, budget)
    else if budget == 0 then m
    else Stored(m[ss[0].name := ss[0]], ss[1..], update, budget - 1)
  }

  // The number of writes that storing all of ss takes.
  function WritesNeeded(m: Secrets, ss: seq<Secret>, update: bool): nat
    decreases |ss|
  {
    if ss == [] then 0
    else if ss[0].name in m && !update then WritesNeeded(m, ss[1..], update)
    else 1 + WritesNeeded(m[ss[0].name := ss[0]], ss[1..], update)
  }

  class SecretStore {
    var secrets: Secrets
    var budget: nat

    constructor (m: Secrets, budget: nat)
      ensures secrets == m && this.budget == budget
    {
      secrets, this.budget := m, budget;
    }

    method CreateRouterSecrets(in_: Input) returns (built: seq<Secret>)
      ensures built == Built(secrets, in_)
    {
      hide Generated, Hosts;
      if SITE_CA in secrets && LOCAL_CA in secrets && SITE_SERVER in secrets && LOCAL_SERVER in secrets {
        return [secrets[SITE_SERVER], secrets[LOCAL_SERVER]];
      }
      built := [];
      var siteCa, localCa, server: Secret;
      if SITE_CA !in secrets {
        siteCa := GenerateSecret(SITE_CA, SITE_CA, SITE_CA, in_.siteCaKey, None);
        built := built + [siteCa];
      } else {
        siteCa := secrets[SITE_CA];
      }
      if LOCAL_CA !in secrets {
        localCa := GenerateSecret(LOCAL_CA, LOCAL_CA, LOCAL_CA, in_.localCaKey, None);
        built := built + [localCa];
      } else {
        localCa := secrets[LOCAL_CA];
      }
      if SITE_SERVER !in secrets {
        server := GenerateSecret(SITE_SERVER, "iofog-router", Hosts(in_), in_.siteKey, Some(siteCa));
      } else {
        server := secrets[SITE_SERVER];
      }
      built := built + [server];
      if LOCAL_SERVER !in secrets {
        server := GenerateSecret(LOCAL_SERVER, "iofog-router-local", Hosts(in_), in_.localKey, Some(localCa));
      } else {
        server := secrets[LOCAL_SERVER];
      }
      built := built + [server];
    }

    method CreateOrUpdateSecrets(ss: seq<Secret>, update: bool) returns (ok: bool)
      modifies this
      ensures secrets == Stored(old(secrets), ss, update, old(budget))
      ensures ok <==> old(budget) >= WritesNeeded(old(secrets), ss, update)
    {
      assert ss[0..] == ss;
      for i := 0 to |ss|
        invariant Stored(old(secrets), ss, update, old(budget)) == Stored(secrets, ss[i..], update, budget)
        invariant old(budget) >= WritesNeeded(old(secrets), ss, update)
             <==> budget >= WritesNeeded(secrets, ss[i..], update)
      {
        assert ss[i..][1..] == ss[i + 1..];
        var secret := ss[i];
        if secret.name in secrets && !update {
          continue;
        }
        if budget == 0 {
          return false;
        }
        secrets, budget := secrets[secret.name := secret], budget - 1;
      }
      ok := true;
    }

    // The secret part of reconcileRouter.
    method ReconcileRouterSecrets(in_: Input) returns (ok: bool)
      modifies this
      ensures secrets == Pass(old(secrets), in_, old(budget))
      ensures ok <==> old(budget) >= WritesNeeded(old(secrets), Built(old(secrets), in_), false)
    {
      var built := CreateRouterSecrets(in_);
      ok := CreateOrUpdateSecrets(built, false);
    }
  }

  /* ----- the chain over runs ----- */

  // Every secret is stored under its own name.
  predicate Named(m: Secrets) { forall k :: k in m ==> m[k].name == k }

  // Every stored router server certificate has its authority stored and was issued by it.
  predicate Chained(m: Secrets) {
    && (SITE_CA in m ==> m[SITE_CA].tlsCrt.isCA)
    && (LOCAL_CA in m ==> m[LOCAL_CA].tlsCrt.isCA)
    && (SITE_SERVER in m ==> SITE_CA in m && IssuedBy(m[SITE_SERVER], m[SITE_CA]))
    && (LOCAL_SERVER in m ==> LOCAL_CA in m && IssuedBy(m[LOCAL_SERVER], m[LOCAL_CA]))
  }

  predicate Sound(m: Secrets) { Named(m) && Chained(m) }

  function Pass(m: Secrets, in_: Input, budget: nat): Secrets { Stored(m, Built(m, in_), false, budget) }

  function Added(m: Secrets, s: Secret): Secrets { if s.name in m then m else m[s.name := s] }

  // Adding the secrets one by one never leaves an unsound store.
  predicate SoundSteps(m: Secrets, ss: seq<Secret>)
    decreases |ss|
  {
    Sound(m) && (ss == [] || SoundSteps(Added(m, ss[0]), ss[1..]))
  }

  lemma {:induction false} StoredSound(m: Secrets, ss: seq<Secret>, budget: nat)
    requires SoundSteps(m, ss)
    ensures Sound(Stored(m, ss, false, budget))
    decreases |ss|
  {
    hide Sound;
    if ss != [] && (ss[0].name in m || budget > 0) {
      StoredSound(Added(m, ss[0]), ss[1..], if ss[0].name in m then budget else budget - 1);
    }
  }

  lemma {:induction false} StoredKeys(m: Secrets, ss: seq<Secret>, budget: nat)
    requires budget >= WritesNeeded(m, ss, false)
    ensures m.Keys <= Stored(m, ss, false, budget).Keys
    ensures forall s :: s in ss ==> s.name in Stored(m, ss, false, budget)
    decreases |ss|
  {
    if ss != [] {
      StoredKeys(Added(m, ss[0]), ss[1..], if ss[0].name in m then budget else budget - 1);
      assert ss == [ss[0]] + ss[1..];
    }
  }

  lemma SecretNames(m: Secrets, in_: Input)
    requires Named(m)
    ensures SiteCa(m, in_).name == SITE_CA && LocalCa(m, in_).name == LOCAL_CA
    ensures SiteServer(m, in_).name == SITE_SERVER && LocalServer(m, in_).name == LOCAL_SERVER
  {
    hide Hosts, Sans;
  }

  lemma AuthoritiesSelfSigned(m: Secrets, in_: Input)
    requires Sound(m)
    ensures SiteCa(m, in_).tlsCrt.isCA && LocalCa(m, in_).tlsCrt.isCA
  {
    hide Hosts, Sans, IssuedBy;
  }

  lemma ServersIssued(m: Secrets, in_: Input)
    requires Sound(m)
    ensures IssuedBy(SiteServer(m, in_), SiteCa(m, in_)) && IssuedBy(LocalServer(m, in_), LocalCa(m, in_))
  {
    AuthoritiesSelfSigned(m, in_);
    hide Hosts, Sans;
  }

  lemma AddAuthority(m: Secrets, s: Secret)
    requires Sound(m) && (s.name == SITE_CA || s.name == LOCAL_CA) && s.tlsCrt.isCA
    ensures Sound(Added(m, s))
  {
    hide IssuedBy;
  }

  lemma AddServer(m: Secrets, s: Secret, ca: string)
    requires Sound(m) && (s.name, ca) in {(SITE_SERVER, SITE_CA), (LOCAL_SERVER, LOCAL_CA)}
    requires ca in m && IssuedBy(s, m[ca])
    ensures Sound(Added(m, s))
  {
    hide IssuedBy;
  }

  lemma SoundCons(m: Secrets, s: Secret, rest: seq<Secret>)
    requires Sound(m) && Sound(Added(m, s)) && (rest == [] || SoundSteps(Added(m, s), rest))
    ensures SoundSteps(m, [s] + rest)
  {
    hide Sound, Added;
    assert ([s] + rest)[1..] == rest;
  }

  // Listing s only when it is missing makes no difference to soundness.
  lemma SoundMissing(m: Secrets, s: Secret, rest: seq<Secret>, present: bool)
    requires Sound(m) && SoundSteps(Added(m, s), rest) && (present <==> s.name in m)
    ensures SoundSteps(m, (if present then [] else [s]) + rest)
  {
    hide Sound;
    if present {
      assert [] + rest == rest;
    } else {
      SoundCons(m, s, rest);
    }
  }

  lemma SoundNamed(m: Secrets)
    requires Sound(m)
    ensures Named(m)
  {
  }

  // Once both authorities are in, they are the ones the servers were made with.
  lemma StoredAuthority(m: Secrets, in_: Input)
    requires Named(m)
    ensures var m2 := Added(Added(m, SiteCa(m, in_)), LocalCa(m, in_));
      && SITE_CA in m2 && m2[SITE_CA] == SiteCa(m, in_) && LOCAL_CA in m2 && m2[LOCAL_CA] == LocalCa(m, in_)
  {
    SecretNames(m, in_);
    hide Generated;
  }

  // The authorities come before the servers they sign, so every step is sound.
  lemma BuiltSteps(m: Secrets, in_: Input)
    requires Sound(m)
    ensures SoundSteps(m, Built(m, in_))
  {
    hide SiteCa, LocalCa, SiteServer, LocalServer, Sound, IssuedBy;
    assert Named(m) by { SoundNamed(m); }
    SecretNames(m, in_);
    AuthoritiesSelfSigned(m, in_);
    ServersIssued(m, in_);
    var m1 := Added(m, SiteCa(m, in_));
    var m2 := Added(m1, LocalCa(m, in_));
    var m3 := Added(m2, SiteServer(m, in_));
    var servers := [SiteServer(m, in_), LocalServer(m, in_)];
    AddAuthority(m, SiteCa(m, in_));
    AddAuthority(m1, LocalCa(m, in_));
    StoredAuthority(m, in_);
    AddServer(m2, SiteServer(m, in_), SITE_CA);
    AddServer(m3, LocalServer(m, in_), LOCAL_CA);
    SoundCons(m3, LocalServer(m, in_), []);
    SoundCons(m2, SiteServer(m, in_), [LocalServer(m, in_)]);
    assert servers == [SiteServer(m, in_)] + [LocalServer(m, in_)];
    SoundMissing(m1, LocalCa(m, in_), servers, LOCAL_CA in m);
    SoundMissing(m, SiteCa(m, in_), (if LOCAL_CA in m then [] else [LocalCa(m, in_)]) + servers, SITE_CA in m);
    assert Built(m, in_) == (if SITE_CA in m then [] else [SiteCa(m, in_)]) +
      ((if LOCAL_CA in m then [] else [LocalCa(m, in_)]) + servers);
  }

  // A pass that could make all its writes leaves all four secrets stored.
  lemma CompletePassStoresAll(m: Secrets, in_: Input, budget: nat)
    requires Named(m) && budget >= WritesNeeded(m, Built(m, in_), false)
    ensures {SITE_CA, LOCAL_CA, SITE_SERVER, LOCAL_SERVER} <= Pass(m, in_, budget).Keys
  {
    hide Stored, WritesNeeded, SiteCa, LocalCa, SiteServer, LocalServer;
    SecretNames(m, in_);
    StoredKeys(m, Built(m, in_), budget);
    assert SiteServer(m, in_) in Built(m, in_) && LocalServer(m, in_) in Built(m, in_);
    assert SITE_CA !in m ==> SiteCa(m, in_) in Built(m, in_);
    assert LOCAL_CA !in m ==> LocalCa(m, in_) in Built(m, in_);
  }

  datatype Event = Event(in_: Input, budget: nat)

  function Run(m: Secrets, events: seq<Event>): Secrets {
    if events == [] then m
    else Pass(Run(m, events[..|events| - 1]), events[|events| - 1].in_, events[|events| - 1].budget)
  }

  // From an empty store, at every point of every run: each stored router server certificate has its authority
  // stored and carries that authority's certificate.
  lemma {:induction false} RouterChainAlways(events: seq<Event>)
    ensures Sound(Run(map[], events))
  {
    hide Built, Stored, SoundSteps;
    if events != [] {
      var m, last := Run(map[], events[..|events| - 1]), events[|events| - 1];
      RouterChainAlways(events[..|events| - 1]);
      BuiltSteps(m, last.in_);
      StoredSound(m, Built(m, last.in_), last.budget);
    }
  }

  /* ----- what a pass builds, and what it stores ----- */

  // The list that a pass builds: the missing authorities, then both servers.
  lemma BuiltInOrder(m: Secrets, in_: Input)
    requires Named(m)
    ensures NamesOf(Built(m, in_)) ==
      (if "router-site-ca" in m then [] else ["router-site-ca"]) +
      (if "default-router-local-ca" in m then [] else ["default-router-local-ca"]) +
      ["router-site-server", "router-local-server"]
  {
    SecretNames(m, in_);
    hide SiteCa, LocalCa, SiteServer, LocalServer, NamesOf, Named;
    var a := if SITE_CA in m then [] else [SiteCa(m, in_)];
    var b := if LOCAL_CA in m then [] else [LocalCa(m, in_)];
    var c := [SiteServer(m, in_), LocalServer(m, in_)];
    NamesAppend(a + b, c);
    NamesAppend(a, b);
    ShortNames(SiteCa(m, in_), LocalCa(m, in_));
    ShortNames(SiteServer(m, in_), LocalServer(m, in_));
  }

  lemma NamesAppend(a: seq<Secret>, b: seq<Secret>)
    ensures NamesOf(a + b) == NamesOf(a) + NamesOf(b)
  {
  }

  lemma ShortNames(s: Secret, t: Secret)
    ensures NamesOf([]) == [] && NamesOf([s]) == [s.name] && NamesOf([t]) == [t.name] && NamesOf([s, t]) == [s.name, t.name]
  {
  }

  // What is stored is taken as it is.
  lemma StoredTaken(m: Secrets, in_: Input)
    ensures "router-site-ca" in m ==> SiteCa(m, in_) == m["router-site-ca"]
    ensures "default-router-local-ca" in m ==> LocalCa(m, in_) == m["default-router-local-ca"]
    ensures "router-site-server" in m ==> SiteServer(m, in_) == m["router-site-server"]
    ensures "router-local-server" in m ==> LocalServer(m, in_) == m["router-local-server"]
  {
    hide Generated, Hosts;
  }

  function NamesOf(ss: seq<Secret>): seq<string> { seq(|ss|, i requires 0 <= i < |ss| => ss[i].name) }

  // A missing authority is self-signed and named after itself.
  lemma NewAuthorities(m: Secrets, in_: Input)
    ensures "router-site-ca" !in m ==>
      SiteCa(m, in_).tlsCrt == Cert("router-site-ca", ["router-site-ca"], in_.siteCaKey, in_.siteCaKey, true)
    ensures "default-router-local-ca" !in m ==>
      LocalCa(m, in_).tlsCrt
      == Cert("default-router-local-ca", ["default-router-local-ca"], in_.localCaKey, in_.localCaKey, true)
  {
    AuthorityNames("router-site-ca", in_.siteCaKey);
    AuthorityNames("default-router-local-ca", in_.localCaKey);
    hide Generated;
  }

  lemma AuthorityNames(name: string, keyId: int)
    requires name in ["router-site-ca", "default-router-local-ca"]
    ensures Generated(name, name, name, keyId, None).tlsCrt == Cert(name, [name], keyId, keyId, true)
  {
    assert ',' !in name && NoEdge(name, WHITESPACE);
    OneName(name);
    hide Split, Sans, WHITESPACE;
  }

  // A missing server is made for the service host and the address, and signed by its own authority.
  lemma NewServers(m: Secrets, in_: Input)
    requires ',' !in in_.service + "." + in_.ns + ".svc.cluster.local"
    ensures var names := [TrimSpace(in_.service + "." + in_.ns + ".svc.cluster.local")] + Sans(Split(in_.address, ','));
      var site, local := SiteCa(m, in_).tlsCrt, LocalCa(m, in_).tlsCrt;
      var newSite := Cert("iofog-router", names, in_.siteKey, site.keyId, false);
      var newLocal := Cert("iofog-router-local", names, in_.localKey, local.keyId, false);
      && ("router-site-server" in m || SiteServer(m, in_) == Secret("router-site-server", newSite, site, map[]))
      && ("router-local-server" in m || LocalServer(m, in_) == Secret("router-local-server", newLocal, local, map[]))
  {
    GeneratedNamesService(SITE_SERVER, "iofog-router", in_, in_.siteKey, SiteCa(m, in_));
    GeneratedNamesService(LOCAL_SERVER, "iofog-router-local", in_, in_.localKey, LocalCa(m, in_));
    hide TrimSpace, Split, Sans, Hosts, SiteCa, LocalCa;
  }

  // Storing with update: with enough writes, each name of the list ends with the last secret of that name, and what the
  // list does not name stays.
  lemma {:induction false} StoredUpdates(m: Secrets, ss: seq<Secret>, budget: nat, k: string)
    requires budget >= WritesNeeded(m, ss, true)
    ensures WritesNeeded(m, ss, true) == |ss|
    ensures var d := Stored(m, ss, true, budget);
      if k in NamesOf(ss) then k in d && IsLast(ss, d[k], k) else (k in d <==> k in m) && (k in m ==> d[k] == m[k])
    decreases |ss|
  {
    hide IsLast;
    if ss != [] {
      var rest := ss[1..];
      StoredUpdates(m[ss[0].name := ss[0]], rest, budget - 1, k);
      assert NamesOf(ss) == [ss[0].name] + NamesOf(rest);
      if k in NamesOf(rest) {
        LastStays(ss, Stored(m, ss, true, budget)[k], k);
      } else if k == ss[0].name {
        OnlyFirst(ss, k);
      }
    }
  }

  // s is the last secret of this name in the list.
  ghost predicate IsLast(ss: seq<Secret>, s: Secret, k: string) {
    exists i :: 0 <= i < |ss| && ss[i] == s && s.name == k && forall j :: i < j < |ss| ==> ss[j].name != k
  }

  lemma LastStays(ss: seq<Secret>, s: Secret, k: string)
    requires ss != [] && IsLast(ss[1..], s, k)
    ensures IsLast(ss, s, k)
  {
    var rest := ss[1..];
    var i :| 0 <= i < |rest| && rest[i] == s && s.name == k && forall j :: i < j < |rest| ==> rest[j].name != k;
    assert ss[i + 1] == s;
    forall j | i + 1 < j < |ss| ensures ss[j].name != k { assert rest[j - 1] == ss[j]; }
  }

  lemma OnlyFirst(ss: seq<Secret>, k: string)
    requires ss != [] && ss[0].name == k && k !in NamesOf(ss[1..])
    ensures IsLast(ss, ss[0], k)
  {
    var rest := ss[1..];
    forall j | 0 < j < |ss| ensures ss[j].name != k { assert NamesOf(rest)[j - 1] == ss[j].name; }
  }

  /* ----- what stays, and what the certificates name ----- */

  // No pass replaces a stored secret.
  lemma {:induction false} StoredKeeps(m: Secrets, ss: seq<Secret>, budget: nat)
    ensures forall k :: k in m ==> k in Stored(m, ss, false, budget) && Stored(m, ss, false, budget)[k] == m[k]
    decreases |ss|
  {
    if ss != [] && (ss[0].name in m || budget > 0) {
      StoredKeeps(Added(m, ss[0]), ss[1..], if ss[0].name in m then budget else budget - 1);
    }
  }

  predicate IsServer(name: string) { name == SITE_SERVER || name == LOCAL_SERVER }

  predicate ServersName(m: Secrets, host: string) {
    forall k :: k in m && IsServer(k) ==> host in m[k].tlsCrt.dnsNames
  }

  function ServiceHost(in_: Input): string { in_.service + "." + in_.ns + ".svc.cluster.local" }

  lemma GeneratedNamesService(name: string, subject: string, in_: Input, keyId: int, ca: Secret)
    requires ',' !in ServiceHost(in_)
    ensures Generated(name, subject, Hosts(in_), keyId, Some(ca)).tlsCrt.dnsNames
         == [TrimSpace(ServiceHost(in_))] + Sans(Split(in_.address, ','))
  {
    hide Split, TrimSpace;
    assert Hosts(in_) == ServiceHost(in_) + [','] + in_.address;
    SplitPrefix(ServiceHost(in_), in_.address, ',');
    assert Sans(Split(Hosts(in_), ','))[0] == TrimSpace(ServiceHost(in_));
  }

  lemma BuiltNamesService(m: Secrets, in_: Input)
    requires Named(m) && ServersName(m, TrimSpace(ServiceHost(in_))) && ',' !in ServiceHost(in_)
    ensures forall s :: s in Built(m, in_) && IsServer(s.name) ==> TrimSpace(ServiceHost(in_)) in s.tlsCrt.dnsNames
  {
    hide Generated, ServiceHost, TrimSpace, Hosts;
    GeneratedNamesService(SITE_SERVER, "iofog-router", in_, in_.siteKey, SiteCa(m, in_));
    GeneratedNamesService(LOCAL_SERVER, "iofog-router-local", in_, in_.localKey, LocalCa(m, in_));
    SecretNames(m, in_);
  }

  lemma {:induction false} StoredNamesService(m: Secrets, ss: seq<Secret>, budget: nat, host: string)
    requires ServersName(m, host) && forall s :: s in ss && IsServer(s.name) ==> host in s.tlsCrt.dnsNames
    ensures ServersName(Stored(m, ss, false, budget), host)
    decreases |ss|
  {
    if ss != [] && (ss[0].name in m || budget > 0) {
      StoredNamesService(Added(m, ss[0]), ss[1..], if ss[0].name in m then budget else budget - 1, host);
    }
  }

  lemma NothingNamed(host: string)
    ensures ServersName(map[], host)
  {
  }

  // At every point of every run for one service, each stored server certificate names that service's host.
  lemma {:induction false} ServiceHostAlwaysNamed(events: seq<Event>, service: string, ns: string)
    requires ',' !in service + "." + ns + ".svc.cluster.local"
    requires forall e :: e in events ==> e.in_.service == service && e.in_.ns == ns
    ensures ServersName(Run(map[], events), TrimSpace(service + "." + ns + ".svc.cluster.local"))
  {
    hide Built, Stored, TrimSpace, ServersName, Chained;
    if events == [] {
      NothingNamed(TrimSpace(service + "." + ns + ".svc.cluster.local"));
    } else {
      var m, last := Run(map[], events[..|events| - 1]), events[|events| - 1];
      ServiceHostAlwaysNamed(events[..|events| - 1], service, ns);
      RouterChainAlways(events[..|events| - 1]);
      assert last in events && ServiceHost(last.in_) == service + "." + ns + ".svc.cluster.local";
      BuiltNamesService(m, last.in_);
      StoredNamesService(m, Built(m, last.in_), last.budget, TrimSpace(ServiceHost(last.in_)));
    }
  }
}
