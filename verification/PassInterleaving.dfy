/** The objects that the three sub-reconcilers of one pass touch, call by call, and exactly when the order in which
    their calls interleave does not matter: each of them looks the image pull secret up, so that secret must not be
    one that the NATS sub-reconciler stores before its own lookup or deletes in order to store it again. */
module PassInterleaving {
  import opened Wrappers
  import opened Interleaving

  function Account(name: string): seq<Key> { Twice([Key(ServiceAccount, name), Key(Role, name), Key(RoleBinding, name)]) }

  // Get, then create or update.
  function Twice(keys: seq<Key>): seq<Key> {
    if keys == [] then [] else [keys[0], keys[0]] + Twice(keys[1..])
  }

  function Secrets(names: seq<string>): seq<Key> { seq(|names|, i requires 0 <= i < |names| => Key(Secret, names[i])) }

  const ROUTER_SECRETS := ["router-site-ca", "default-router-local-ca", "router-site-server", "router-local-server"]

  // reconcileRouter after its image pull secret lookup.
  function RouterCalls(): seq<Key> {
    Account("router") + Twice([Key(Service, "router")]) + Secrets(ROUTER_SECRETS) + Twice(Secrets(ROUTER_SECRETS)) +
    Twice([Key(ConfigMap, "iofog-router"), Key(Deployment, "router")])
  }

  const NATS_TLS := ["nats-site-ca", "default-nats-local-ca", "nats-site-server", "nats-mqtt-server"]

  function JetStreamKey(cp: string): Key { Key(Secret, "nats-jetstream-key-" + cp) }

  // reconcileNats before its image pull secret lookup: the bootstrap secrets (create, get, update), the JetStream key.
  function NatsFirstCalls(cp: string): seq<Key> {
    var seed, creds := Key(Secret, "nats-operator-seed"), Key(Secret, "nats-creds-sys-admin-hub");
    [seed, seed, seed, creds, creds, creds, JetStreamKey(cp), JetStreamKey(cp)]
  }

  // And after it.
  function NatsLastCalls(cp: string): seq<Key> {
    Account("nats") + Twice([Key(Service, "nats-headless"), Key(Service, "nats"), Key(Service, "nats-server")]) +
    Secrets(["nats-site-server", "nats-site-server", "nats-mqtt-server"]) + Secrets(NATS_TLS) + Secrets(NATS_TLS) +
    [JetStreamKey(cp), Key(ConfigMap, "iofog-nats-config")] + Twice([Key(ConfigMap, "iofog-nats-config")]) +
    [Key(ConfigMap, "iofog-nats-jwt-bundle"), Key(StatefulSet, "nats")] + Twice([Key(StatefulSet, "nats")])
  }

  const CONTROLLER_SECRETS := ["controller-db-credentials", "controller-auth-credentials", "controller-vault-credentials"]

  // reconcileIofogController after its image pull secret lookup, ending with the restart's get and two updates.
  function ControllerCalls(): seq<Key> {
    Account("controller") + Twice(Secrets(["controller-db-credentials", "controller-vault-credentials"])) +
    Twice(Secrets(CONTROLLER_SECRETS)) + Twice([Key(Service, "controller"), Key(Ingress, "pot-controller")]) +
    Twice([Key(PersistentVolumeClaim, "controller-sqlite")]) + [Key(Deployment, "controller")] +
    Twice([Key(Deployment, "controller")]) + [Key(Ingress, "pot-controller")] +
    [Key(Deployment, "controller"), Key(Deployment, "controller"), Key(Deployment, "controller")]
  }

  // Every call of a pass, with the lookup of the image pull secret that precedes each service account.
  function PassCalls(cp: string, pull: string): (calls: seq<seq<Key>>)
    ensures |calls| == 3
  {
    [[Key(Secret, pull)] + RouterCalls(),
     NatsFirstCalls(cp) + [Key(Secret, pull)] + NatsLastCalls(cp),
     [Key(Secret, pull)] + ControllerCalls()]
  }

  /* ----- who owns what ----- */

  predicate RouterNamed(k: Key) {
    match k.kind
    case Secret => k.name in ROUTER_SECRETS
    case ConfigMap => k.name == "iofog-router"
    case _ => k.name == "router"
  }

  predicate NatsNamed(cp: string, k: Key) {
    match k.kind
    case Secret => k.name in NATS_TLS || k.name in ["nats-operator-seed", "nats-creds-sys-admin-hub"] || k == JetStreamKey(cp)
    case ConfigMap => k.name == "iofog-nats-config" || k.name == "iofog-nats-jwt-bundle"
    case Service => k.name in ["nats-headless", "nats", "nats-server"]
    case _ => k.name == "nats"
  }

  predicate ControllerNamed(k: Key) {
    match k.kind
    case Secret => k.name in CONTROLLER_SECRETS
    case Ingress => k.name == "pot-controller"
    case PersistentVolumeClaim => k.name == "controller-sqlite"
    case _ => k.name == "controller"
  }

  // No object is written by two sub-reconcilers, whatever the control plane is called.
  lemma NamesDisjoint(cp: string, k: Key)
    ensures !(RouterNamed(k) && NatsNamed(cp, k))
    ensures !(RouterNamed(k) && ControllerNamed(k))
    ensures !(NatsNamed(cp, k) && ControllerNamed(k))
  {
    assert JetStreamKey(cp).name[0] == 'n' && JetStreamKey(cp).name[5] == 'j';
  }

  function OwnerOf(cp: string, k: Key): int {
    if RouterNamed(k) then 0 else if NatsNamed(cp, k) then 1 else if ControllerNamed(k) then 2 else -1
  }

  predicate OperatorSecret(cp: string, name: string) { OwnerOf(cp, Key(Secret, name)) >= 0 }

  lemma {:induction false} InTwice(keys: seq<Key>, k: Key)
    ensures k in Twice(keys) <==> k in keys
  {
    if keys != [] {
      InTwice(keys[1..], k);
      assert keys == [keys[0]] + keys[1..];
    }
  }

  lemma InSecrets(names: seq<string>, k: Key)
    ensures k in Secrets(names) <==> k.kind == Secret && k.name in names
  {
    if k.kind == Secret && k.name in names {
      var i :| 0 <= i < |names| && names[i] == k.name;
      assert Secrets(names)[i] == k;
    }
  }

  lemma InAccount(name: string, k: Key)
    ensures k in Account(name) <==> k.kind in {ServiceAccount, Role, RoleBinding} && k.name == name
  {
    hide Twice;
    InTwice([Key(ServiceAccount, name), Key(Role, name), Key(RoleBinding, name)], k);
  }

  lemma RouterCallsNamed(k: Key)
    requires k in RouterCalls()
    ensures RouterNamed(k)
  {
    hide Twice, Account, Secrets;
    InAccount("router", k);
    InTwice([Key(Service, "router")], k);
    InSecrets(ROUTER_SECRETS, k);
    InTwice(Secrets(ROUTER_SECRETS), k);
    InTwice([Key(ConfigMap, "iofog-router"), Key(Deployment, "router")], k);
  }

  lemma NatsCallsNamed(cp: string, k: Key)
    requires k in NatsFirstCalls(cp) + NatsLastCalls(cp)
    ensures NatsNamed(cp, k)
  {
    hide Twice, Account, Secrets;
    InAccount("nats", k);
    InTwice([Key(Service, "nats-headless"), Key(Service, "nats"), Key(Service, "nats-server")], k);
    InSecrets(["nats-site-server", "nats-site-server", "nats-mqtt-server"], k);
    InSecrets(NATS_TLS, k);
    InTwice([Key(ConfigMap, "iofog-nats-config")], k);
    InTwice([Key(StatefulSet, "nats")], k);
  }

  lemma ControllerCallsNamed(k: Key)
    requires k in ControllerCalls()
    ensures ControllerNamed(k)
  {
    hide Twice, Account, Secrets;
    InAccount("controller", k);
    InSecrets(["controller-db-credentials", "controller-vault-credentials"], k);
    InTwice(Secrets(["controller-db-credentials", "controller-vault-credentials"]), k);
    InSecrets(CONTROLLER_SECRETS, k);
    InTwice(Secrets(CONTROLLER_SECRETS), k);
    InTwice([Key(Service, "controller"), Key(Ingress, "pot-controller")], k);
    InTwice([Key(PersistentVolumeClaim, "controller-sqlite")], k);
    InTwice([Key(Deployment, "controller")], k);
  }

  // Every object that a sub-reconciler names, and no other.
  lemma RouterCallsExactly(k: Key)
    ensures k in RouterCalls() <==>
      k in [Key(ServiceAccount, "router"), Key(Role, "router"), Key(RoleBinding, "router"), Key(Service, "router"),
       Key(Secret, "router-site-ca"), Key(Secret, "default-router-local-ca"),
       Key(Secret, "router-site-server"), Key(Secret, "router-local-server"),
       Key(ConfigMap, "iofog-router"), Key(Deployment, "router")]
  {
    hide Twice, Account, Secrets;
    InAccount("router", k);
    InTwice([Key(Service, "router")], k);
    InSecrets(ROUTER_SECRETS, k);
    InTwice(Secrets(ROUTER_SECRETS), k);
    InTwice([Key(ConfigMap, "iofog-router"), Key(Deployment, "router")], k);
  }

  lemma NatsCallsExactly(cp: string, k: Key)
    ensures k in NatsFirstCalls(cp) + NatsLastCalls(cp) <==>
      k in [Key(Secret, "nats-operator-seed"), Key(Secret, "nats-creds-sys-admin-hub"), Key(Secret, "nats-jetstream-key-" + cp),
       Key(ServiceAccount, "nats"), Key(Role, "nats"), Key(RoleBinding, "nats"),
       Key(Service, "nats-headless"), Key(Service, "nats"), Key(Service, "nats-server"),
       Key(Secret, "nats-site-ca"), Key(Secret, "default-nats-local-ca"),
       Key(Secret, "nats-site-server"), Key(Secret, "nats-mqtt-server"),
       Key(ConfigMap, "iofog-nats-config"), Key(ConfigMap, "iofog-nats-jwt-bundle"), Key(StatefulSet, "nats")]
  {
    hide Twice, Account, Secrets;
    InAccount("nats", k);
    InTwice([Key(Service, "nats-headless"), Key(Service, "nats"), Key(Service, "nats-server")], k);
    InSecrets(["nats-site-server", "nats-site-server", "nats-mqtt-server"], k);
    InSecrets(NATS_TLS, k);
    InTwice([Key(ConfigMap, "iofog-nats-config")], k);
    InTwice([Key(StatefulSet, "nats")], k);
  }

  lemma ControllerCallsExactly(k: Key)
    ensures k in ControllerCalls() <==>
      k in [Key(ServiceAccount, "controller"), Key(Role, "controller"), Key(RoleBinding, "controller"),
       Key(Secret, "controller-db-credentials"), Key(Secret, "controller-auth-credentials"),
       Key(Secret, "controller-vault-credentials"), Key(Service, "controller"), Key(Ingress, "pot-controller"),
       Key(PersistentVolumeClaim, "controller-sqlite"), Key(Deployment, "controller")]
  {
    hide Twice, Account, Secrets;
    InAccount("controller", k);
    InSecrets(["controller-db-credentials", "controller-vault-credentials"], k);
    InTwice(Secrets(["controller-db-credentials", "controller-vault-credentials"]), k);
    InSecrets(CONTROLLER_SECRETS, k);
    InTwice(Secrets(CONTROLLER_SECRETS), k);
    InTwice([Key(Service, "controller"), Key(Ingress, "pot-controller")], k);
    InTwice([Key(PersistentVolumeClaim, "controller-sqlite")], k);
    InTwice([Key(Deployment, "controller")], k);
  }

  // The position of each sub-reconciler's lookup of the image pull secret among its calls.
  function LookupAt(cp: string, i: nat): nat { if i == 1 then |NatsFirstCalls(cp)| else 0 }

  // Every call but the lookup names an object of the sub-reconciler's own.
  lemma CallsOwned(cp: string, pull: string, i: nat, n: nat)
    requires i < 3 && n < |PassCalls(cp, pull)[i]|
    ensures LookupAt(cp, i) < |PassCalls(cp, pull)[i]|
    ensures n == LookupAt(cp, i) ==> PassCalls(cp, pull)[i][n] == Key(Secret, pull)
    ensures n != LookupAt(cp, i) ==> OwnerOf(cp, PassCalls(cp, pull)[i][n]) == i
    ensures i == 1 && n < LookupAt(cp, i) ==> PassCalls(cp, pull)[i][n] == NatsFirstCalls(cp)[n]
  {
    hide RouterCalls, NatsFirstCalls, NatsLastCalls, ControllerCalls, RouterNamed, NatsNamed, ControllerNamed;
    var k := PassCalls(cp, pull)[i][n];
    if n != LookupAt(cp, i) {
      NamesDisjoint(cp, k);
      if i == 0 {
        assert k == RouterCalls()[n - 1];
        RouterCallsNamed(k);
      } else if i == 1 {
        var m := |NatsFirstCalls(cp)|;
        assert k == if n < m then NatsFirstCalls(cp)[n] else NatsLastCalls(cp)[n - m - 1];
        NatsCallsNamed(cp, k);
      } else {
        assert k == ControllerCalls()[n - 1];
        ControllerCallsNamed(k);
      }
    }
  }

  /* ----- a whole pass ----- */

  // The server certificates that the NATS sub-reconciler deletes when they are stale, and stores again.
  const RECREATED := ["nats-site-server", "nats-mqtt-server"]

  // The lookup in createServiceAccount: it changes nothing, depends on the secret's presence and type only, and
  // makes the sub-reconciler return when there is no such secret. Without an image pull secret there is no lookup.
  ghost predicate LooksUp<L(!new), V(!new), T>(t: Thread<L, V>, n: nat, pull: string, returned: L -> bool,
      typeOf: V -> T)
  {
    && OnlyReads(t, n)
    && (pull != "" ==> forall known :: returned(t.act(n, known, None).0))
    && forall known, v, w :: typeOf(v) == typeOf(w) ==> t.act(n, known, Some(v)).0 == t.act(n, known, Some(w)).0
  }

  // A sub-reconciler that has returned does nothing more.
  ghost predicate StopsOnceReturned<L(!new), V(!new)>(t: Thread<L, V>, returned: L -> bool) {
    forall n: nat, known, v :: returned(known) ==> returned(t.act(n, known, v).0) && t.act(n, known, v).1 == v
  }

  // A secret's type cannot be changed, and only the two recreated ones are ever deleted.
  ghost predicate KeepsSecrets<L(!new), V(!new), T>(t: Thread<L, V>, typeOf: V -> T) {
    forall n, known, v ::
      0 <= n < |t.calls| && t.calls[n].kind == Secret && t.calls[n].name !in RECREATED ==>
        var left := t.act(n, known, Some(v)).1; left.Some? && typeOf(left.value) == typeOf(v)
  }

  // The three sub-reconcilers of a pass, whatever they compute.
  ghost predicate IsPass<L(!new), V(!new), T>(ts: seq<Thread<L, V>>, cp: string, pull: string,
      returned: L -> bool, typeOf: V -> T)
  {
    |ts| == 3 && forall i :: 0 <= i < 3 ==>
      && ts[i].calls == PassCalls(cp, pull)[i]
      && LooksUp(ts[i], LookupAt(cp, i), pull, returned, typeOf)
      && StopsOnceReturned(ts[i], returned)
      && KeepsSecrets(ts[i], typeOf)
  }

  // The secrets that come or go while others may look them up: those stored before the NATS lookup, and the
  // recreated ones.
  predicate Unsteady(cp: string, name: string) {
    name in ["nats-operator-seed", "nats-creds-sys-admin-hub"] || Key(Secret, name) == JetStreamKey(cp) || name in RECREATED
  }

  lemma UnsteadyAreOperators(cp: string, name: string)
    ensures Unsteady(cp, name) ==> OperatorSecret(cp, name)
    ensures !OperatorSecret(cp, "") && OperatorSecret(cp, "router-site-ca") && !Unsteady(cp, "router-site-ca")
  {
    NamesDisjoint(cp, Key(Secret, name));
    assert JetStreamKey(cp).name[0] == 'n' && "router-site-ca"[0] == 'r';
  }

  // Any other secret that a sub-reconciler writes, it writes after its own lookup of it.
  lemma LookupFirst(cp: string, pull: string, i: nat, n: nat)
    requires i < 3 && n < |PassCalls(cp, pull)[i]| && !Unsteady(cp, pull)
    requires PassCalls(cp, pull)[i][n] == Key(Secret, pull) && n != LookupAt(cp, i)
    ensures n > LookupAt(cp, i) && pull != ""
  {
    hide OwnerOf, PassCalls, NatsFirstCalls;
    CallsOwned(cp, pull, i, n);
    UnsteadyAreOperators(cp, pull);
    if n < LookupAt(cp, i) {
      FirstCallsUnsteady(cp, n);
    }
  }

  lemma FirstCallsUnsteady(cp: string, n: nat)
    requires n < |NatsFirstCalls(cp)|
    ensures var k := NatsFirstCalls(cp)[n]; k.kind == Secret && Unsteady(cp, k.name)
  {
  }

  /* ----- a secret that is steady ----- */

  function TypeIn<V, T>(v: Option<V>, typeOf: V -> T): Option<T> { if v.Some? then Some(typeOf(v.value)) else None }

  // The image pull secret is present, and of its type, exactly as at the start; if it is missing, whoever looked it up
  // has returned.
  ghost predicate Frozen<L(!new), V(!new), T>(s: State<L, V>, cp: string, pull: string, first: Option<V>,
      returned: L -> bool, typeOf: V -> T)
  {
    && |s.done| == 3 && |s.known| == 3
    && TypeIn(Lookup(s.store, Key(Secret, pull)), typeOf) == TypeIn(first, typeOf)
    && (first.None? && pull != "" ==> forall i :: 0 <= i < 3 && s.done[i] > LookupAt(cp, i) ==> returned(s.known[i]))
  }

  lemma FrozenStep<L(!new), V(!new), T>(ts: seq<Thread<L, V>>, s: State<L, V>, i: nat, cp: string, pull: string,
      first: Option<V>, returned: L -> bool, typeOf: V -> T)
    requires IsPass(ts, cp, pull, returned, typeOf) && !Unsteady(cp, pull)
    requires Fits(ts, s) && Frozen(s, cp, pull, first, returned, typeOf)
    ensures Frozen(Step(ts, s, i), cp, pull, first, returned, typeOf)
  {
    hide PassCalls, LookupAt, Unsteady;
    if i < 3 && s.done[i] < |ts[i].calls| {
      var n, p := s.done[i], Key(Secret, pull);
      var found := Lookup(s.store, ts[i].calls[n]);
      CallsOwned(cp, pull, i, n);
      if n == LookupAt(cp, i) {
        ReadingStep(ts, s, i);
        assert first.None? ==> found == None;
      } else if ts[i].calls[n] == p {
        LookupFirst(cp, pull, i, n);
        if first.None? {
          assert returned(s.known[i]) && found == None;
        } else {
          assert pull !in RECREATED by { SteadyNotRecreated(cp, pull); }
          assert found.Some?;
        }
      } else if first.None? && n > LookupAt(cp, i) && pull != "" {
        assert returned(s.known[i]);
      }
    }
  }

  lemma SteadyNotRecreated(cp: string, name: string)
    ensures !Unsteady(cp, name) ==> name !in RECREATED
  {
  }

  lemma {:induction false} FrozenRun<L(!new), V(!new), T>(ts: seq<Thread<L, V>>, s: State<L, V>,
      schedule: seq<nat>, cp: string, pull: string, first: Option<V>, returned: L -> bool, typeOf: V -> T)
    requires IsPass(ts, cp, pull, returned, typeOf) && !Unsteady(cp, pull)
    requires Fits(ts, s) && Frozen(s, cp, pull, first, returned, typeOf)
    ensures Frozen(Run(ts, s, schedule), cp, pull, first, returned, typeOf)
  {
    hide IsPass, Unsteady, Frozen, Step;
    if schedule != [] {
      var start, i := schedule[..|schedule| - 1], schedule[|schedule| - 1];
      FrozenRun(ts, s, start, cp, pull, first, returned, typeOf);
      FrozenStep(ts, Run(ts, s, start), i, cp, pull, first, returned, typeOf);
    }
  }

  // The same sub-reconciler, told at its lookup what was there at the start.
  function Told<L, V>(t: Thread<L, V>, lookup: nat, first: Option<V>): Thread<L, V> {
    Thread(t.calls, (n, known, v) => if n == lookup then (t.act(n, known, first).0, v) else t.act(n, known, v))
  }

  function AllTold<L, V>(ts: seq<Thread<L, V>>, cp: string, first: Option<V>): seq<Thread<L, V>> {
    seq(|ts|, i requires 0 <= i < |ts| => Told(ts[i], LookupAt(cp, i), first))
  }

  lemma ToldStep<L(!new), V(!new), T>(ts: seq<Thread<L, V>>, s: State<L, V>, i: nat, cp: string, pull: string,
      first: Option<V>, returned: L -> bool, typeOf: V -> T)
    requires IsPass(ts, cp, pull, returned, typeOf) && Fits(ts, s) && Frozen(s, cp, pull, first, returned, typeOf)
    ensures Step(AllTold(ts, cp, first), s, i) == Step(ts, s, i)
  {
    hide PassCalls, LookupAt;
    if i < 3 && s.done[i] < |ts[i].calls| && s.done[i] == LookupAt(cp, i) {
      CallsOwned(cp, pull, i, s.done[i]);
      var v := Lookup(s.store, Key(Secret, pull));
      assert ts[i].act(s.done[i], s.known[i], v).1 == v;
      assert v.None? || (first.Some? && typeOf(v.value) == typeOf(first.value));
    }
  }

  lemma {:induction false} ToldRun<L(!new), V(!new), T>(ts: seq<Thread<L, V>>, s: State<L, V>,
      schedule: seq<nat>, cp: string, pull: string, first: Option<V>, returned: L -> bool, typeOf: V -> T)
    requires IsPass(ts, cp, pull, returned, typeOf) && !Unsteady(cp, pull)
    requires Fits(ts, s) && Frozen(s, cp, pull, first, returned, typeOf)
    ensures Run(AllTold(ts, cp, first), s, schedule) == Run(ts, s, schedule)
  {
    hide IsPass, Unsteady, Frozen, Step;
    if schedule != [] {
      var start, i := schedule[..|schedule| - 1], schedule[|schedule| - 1];
      ToldRun(ts, s, start, cp, pull, first, returned, typeOf);
      FrozenRun(ts, s, start, cp, pull, first, returned, typeOf);
      ToldStep(ts, Run(ts, s, start), i, cp, pull, first, returned, typeOf);
    }
  }

  lemma ToldConfined<L(!new), V(!new), T>(ts: seq<Thread<L, V>>, cp: string, pull: string, first: Option<V>,
      returned: L -> bool, typeOf: V -> T)
    requires IsPass(ts, cp, pull, returned, typeOf)
    ensures AllConfined(AllTold(ts, cp, first), k => OwnerOf(cp, k))
  {
    hide OwnerOf, PassCalls, LookupAt;
    var told, owner := AllTold(ts, cp, first), k => OwnerOf(cp, k);
    forall i, n | 0 <= i < 3 && 0 <= n < |told[i].calls|
      ensures owner(told[i].calls[n]) == i || (OnlyReads(told[i], n) && Blind(told[i], n))
    {
      CallsOwned(cp, pull, i, n);
    }
  }

  /* ----- order ----- */

  // However the calls interleave, the end is the one of running the sub-reconcilers one after another.
  ghost predicate OrderIrrelevant<L(!new), V(!new)>(ts: seq<Thread<L, V>>) {
    forall store, known, schedule ::
      |known| == |ts| && (forall i :: 0 <= i < |ts| ==> Turns(schedule, i) >= |ts[i].calls|) ==>
        Run(ts, Start(store, known), schedule) == Run(ts, Start(store, known), OneAfterAnother(ts))
  }

  // With the answers from outside fixed, a pass whose image pull secret is steady ends in the same store, with the
  // same three results, as running router, NATS and Controller one after another. That covers every secret that is
  // not the operator's own, and most of those that are.
  lemma PassOrderIrrelevant<L(!new), V(!new), T>(ts: seq<Thread<L, V>>, cp: string, pull: string,
      returned: L -> bool, typeOf: V -> T)
    requires IsPass(ts, cp, pull, returned, typeOf) && !Unsteady(cp, pull)
    ensures OrderIrrelevant(ts)
  {
    hide IsPass, Unsteady, Turns, Run;
    forall store, known, schedule |
      |known| == |ts| && (forall i :: 0 <= i < |ts| ==> Turns(schedule, i) >= |ts[i].calls|)
      ensures Run(ts, Start(store, known), schedule) == Run(ts, Start(store, known), OneAfterAnother(ts))
    {
      OneOrder(ts, cp, pull, returned, typeOf, store, known, schedule);
    }
  }

  lemma OneOrder<L(!new), V(!new), T>(ts: seq<Thread<L, V>>, cp: string, pull: string, returned: L -> bool,
      typeOf: V -> T, store: map<Key, V>, known: seq<L>, schedule: seq<nat>)
    requires IsPass(ts, cp, pull, returned, typeOf) && !Unsteady(cp, pull) && |known| == |ts|
    requires forall i :: 0 <= i < |ts| ==> Turns(schedule, i) >= |ts[i].calls|
    ensures Run(ts, Start(store, known), schedule) == Run(ts, Start(store, known), OneAfterAnother(ts))
  {
    hide Unsteady, Turns, Run, OwnerOf, AllConfined, PassCalls, LooksUp, StopsOnceReturned, KeepsSecrets, Returned;
    var s, first := Start(store, known), Lookup(store, Key(Secret, pull));
    var told, all := AllTold(ts, cp, first), OneAfterAnother(ts);
    ToldRun(ts, s, schedule, cp, pull, first, returned, typeOf);
    ToldRun(ts, s, all, cp, pull, first, returned, typeOf);
    ToldConfined(ts, cp, pull, first, returned, typeOf);
    forall i | 0 <= i < |ts| ensures Turns(all, i) >= |told[i].calls| {
      SequentialTurns(ts, i);
    }
    ReturnedIff(told, store, known, schedule);
    ReturnedIff(told, store, known, all);
    AnyOrderSameEnd(told, s, schedule, all, k => OwnerOf(cp, k));
  }

  /* ----- a secret that is not ----- */

  // An object is its type here; a sub-reconciler knows whether it has returned.
  function SameBool(b: bool): bool { b }

  function SameType(t: string): string { t }

  // Looks the pull secret up at its place, deletes at the given calls, and elsewhere creates what is missing.
  function Creating(lookup: nat, deletes: seq<nat>, n: nat, returned: bool, v: Option<string>): (bool, Option<string>) {
    if returned then (true, v)
    else if n == lookup then (v.None?, v)
    else if n in deletes then (false, None)
    else (false, Some(if v.Some? then v.value else "made"))
  }

  // The calls that delete nats-site-server and nats-mqtt-server.
  const DELETES: seq<nat> := [22, 23]

  function Creators(cp: string, pull: string): (ts: seq<Thread<bool, string>>)
    ensures |ts| == 3 && forall i :: 0 <= i < 3 ==> ts[i].calls == PassCalls(cp, pull)[i]
  {
    seq(3, i requires 0 <= i < 3 =>
      Thread(PassCalls(cp, pull)[i], (n, known, v) => Creating(LookupAt(cp, i), Deletes(i), n, known, v)))
  }

  lemma CallsAt(cp: string, pull: string)
    ensures var calls := PassCalls(cp, pull);
      && |NatsFirstCalls(cp)| == 8 && |calls[1]| > 23 && calls[1][8] == Key(Secret, pull)
      && calls[1][22] == Key(Secret, "nats-site-server") && calls[1][23] == Key(Secret, "nats-mqtt-server")
      && |calls[0]| > 4 && calls[0][0] == Key(Secret, pull) && calls[0][3] == Key(Role, "router")
  {
    hide Account, Twice;
    AccountCalls("router");
    AccountCalls("nats");
    ServiceCalls();
    var last := NatsLastCalls(cp);
    assert last[13] == Key(Secret, "nats-site-server") && last[14] == Key(Secret, "nats-mqtt-server");
    assert RouterCalls()[2] == Account("router")[2];
  }

  lemma AccountCalls(name: string)
    ensures |Account(name)| == 6 && Account(name)[2] == Key(Role, name)
  {
    var keys := [Key(ServiceAccount, name), Key(Role, name), Key(RoleBinding, name)];
    assert keys[1..] == [Key(Role, name), Key(RoleBinding, name)] && keys[1..][1..] == [Key(RoleBinding, name)];
    assert Twice(keys) == [keys[0], keys[0]] + ([keys[1], keys[1]] + Twice([keys[2]]));
    TwiceLength(keys);
  }

  lemma ServiceCalls()
    ensures |Twice([Key(Service, "nats-headless"), Key(Service, "nats"), Key(Service, "nats-server")])| == 6
  {
    TwiceLength([Key(Service, "nats-headless"), Key(Service, "nats"), Key(Service, "nats-server")]);
  }

  lemma {:induction false} TwiceLength(keys: seq<Key>)
    ensures |Twice(keys)| == 2 * |keys|
  {
    if keys != [] {
      TwiceLength(keys[1..]);
    }
  }

  lemma CreatorsArePass(cp: string, pull: string)
    ensures IsPass(Creators(cp, pull), cp, pull, SameBool, SameType)
  {
    hide PassCalls, NatsFirstCalls;
    CallsAt(cp, pull);
  }

  lemma CreatorsWriteOwn(cp: string, pull: string)
    ensures AllWriteOwn(Creators(cp, pull), k => OwnerOf(cp, k))
  {
    hide PassCalls, OwnerOf, LookupAt;
    var ts, owner := Creators(cp, pull), k => OwnerOf(cp, k);
    forall i, n | 0 <= i < 3 && 0 <= n < |ts[i].calls|
      ensures owner(ts[i].calls[n]) == i || OnlyReads(ts[i], n)
    {
      CallsOwned(cp, pull, i, n);
    }
  }

  function Deletes(i: nat): seq<nat> { if i == 1 then DELETES else [] }

  lemma CreatorStep(cp: string, pull: string, s: State<bool, string>, i: nat)
    requires |s.done| == |s.known| == 3 && i < 3 && s.done[i] < |PassCalls(cp, pull)[i]|
    ensures var k := PassCalls(cp, pull)[i][s.done[i]];
      var (b, v) := Creating(LookupAt(cp, i), Deletes(i), s.done[i], s.known[i], Lookup(s.store, k));
      Step(Creators(cp, pull), s, i) == State(Left(s.store, k, v), s.done[i := s.done[i] + 1], s.known[i := b])
  {
    hide PassCalls, Creating, LookupAt;
  }

  // The router sub-reconciler on its own: it creates its role exactly when it finds the image pull secret.
  lemma {:induction false} RouterAlone(cp: string, pull: string, s: State<bool, string>, n: nat)
    requires |s.done| == |s.known| == 3 && s.done[0] == 0 && !s.known[0] && Key(Role, "router") !in s.store
    requires n <= |PassCalls(cp, pull)[0]|
    ensures var r := Run(Creators(cp, pull), s, Alone(0, n));
      && r.done[0] == n && (n == 0 ==> !r.known[0])
      && (n >= 1 ==> r.known[0] == (Key(Secret, pull) !in s.store))
      && (n == 0 || Key(Secret, pull) !in s.store ==> r.store == s.store)
      && (n >= 4 && Key(Secret, pull) in s.store ==> Key(Role, "router") in r.store)
  {
    hide PassCalls, Run, Step, Creators;
    CallsAt(cp, pull);
    var ts := Creators(cp, pull);
    AloneLast(ts, s, 0, n);
    if n > 0 {
      RouterAlone(cp, pull, s, n - 1);
      var t := Run(ts, s, Alone(0, n - 1));
      CreatorStep(cp, pull, t, 0);
      var k := PassCalls(cp, pull)[0][n - 1];
      assert Left(t.store, k, Lookup(t.store, k)) == t.store;
    }
  }

  lemma AloneLast<L, V>(ts: seq<Thread<L, V>>, s: State<L, V>, i: nat, n: nat)
    requires Fits(ts, s)
    ensures n == 0 ==> Run(ts, s, Alone(i, n)) == s
    ensures n > 0 ==> Run(ts, s, Alone(i, n)) == Step(ts, Run(ts, s, Alone(i, n - 1)), i)
  {
    hide Step;
    if n > 0 {
      assert Alone(i, n)[..n - 1] == Alone(i, n - 1);
    }
  }

  // The NATS sub-reconciler on its own up to its deletions: what it names is there.
  lemma {:induction false} NatsAlone(cp: string, pull: string, store: map<Key, string>, n: nat)
    requires n <= 22 && (n <= 8 || Key(Secret, pull) in store)
    ensures var r := Run(Creators(cp, pull), Start(store, [false, false, false]), Alone(1, n));
      && r.done[1] == n && !r.known[1] && store.Keys <= r.store.Keys
      && forall j :: 0 <= j < n && n <= 8 ==> PassCalls(cp, pull)[1][j] in r.store
  {
    hide PassCalls, Run, Step, Creators;
    CallsAt(cp, pull);
    var ts, s := Creators(cp, pull), Start(store, [false, false, false]);
    AloneLast(ts, s, 1, n);
    if n > 0 {
      NatsAlone(cp, pull, store, n - 1);
      CreatorStep(cp, pull, Run(ts, s, Alone(1, n - 1)), 1);
    }
  }

  // How many calls of the NATS sub-reconciler make the difference, and what is stored at the start.
  function Turning(pull: string): nat {
    if pull == "nats-site-server" then 23 else if pull == "nats-mqtt-server" then 24 else 8
  }

  function Before(pull: string): map<Key, string> {
    if pull in RECREATED then map[Key(Secret, pull) := "made"] else map[]
  }

  lemma SecretTurns(cp: string, pull: string)
    requires Unsteady(cp, pull)
    ensures var r := Run(Creators(cp, pull), Start(Before(pull), [false, false, false]), Alone(1, Turning(pull)));
      Key(Secret, pull) in r.store <==> Key(Secret, pull) !in Before(pull)
  {
    hide PassCalls, Run, Step, Creators;
    CallsAt(cp, pull);
    var ts, s := Creators(cp, pull), Start(Before(pull), [false, false, false]);
    if pull in RECREATED {
      NatsAlone(cp, pull, Before(pull), 22);
      AloneLast(ts, s, 1, 23);
      AloneLast(ts, s, 1, 24);
      CreatorStep(cp, pull, Run(ts, s, Alone(1, 22)), 1);
      CreatorStep(cp, pull, Run(ts, s, Alone(1, 23)), 1);
    } else {
      NatsAlone(cp, pull, Before(pull), 8);
      FirstCallsCover(cp, pull);
    }
  }

  lemma FirstCallsCover(cp: string, pull: string)
    requires Unsteady(cp, pull) && pull !in RECREATED
    ensures exists j :: 0 <= j < 8 && PassCalls(cp, pull)[1][j] == Key(Secret, pull)
  {
    var calls := PassCalls(cp, pull)[1];
    assert calls[0] == Key(Secret, "nats-operator-seed") && calls[3] == Key(Secret, "nats-creds-sys-admin-hub");
    assert calls[6] == JetStreamKey(cp);
  }

  // Once the router sub-reconciler has run to its end, the others leave its role as it is.
  lemma RoleStays(cp: string, pull: string, s: State<bool, string>, rest: seq<nat>)
    requires |s.done| == |s.known| == 3 && 0 !in rest
    ensures Key(Role, "router") in Run(Creators(cp, pull), s, rest).store <==> Key(Role, "router") in s.store
  {
    hide Run, AllWriteOwn;
    CreatorsWriteOwn(cp, pull);
    OthersTurns(Creators(cp, pull), s, rest, 0, k => OwnerOf(cp, k));
    var k := Key(Role, "router");
    assert OwnerOf(cp, k) == 0;
    assert Lookup(s.store, k) == Lookup(Run(Creators(cp, pull), s, rest).store, k);
  }

  // With `first` NATS calls ahead of the router sub-reconciler, the role is there in the end exactly when the secret
  // is there after those calls.
  lemma RoleIff(cp: string, pull: string, first: nat)
    requires Key(Role, "router") !in Before(pull)
    ensures var ts, s := Creators(cp, pull), Start(Before(pull), [false, false, false]);
      Key(Role, "router") in Run(ts, s, Alone(1, first) + OneAfterAnother(ts)).store
      <==> Key(Secret, pull) in Run(ts, s, Alone(1, first)).store
  {
    hide Run, PassCalls, OneAfterAnother, AllWriteOwn;
    var ts, s := Creators(cp, pull), Start(Before(pull), [false, false, false]);
    var calls := PassCalls(cp, pull);
    var s1 := Run(ts, s, Alone(1, first));
    CreatorsWriteOwn(cp, pull);
    OthersTurns(ts, s, Alone(1, first), 0, k => OwnerOf(cp, k));
    RoleStays(cp, pull, s, Alone(1, first));
    RouterAlone(cp, pull, s1, |calls[0]|);
    CallsAt(cp, pull);
    var router, rest := Alone(0, |calls[0]|), Alone(1, |calls[1]|) + Alone(2, |calls[2]|);
    assert OneAfterAnother(ts) == router + rest by { ThreeInOrder(ts); }
    RunConcat(ts, s, Alone(1, first), router + rest);
    RunConcat(ts, s1, router, rest);
    RoleStays(cp, pull, Run(ts, s1, router), rest);
  }

  lemma ThreeInOrder<L, V>(ts: seq<Thread<L, V>>)
    requires |ts| == 3
    ensures OneAfterAnother(ts) == Alone(0, |ts[0].calls|) + (Alone(1, |ts[1].calls|) + Alone(2, |ts[2].calls|))
  {
    assert ts[..2][..1] == [ts[0]] && [ts[0]][..0] == [];
    assert OneAfterAnother(ts[..1]) == Alone(0, |ts[0].calls|) by { assert ts[..1][..0] == []; }
    assert OneAfterAnother(ts[..2]) == OneAfterAnother(ts[..2][..1]) + Alone(1, |ts[1].calls|);
  }

  lemma CreatorsRace(cp: string, pull: string)
    requires Unsteady(cp, pull)
    ensures !OrderIrrelevant(Creators(cp, pull))
  {
    hide Run, PassCalls, OneAfterAnother, Turns, Unsteady;
    var ts, s := Creators(cp, pull), Start(Before(pull), [false, false, false]);
    var schedule := Alone(1, Turning(pull)) + OneAfterAnother(ts);
    SecretTurns(cp, pull);
    RoleIff(cp, pull, Turning(pull));
    RoleIff(cp, pull, 0);
    assert Alone(1, 0) == [] && [] + OneAfterAnother(ts) == OneAfterAnother(ts);
    AloneLast(ts, s, 1, 0);
    forall i | 0 <= i < 3 ensures Turns(schedule, i) >= |ts[i].calls| {
      TurnsConcat(Alone(1, Turning(pull)), OneAfterAnother(ts), i);
      SequentialTurns(ts, i);
    }
    assert Run(ts, s, schedule) != Run(ts, s, OneAfterAnother(ts));
  }

  // Exactly then: every pass ends the same in every order iff its image pull secret is steady.
  lemma OrderIrrelevantIff(cp: string, pull: string)
    ensures (forall ts: seq<Thread<bool, string>> :: IsPass(ts, cp, pull, SameBool, SameType) ==> OrderIrrelevant(ts))
      <==> !Unsteady(cp, pull)
  {
    hide IsPass, OrderIrrelevant, Unsteady, Creators;
    if Unsteady(cp, pull) {
      CreatorsArePass(cp, pull);
      CreatorsRace(cp, pull);
    } else {
      forall ts: seq<Thread<bool, string>> | IsPass(ts, cp, pull, SameBool, SameType) ensures OrderIrrelevant(ts) {
        PassOrderIrrelevant(ts, cp, pull, SameBool, SameType);
      }
    }
  }
}
