/** Sub-reconcilers running side by side over one store of objects, one API call at a time. Calls of different
    sub-reconcilers may interleave in any way; each call reads and writes one object. */
module Interleaving {
  import opened Wrappers

  datatype Kind = ServiceAccount | Role | RoleBinding | Service | Secret | ConfigMap | Deployment | StatefulSet
                | Ingress | PersistentVolumeClaim

  datatype Key = Key(kind: Kind, name: string)

  // A sub-reconciler: the objects its calls name, in order, and what call number n does: from what it knows and the
  // object it finds (None: absent) to what it then knows and the object it leaves. A call that is skipped, because
  // of a branch not taken or an earlier error it knows of, leaves the object as found.
  datatype Thread<!L, !V> = Thread(calls: seq<Key>, act: (nat, L, Option<V>) -> (L, Option<V>))

  datatype State<L, V> = State(store: map<Key, V>, done: seq<nat>, known: seq<L>)

  predicate Fits<L, V>(ts: seq<Thread<L, V>>, s: State<L, V>) { |s.done| == |ts| && |s.known| == |ts| }

  function Lookup<V>(store: map<Key, V>, k: Key): Option<V> { if k in store then Some(store[k]) else None }

  function Left<V>(store: map<Key, V>, k: Key, v: Option<V>): map<Key, V> {
    if v.Some? then store[k := v.value] else store - {k}
  }

  // The next call of sub-reconciler i; nothing once it has returned.
  function Step<L, V>(ts: seq<Thread<L, V>>, s: State<L, V>, i: nat): (r: State<L, V>)
    requires Fits(ts, s)
    ensures Fits(ts, r)
  {
    if i >= |ts| || s.done[i] >= |ts[i].calls| then s
    else
      var k := ts[i].calls[s.done[i]];
      var (knows, v) := ts[i].act(s.done[i], s.known[i], Lookup(s.store, k));
      State(Left(s.store, k, v), s.done[i := s.done[i] + 1], s.known[i := knows])
  }

  function Run<L, V>(ts: seq<Thread<L, V>>, s: State<L, V>, schedule: seq<nat>): (r: State<L, V>)
    requires Fits(ts, s)
    ensures Fits(ts, r)
  {
    if schedule == [] then s
    else Step(ts, Run(ts, s, schedule[..|schedule| - 1]), schedule[|schedule| - 1])
  }

  predicate Returned<L, V>(ts: seq<Thread<L, V>>, s: State<L, V>)
    requires Fits(ts, s)
  {
    forall i :: 0 <= i < |ts| ==> s.done[i] >= |ts[i].calls|
  }

  function Start<L, V>(store: map<Key, V>, known: seq<L>): State<L, V> {
    State(store, seq(|known|, i => 0), known)
  }

  /* ----- what the others cannot be seen to do ----- */

  // owner(k) is the sub-reconciler that may write k, or negative for an object nobody writes. An object of another
  // sub-reconciler may be looked up if nothing depends on what is found.
  ghost predicate Confined<L(!new), V(!new)>(t: Thread<L, V>, i: int, owner: Key -> int) {
    forall n :: 0 <= n < |t.calls| ==>
      owner(t.calls[n]) == i || (OnlyReads(t, n) && (owner(t.calls[n]) < 0 || Blind(t, n)))
  }

  ghost predicate WritesOwn<L(!new), V(!new)>(t: Thread<L, V>, i: int, owner: Key -> int) {
    forall n :: 0 <= n < |t.calls| ==> owner(t.calls[n]) == i || OnlyReads(t, n)
  }

  // What call n finds makes no difference to what is known after it.
  ghost predicate Blind<L(!new), V(!new)>(t: Thread<L, V>, n: nat) {
    forall known: L, v: Option<V>, w: Option<V> :: t.act(n, known, v).0 == t.act(n, known, w).0
  }

  ghost predicate OnlyReads<L(!new), V(!new)>(t: Thread<L, V>, n: nat) {
    forall known: L, v: Option<V> :: t.act(n, known, v).1 == v
  }

  ghost predicate AllConfined<L(!new), V(!new)>(ts: seq<Thread<L, V>>, owner: Key -> int) {
    forall i :: 0 <= i < |ts| ==> Confined(ts[i], i, owner)
  }

  ghost predicate AllWriteOwn<L(!new), V(!new)>(ts: seq<Thread<L, V>>, owner: Key -> int) {
    forall i :: 0 <= i < |ts| ==> WritesOwn(ts[i], i, owner)
  }

  lemma ConfinedWriteOwn<L(!new), V(!new)>(ts: seq<Thread<L, V>>, owner: Key -> int)
    requires AllConfined(ts, owner)
    ensures AllWriteOwn(ts, owner)
  {
    hide OnlyReads, Blind;
    forall i | 0 <= i < |ts|
      ensures WritesOwn(ts[i], i, owner)
    {
      assert Confined(ts[i], i, owner);
    }
  }

  // a and b look the same to sub-reconciler i.
  ghost predicate SameTo<L, V>(i: nat, a: State<L, V>, b: State<L, V>, owner: Key -> int) {
    && i < |a.done| == |a.known| && i < |b.done| == |b.known|
    && a.done[i] == b.done[i] && a.known[i] == b.known[i]
    && forall k :: owner(k) == i || owner(k) < 0 ==> Lookup(a.store, k) == Lookup(b.store, k)
  }

  lemma OwnStep<L(!new), V(!new)>(ts: seq<Thread<L, V>>, a: State<L, V>, b: State<L, V>, i: nat, owner: Key -> int)
    requires Fits(ts, a) && Fits(ts, b) && i < |ts| && SameTo(i, a, b, owner) && Confined(ts[i], i, owner)
    ensures SameTo(i, Step(ts, a, i), Step(ts, b, i), owner)
  {
    if a.done[i] < |ts[i].calls| {
      var n := a.done[i];
      var k := ts[i].calls[n];
      if owner(k) != i {
        assert OnlyReads(ts[i], n) && (owner(k) < 0 || Blind(ts[i], n));
        ReadingStep(ts, a, i);
        ReadingStep(ts, b, i);
        assert owner(k) >= 0 ==> Blind(ts[i], n);
      }
    }
  }

  // A call that only reads leaves the store as it is.
  lemma ReadingStep<L(!new), V(!new)>(ts: seq<Thread<L, V>>, s: State<L, V>, i: nat)
    requires Fits(ts, s) && i < |ts| && s.done[i] < |ts[i].calls| && OnlyReads(ts[i], s.done[i])
    ensures Step(ts, s, i).store == s.store
  {
    var k := ts[i].calls[s.done[i]];
    assert ts[i].act(s.done[i], s.known[i], Lookup(s.store, k)).1 == Lookup(s.store, k);
    assert Left(s.store, k, Lookup(s.store, k)) == s.store;
  }

  lemma OtherStep<L(!new), V(!new)>(ts: seq<Thread<L, V>>, s: State<L, V>, i: nat, j: nat, owner: Key -> int)
    requires Fits(ts, s) && i < |ts| && j != i && AllWriteOwn(ts, owner)
    ensures SameTo(i, s, Step(ts, s, j), owner)
  {
    if j < |ts| && s.done[j] < |ts[j].calls| {
      assert WritesOwn(ts[j], j, owner);
      if owner(ts[j].calls[s.done[j]]) != j {
        ReadingStep(ts, s, j);
      }
    }
  }

  // What sub-reconciler i owns and knows is as it was while only others take turns.
  lemma {:induction false} OthersTurns<L(!new), V(!new)>(ts: seq<Thread<L, V>>, s: State<L, V>, schedule: seq<nat>,
      i: nat, owner: Key -> int)
    requires Fits(ts, s) && i < |ts| && i !in schedule && AllWriteOwn(ts, owner)
    ensures SameTo(i, s, Run(ts, s, schedule), owner)
  {
    hide Step, WritesOwn;
    if schedule != [] {
      var start, j := schedule[..|schedule| - 1], schedule[|schedule| - 1];
      assert j in schedule;
      OthersTurns(ts, s, start, i, owner);
      OtherStep(ts, Run(ts, s, start), i, j, owner);
    }
  }

  // No step changes an object that nobody owns.
  lemma {:induction false} UnownedKept<L(!new), V(!new)>(ts: seq<Thread<L, V>>, s: State<L, V>, schedule: seq<nat>,
      owner: Key -> int, k: Key)
    requires Fits(ts, s) && AllWriteOwn(ts, owner) && !(0 <= owner(k) < |ts|)
    ensures Lookup(Run(ts, s, schedule).store, k) == Lookup(s.store, k)
  {
    if schedule != [] {
      var before, i := Run(ts, s, schedule[..|schedule| - 1]), schedule[|schedule| - 1];
      UnownedKept(ts, s, schedule[..|schedule| - 1], owner, k);
      if i < |ts| && before.done[i] < |ts[i].calls| {
        assert WritesOwn(ts[i], i, owner);
        if ts[i].calls[before.done[i]] == k {
          ReadingStep(ts, before, i);
        }
      }
    }
  }

  lemma {:induction false} RunConcat<L, V>(ts: seq<Thread<L, V>>, s: State<L, V>, a: seq<nat>, b: seq<nat>)
    requires Fits(ts, s)
    ensures Run(ts, s, a + b) == Run(ts, Run(ts, s, a), b)
  {
    hide Step;
    if b == [] {
      assert a + b == a;
    } else {
      RunConcat(ts, s, a, b[..|b| - 1]);
      assert (a + b)[..|a + b| - 1] == a + b[..|b| - 1];
    }
  }

  function Turns(schedule: seq<nat>, i: nat): nat {
    if schedule == [] then 0
    else Turns(schedule[..|schedule| - 1], i) + (if schedule[|schedule| - 1] == i then 1 else 0)
  }

  function Alone(i: nat, turns: nat): seq<nat> { seq(turns, _ => i) }

  // What a sub-reconciler sees is what it would see running alone for as many turns.
  lemma {:induction false} AsIfAlone<L(!new), V(!new)>(ts: seq<Thread<L, V>>, s: State<L, V>, schedule: seq<nat>,
      i: nat, owner: Key -> int)
    requires Fits(ts, s) && i < |ts| && AllConfined(ts, owner)
    ensures SameTo(i, Run(ts, s, schedule), Run(ts, s, Alone(i, Turns(schedule, i))), owner)
  {
    hide Step, Confined;
    if schedule != [] {
      var start, j := schedule[..|schedule| - 1], schedule[|schedule| - 1];
      AsIfAlone(ts, s, start, i, owner);
      if j == i {
        var turns := Turns(schedule, i);
        assert Alone(i, turns)[..turns - 1] == Alone(i, turns - 1);
        OwnStep(ts, Run(ts, s, start), Run(ts, s, Alone(i, turns - 1)), i, owner);
      } else {
        ConfinedWriteOwn(ts, owner);
        OtherStep(ts, Run(ts, s, start), i, j, owner);
      }
    }
  }

  // Alone, further turns after returning change nothing.
  lemma {:induction false} AloneStops<L(!new), V(!new)>(ts: seq<Thread<L, V>>, s: State<L, V>, i: nat, m: nat, n: nat)
    requires Fits(ts, s) && i < |ts| && m <= n && Run(ts, s, Alone(i, m)).done[i] >= |ts[i].calls|
    ensures Run(ts, s, Alone(i, n)) == Run(ts, s, Alone(i, m))
  {
    if m < n {
      AloneStops(ts, s, i, m, n - 1);
      assert Alone(i, n)[..n - 1] == Alone(i, n - 1);
    }
  }

  lemma SameAfterReturn<L(!new), V(!new)>(ts: seq<Thread<L, V>>, s: State<L, V>, one: seq<nat>, other: seq<nat>,
      i: nat, owner: Key -> int)
    requires Fits(ts, s) && i < |ts| && AllConfined(ts, owner)
    requires Returned(ts, Run(ts, s, one)) && Returned(ts, Run(ts, s, other))
    ensures SameTo(i, Run(ts, s, one), Run(ts, s, other), owner)
  {
    hide Step, Run, Confined;
    AsIfAlone(ts, s, one, i, owner);
    AsIfAlone(ts, s, other, i, owner);
    if Turns(one, i) <= Turns(other, i) {
      AloneStops(ts, s, i, Turns(one, i), Turns(other, i));
    } else {
      AloneStops(ts, s, i, Turns(other, i), Turns(one, i));
    }
  }

  lemma SameStore<V>(a: map<Key, V>, b: map<Key, V>)
    requires forall k :: Lookup(a, k) == Lookup(b, k)
    ensures a == b
  {
    forall k | k in a.Keys + b.Keys ensures k in a && k in b && a[k] == b[k] {
      assert Lookup(a, k) == Lookup(b, k);
    }
  }

  // Any two schedules under which every sub-reconciler returns end in the same state: the same store, and the same
  // knowledge (so the same result) in each sub-reconciler.
  lemma AnyOrderSameEnd<L(!new), V(!new)>(ts: seq<Thread<L, V>>, s: State<L, V>, one: seq<nat>, other: seq<nat>,
      owner: Key -> int)
    requires Fits(ts, s) && AllConfined(ts, owner)
    requires Returned(ts, Run(ts, s, one)) && Returned(ts, Run(ts, s, other))
    ensures Run(ts, s, one) == Run(ts, s, other)
  {
    hide Step, Run, AllConfined;
    var a, b := Run(ts, s, one), Run(ts, s, other);
    forall i | 0 <= i < |ts| ensures SameTo(i, a, b, owner) {
      SameAfterReturn(ts, s, one, other, i, owner);
    }
    forall i | 0 <= i < |ts| ensures a.done[i] == b.done[i] && a.known[i] == b.known[i] {
      assert SameTo(i, a, b, owner);
    }
    assert a.done == b.done && a.known == b.known;
    ConfinedWriteOwn(ts, owner);
    forall k: Key ensures Lookup(a.store, k) == Lookup(b.store, k) {
      if 0 <= owner(k) < |ts| {
        assert SameTo(owner(k), a, b, owner);
      } else {
        UnownedKept(ts, s, one, owner, k);
        UnownedKept(ts, s, other, owner, k);
      }
    }
    SameStore(a.store, b.store);
  }

  /* ----- one after another ----- */

  lemma {:induction false} DoneCount<L, V>(ts: seq<Thread<L, V>>, s: State<L, V>, schedule: seq<nat>, i: nat)
    requires Fits(ts, s) && i < |ts| && s.done[i] == 0
    ensures Run(ts, s, schedule).done[i] ==
      if Turns(schedule, i) <= |ts[i].calls| then Turns(schedule, i) else |ts[i].calls|
  {
    if schedule != [] {
      DoneCount(ts, s, schedule[..|schedule| - 1], i);
    }
  }

  lemma {:induction false} TurnsConcat(a: seq<nat>, b: seq<nat>, i: nat)
    ensures Turns(a + b, i) == Turns(a, i) + Turns(b, i)
  {
    if b == [] {
      assert a + b == a;
    } else {
      assert (a + b)[..|a + b| - 1] == a + b[..|b| - 1];
      TurnsConcat(a, b[..|b| - 1], i);
    }
  }

  lemma {:induction false} TurnsAlone(i: nat, turns: nat, j: nat)
    ensures Turns(Alone(i, turns), j) == if i == j then turns else 0
  {
    if turns > 0 {
      assert Alone(i, turns)[..turns - 1] == Alone(i, turns - 1);
      TurnsAlone(i, turns - 1, j);
    }
  }

  // Each sub-reconciler to its end before the next one starts.
  function OneAfterAnother<L, V>(ts: seq<Thread<L, V>>): seq<nat> {
    if ts == [] then []
    else OneAfterAnother(ts[..|ts| - 1]) + Alone(|ts| - 1, |ts[|ts| - 1].calls|)
  }

  lemma {:induction false} SequentialTurns<L, V>(ts: seq<Thread<L, V>>, i: nat)
    ensures Turns(OneAfterAnother(ts), i) == if i < |ts| then |ts[i].calls| else 0
  {
    if ts != [] {
      var last := |ts| - 1;
      SequentialTurns(ts[..last], i);
      TurnsAlone(last, |ts[last].calls|, i);
      TurnsConcat(OneAfterAnother(ts[..last]), Alone(last, |ts[last].calls|), i);
    }
  }

  // A schedule runs every sub-reconciler to its end exactly when it gives each as many turns as it has calls.
  lemma ReturnedIff<L, V>(ts: seq<Thread<L, V>>, store: map<Key, V>, known: seq<L>, schedule: seq<nat>)
    requires |known| == |ts|
    ensures Returned(ts, Run(ts, Start(store, known), schedule))
      <==> forall i :: 0 <= i < |ts| ==> Turns(schedule, i) >= |ts[i].calls|
  {
    hide Run, Turns;
    forall i | 0 <= i < |ts|
      ensures Run(ts, Start(store, known), schedule).done[i] >= |ts[i].calls| <==> Turns(schedule, i) >= |ts[i].calls|
    {
      DoneCount(ts, Start(store, known), schedule, i);
    }
  }

  // However the calls interleave, once all have returned the end is that of running them one after another.
  lemma InterleavingIsSequential<L(!new), V(!new)>(ts: seq<Thread<L, V>>, store: map<Key, V>, known: seq<L>,
      schedule: seq<nat>, owner: Key -> int)
    requires |known| == |ts| && AllConfined(ts, owner)
    requires forall i :: 0 <= i < |ts| ==> Turns(schedule, i) >= |ts[i].calls|
    ensures Run(ts, Start(store, known), schedule) == Run(ts, Start(store, known), OneAfterAnother(ts))
  {
    hide Run, Turns, Returned, AllConfined;
    ReturnedIff(ts, store, known, schedule);
    forall i | 0 <= i < |ts| ensures Turns(OneAfterAnother(ts), i) >= |ts[i].calls| {
      SequentialTurns(ts, i);
    }
    ReturnedIff(ts, store, known, OneAfterAnother(ts));
    AnyOrderSameEnd(ts, Start(store, known), schedule, OneAfterAnother(ts), owner);
  }
}
