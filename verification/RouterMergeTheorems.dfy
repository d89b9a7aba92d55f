/** What the router configuration merge conserves, and when it converges. */
module RouterMergeTheorems {
  import opened Wrappers
  import opened RouterConfig

  /* ----- the merged configuration carries the new version ----- */

  // The new configuration can be looked up, and its router entries are all pairs with object data.
  predicate WellFormedNew(ns: seq<Entry>) {
    forall i :: 0 <= i < |ns| ==> ShouldUpdate(ns[i]) || (Kind(ns[i]).Some? && Kind(ns[i]) != Some("router"))
  }

  function RouterPairs(es: seq<Entry>): seq<Entry> {
    if es == [] then []
    else RouterPairs(es[..|es| - 1]) + if IsRouterPair(es[|es| - 1]) then [es[|es| - 1]] else []
  }

  lemma {:induction false} RouterPairsAppend(a: seq<Entry>, b: seq<Entry>)
    ensures RouterPairs(a + b) == RouterPairs(a) + RouterPairs(b)
  {
    hide IsRouterPair;
    if b == [] {
      assert a + b == a;
    } else {
      RouterPairsAppend(a, b[..|b| - 1]);
      assert (a + b)[..|a + b| - 1] == a + b[..|b| - 1];
    }
  }

  lemma {:induction false} VersionOfPairs(es: seq<Entry>, decode: Decoder)
    ensures ConfigVersion(es, decode) == ConfigVersion(RouterPairs(es), decode)
  {
    hide PairVersion, RouterPairs;
    if es == [] {
      assert RouterPairs(es) == [] by { NoPairs(); }
    } else {
      var tail := es[1..];
      VersionOfPairs(tail, decode);
      assert es == [es[0]] + tail;
      RouterPairsAppend([es[0]], tail);
      OnePair(es[0]);
      if IsRouterPair(es[0]) {
        assert ([es[0]] + RouterPairs(tail))[1..] == RouterPairs(tail);
      } else {
        assert [] + RouterPairs(tail) == RouterPairs(tail);
      }
    }
  }

  lemma NoPairs()
    ensures RouterPairs([]) == []
  {
  }

  lemma OnePair(e: Entry)
    ensures RouterPairs([e]) == if IsRouterPair(e) then [e] else []
  {
    hide IsRouterPair;
    assert [e][..0] == [];
    NoPairs();
  }

  lemma PairIsUpdated(e: Entry)
    ensures IsRouterPair(e) ==> ShouldUpdate(e)
    ensures ShouldUpdate(e) && Kind(e) == Some("router") ==> IsRouterPair(e)
  {
  }

  lemma {:induction false} LastOfKindMeaning(es: seq<Entry>, kind: string)
    ensures var r := LastOfKind(es, kind);
      if r.Some?
      then exists i :: 0 <= i < |es| && es[i] == r.value && Kind(es[i]) == Some(kind)
             && forall j :: i < j < |es| ==> Kind(es[j]) != Some(kind)
      else forall j :: 0 <= j < |es| ==> Kind(es[j]) != Some(kind)
  {
    hide Kind;
    if es != [] {
      var front := es[..|es| - 1];
      LastOfKindMeaning(front, kind);
      assert forall j :: 0 <= j < |front| ==> front[j] == es[j];
      if Kind(es[|es| - 1]) != Some(kind) && LastOfKind(front, kind).Some? {
        var i :| 0 <= i < |front| && front[i] == LastOfKind(front, kind).value && Kind(front[i]) == Some(kind)
          && forall j :: i < j < |front| ==> Kind(front[j]) != Some(kind);
        assert es[i] == front[i];
      }
    }
  }

  lemma {:induction false} ProcessedPairs(es: seq<Entry>, ns: seq<Entry>)
    requires WellFormedNew(ns)
    ensures RouterPairs(Processed(es, ns)) == RouterPairs(ns)
  {
    hide ShouldUpdate, IsRouterPair, RouterPairs, Contribution, LastOfKind;
    if ns == [] {
      NoPairs();
    } else {
      var front, n := ns[..|ns| - 1], ns[|ns| - 1];
      ProcessedPairs(es, front);
      assert ns == front + [n];
      RouterPairsAppend(front, [n]);
      RouterPairsAppend(Processed(es, front), Contribution(es, n));
      ContributionPairs(es, n);
    }
  }

  lemma ContributionPairs(es: seq<Entry>, n: Entry)
    requires ShouldUpdate(n) || (Kind(n).Some? && Kind(n) != Some("router"))
    ensures RouterPairs(Contribution(es, n)) == RouterPairs([n])
  {
    hide ShouldUpdate, RouterPairs, LastOfKind;
    OnePair(n);
    NoPairs();
    if !ShouldUpdate(n) {
      PairIsUpdated(n);
      var kind := Kind(n).value;
      if LastOfKind(es, kind).Some? {
        LastOfKindMeaning(es, kind);
        OnePair(LastOfKind(es, kind).value);
      }
    }
  }

  lemma {:induction false} RetainedPairs(es: seq<Entry>)
    ensures RouterPairs(Retained(es)) == []
  {
    hide ShouldUpdate, IsRouterPair, RouterPairs;
    if es == [] {
      NoPairs();
    } else {
      var front, last := es[..|es| - 1], es[|es| - 1];
      RetainedPairs(front);
      PairIsUpdated(last);
      OnePair(last);
      if ShouldUpdate(last) {
        assert Retained(front) + [] == Retained(front);
      } else {
        RouterPairsAppend(Retained(front), [last]);
      }
    }
  }

  lemma MergedVersion(es: seq<Entry>, ns: seq<Entry>, decode: Decoder)
    requires WellFormedNew(ns)
    ensures ConfigVersion(Processed(es, ns) + Retained(es), decode) == ConfigVersion(ns, decode)
  {
    hide ConfigVersion, RouterPairs, Processed, Retained, WellFormedNew;
    var merged := Processed(es, ns) + Retained(es);
    VersionOfPairs(merged, decode);
    VersionOfPairs(ns, decode);
    RouterPairsAppend(Processed(es, ns), Retained(es));
    ProcessedPairs(es, ns);
    RetainedPairs(es);
    assert RouterPairs(ns) + [] == RouterPairs(ns);
  }

  /* ----- convergence ----- */

  // The merge of a configuration that was merged with the same new one.
  ghost predicate Settles(es: seq<Entry>, ns: seq<Entry>, decode: Decoder) {
    var once := Merge(Some(es), Some(ns), decode);
    once.Ok? ==> Merge(Some(once.value), Some(ns), decode) == once
  }

  predicate AllUpdated(es: seq<Entry>) { forall i :: 0 <= i < |es| ==> ShouldUpdate(es[i]) }

  // A new configuration with a version: merging twice is merging once, for every existing configuration.
  lemma VersionedMergeSettles(es: seq<Entry>, ns: seq<Entry>, decode: Decoder)
    requires WellFormedNew(ns) && ConfigVersion(ns, decode) != Ok("")
    ensures Settles(es, ns, decode)
  {
    hide ConfigVersion, Processed, Retained, WellFormedNew, AllKinded, LookupsKinded;
    MergedVersion(es, ns, decode);
  }

  lemma {:induction false} AllUpdatedProcessed(es: seq<Entry>, ns: seq<Entry>)
    requires AllUpdated(ns)
    ensures Processed(es, ns) == ns
  {
    hide ShouldUpdate, LastOfKind, Kind;
    if ns != [] {
      AllUpdatedProcessed(es, ns[..|ns| - 1]);
    }
  }

  lemma {:induction false} RetainedAppend(a: seq<Entry>, b: seq<Entry>)
    ensures Retained(a + b) == Retained(a) + Retained(b)
  {
    hide ShouldUpdate;
    if b == [] {
      assert a + b == a;
    } else {
      RetainedAppend(a, b[..|b| - 1]);
      assert (a + b)[..|a + b| - 1] == a + b[..|b| - 1];
    }
  }

  lemma {:induction false} RetainedTwice(es: seq<Entry>)
    ensures Retained(Retained(es)) == Retained(es)
  {
    hide ShouldUpdate;
    if es != [] {
      var front, last := es[..|es| - 1], es[|es| - 1];
      RetainedTwice(front);
      if ShouldUpdate(last) {
        assert Retained(es) == Retained(front);
      } else {
        assert Retained(es)[..|Retained(es)| - 1] == Retained(front);
      }
    }
  }

  lemma {:induction false} AllUpdatedRetained(ns: seq<Entry>)
    requires AllUpdated(ns)
    ensures Retained(ns) == []
  {
    hide ShouldUpdate;
    if ns != [] {
      AllUpdatedRetained(ns[..|ns| - 1]);
    }
  }

  lemma UnversionedAllUpdatedSettles(es: seq<Entry>, ns: seq<Entry>, decode: Decoder)
    requires WellFormedNew(ns) && ConfigVersion(ns, decode) == Ok("") && AllUpdated(ns)
    ensures Settles(es, ns, decode)
  {
    hide ConfigVersion, Processed, Retained, WellFormedNew, AllKinded, LookupsKinded, AllUpdated;
    var once := Merge(Some(es), Some(ns), decode);
    if once.Ok? {
      MergedVersion(es, ns, decode);
      AllUpdatedProcessed(es, ns);
      AllUpdatedProcessed(once.value, ns);
      RetainedAppend(ns, Retained(es));
      AllUpdatedRetained(ns);
      RetainedTwice(es);
      assert [] + Retained(es) == Retained(es);
      MergedKinded(es, ns);
    }
  }

  lemma {:induction false} ProcessedKinded(es: seq<Entry>, ns: seq<Entry>)
    requires AllKinded(es)
    ensures AllKinded(Processed(es, ns))
  {
    hide LastOfKind;
    if ns != [] {
      ProcessedKinded(es, ns[..|ns| - 1]);
      var n := ns[|ns| - 1];
      if Kind(n).Some? { LastOfKindMeaning(es, Kind(n).value); }
    }
  }

  lemma {:induction false} RetainedKinded(es: seq<Entry>)
    requires AllKinded(es)
    ensures AllKinded(Retained(es))
  {
    hide ShouldUpdate, Kind;
    if es != [] {
      RetainedKinded(es[..|es| - 1]);
    }
  }

  lemma MergedKinded(es: seq<Entry>, ns: seq<Entry>)
    requires AllKinded(es)
    ensures AllKinded(Processed(es, ns) + Retained(es))
  {
    hide Processed, Retained, Kind;
    ProcessedKinded(es, ns);
    RetainedKinded(es);
  }

  /* ----- conservation ----- */

  predicate Contributes(es: seq<Entry>, n: Entry) { Contribution(es, n) != [] }

  function Count(es: seq<Entry>, ns: seq<Entry>): nat {
    if ns == [] then 0
    else Count(es, ns[..|ns| - 1]) + if Contributes(es, ns[|ns| - 1]) then 1 else 0
  }

  // The processed part position by position: each contributing new entry, in order, as itself when it is
  // updatable and as the last existing entry of its type otherwise.
  lemma {:induction false} ProcessedAt(es: seq<Entry>, ns: seq<Entry>, i: nat)
    requires i < |ns|
    ensures |Processed(es, ns)| == Count(es, ns)
    ensures Contributes(es, ns[i]) ==>
      Count(es, ns[..i]) < Count(es, ns) && Processed(es, ns)[Count(es, ns[..i])] == Contribution(es, ns[i])[0]
  {
    hide Contribution;
    var front := ns[..|ns| - 1];
    ProcessedLength(es, front);
    ContributionSize(es, ns[|ns| - 1]);
    if i < |front| {
      ProcessedAt(es, front, i);
      assert front[..i] == ns[..i];
    }
  }

  lemma ContributionSize(es: seq<Entry>, n: Entry)
    ensures |Contribution(es, n)| <= 1
  {
    hide ShouldUpdate, LastOfKind, Kind;
  }

  lemma {:induction false} ProcessedLength(es: seq<Entry>, ns: seq<Entry>)
    ensures |Processed(es, ns)| == Count(es, ns)
  {
    hide Contribution;
    if ns != [] {
      ProcessedLength(es, ns[..|ns| - 1]);
      ContributionSize(es, ns[|ns| - 1]);
    }
  }

  lemma {:induction false} ProcessedMembers(es: seq<Entry>, ns: seq<Entry>, r: Entry)
    ensures r in Processed(es, ns) <==> exists n :: n in ns && r in Contribution(es, n)
  {
    hide Contribution;
    if ns != [] {
      var front, last := ns[..|ns| - 1], ns[|ns| - 1];
      ProcessedMembers(es, front, r);
      assert ns == front + [last];
    }
  }

  lemma {:induction false} RetainedMembers(es: seq<Entry>, r: Entry)
    ensures r in Retained(es) <==> r in es && !ShouldUpdate(r)
  {
    hide ShouldUpdate;
    if es != [] {
      var front, last := es[..|es| - 1], es[|es| - 1];
      RetainedMembers(front, r);
      assert es == front + [last];
    }
  }

  // Every merged entry is an updatable new one, the existing stand-in of a non-updatable new one, or a
  // non-updatable existing one; all of these are there; and the length is their exact sum.
  lemma MergeConserves(es: seq<Entry>, ns: seq<Entry>, decode: Decoder, r: Entry)
    requires Merge(Some(es), Some(ns), decode).Ok?
    requires ConfigVersion(es, decode) == Ok("") || ConfigVersion(es, decode) != ConfigVersion(ns, decode)
    ensures var merged := Merge(Some(es), Some(ns), decode).value;
      && |merged| == Count(es, ns) + |Retained(es)|
      && merged[Count(es, ns)..] == Retained(es)
      && (r in merged <==>
            || (r in ns && ShouldUpdate(r))
            || (exists n :: n in ns && !ShouldUpdate(n) && Kind(n).Some? && LastOfKind(es, Kind(n).value) == Some(r))
            || (r in es && !ShouldUpdate(r)))
  {
    hide ConfigVersion, Processed, Retained, Contribution, Count, LastOfKind, ShouldUpdate, Kind, AllKinded, LookupsKinded;
    ProcessedLength(es, ns);
    ProcessedMembers(es, ns, r);
    RetainedMembers(es, r);
    forall n
      ensures r in Contribution(es, n) <==>
        (ShouldUpdate(n) && r == n) || (!ShouldUpdate(n) && Kind(n).Some? && LastOfKind(es, Kind(n).value) == Some(r))
    {
      ContributionMeaning(es, n, r);
    }
  }

  lemma ContributionMeaning(es: seq<Entry>, n: Entry, r: Entry)
    ensures r in Contribution(es, n) <==>
      (ShouldUpdate(n) && r == n) || (!ShouldUpdate(n) && Kind(n).Some? && LastOfKind(es, Kind(n).value) == Some(r))
  {
    hide ShouldUpdate, LastOfKind, Kind;
  }

  /* ----- exactly when merging settles ----- */

  // Without a version, a list holding one entry that the new configuration names but does not update changes at
  // both of two merges.
  lemma UnversionedGrows(ns: seq<Entry>, decode: Decoder, y: Entry)
    requires WellFormedNew(ns) && ConfigVersion(ns, decode) == Ok("") && y in ns && !ShouldUpdate(y)
    ensures !Settles([y], ns, decode)
  {
    hide ConfigVersion, Processed, Retained, WellFormedNew, AllKinded, LookupsKinded, ShouldUpdate, LastOfKind, Kind, Contribution, Count;
    var es := [y];
    assert Kind(y).Some? by { NewEntryKinded(ns, y); }
    SingletonMerge(ns, decode, y);
    var m := Processed(es, ns) + Retained(es);
    assert Merge(Some(es), Some(ns), decode) == Ok(m);
    MergedVersion(es, ns, decode);
    MergedKinded(es, ns);
    assert Merge(Some(m), Some(ns), decode) == Ok(Processed(m, ns) + Retained(m));
    StandIn(es, ns, y);
    ProcessedLength(es, ns);
    ProcessedLength(m, ns);
    LookupsGrow(es, m, ns);
    RetainedAppend(Processed(es, ns), Retained(es));
    RetainedTwice(es);
    RetainedMembers(Processed(es, ns), y);
    assert |Retained(Processed(es, ns))| >= 1;
  }

  lemma NewEntryKinded(ns: seq<Entry>, y: Entry)
    requires WellFormedNew(ns) && y in ns && !ShouldUpdate(y)
    ensures Kind(y).Some? && Kind(y) != Some("router") && LookupsKinded(ns)
  {
  }

  lemma SingletonMerge(ns: seq<Entry>, decode: Decoder, y: Entry)
    requires WellFormedNew(ns) && ConfigVersion(ns, decode) == Ok("") && y in ns && !ShouldUpdate(y)
    ensures ConfigVersion([y], decode) == Ok("") && AllKinded([y]) && LookupsKinded(ns)
  {
    hide ShouldUpdate, PairVersion;
    NewEntryKinded(ns, y);
    assert [y][1..] == [];
  }

  // y stands in for itself.
  lemma StandIn(es: seq<Entry>, ns: seq<Entry>, y: Entry)
    requires es == [y] && y in ns && !ShouldUpdate(y) && Kind(y).Some?
    ensures y in Processed(es, ns) && LastOfKind(es, Kind(y).value) == Some(y)
  {
    hide ShouldUpdate, Processed;
    ProcessedMembers(es, ns, y);
  }

  // Types present in es are present in m, so m answers at least the lookups that es answers.
  lemma {:induction false} LookupsGrow(es: seq<Entry>, m: seq<Entry>, ns: seq<Entry>)
    requires |es| == 1 && !ShouldUpdate(es[0]) && es[0] in m
    ensures Count(es, ns) <= Count(m, ns)
  {
    hide ShouldUpdate, Kind, LastOfKind;
    if ns != [] {
      var n := ns[|ns| - 1];
      LookupsGrow(es, m, ns[..|ns| - 1]);
      if !ShouldUpdate(n) && Kind(n).Some? {
        LastOfKindMeaning(es, Kind(n).value);
        LastOfKindMeaning(m, Kind(n).value);
      }
    }
  }

  // Merging the same new configuration again changes nothing, for every existing configuration, exactly when
  // the new configuration has a version (or an unreadable one, so that nothing merges) or updates all it names.
  lemma SettlesIff(ns: seq<Entry>, decode: Decoder)
    requires WellFormedNew(ns)
    ensures (forall es :: Settles(es, ns, decode)) <==> ConfigVersion(ns, decode) != Ok("") || AllUpdated(ns)
  {
    hide ConfigVersion, Settles, WellFormedNew, ShouldUpdate;
    if ConfigVersion(ns, decode) != Ok("") {
      forall es ensures Settles(es, ns, decode) { VersionedMergeSettles(es, ns, decode); }
    } else if AllUpdated(ns) {
      forall es ensures Settles(es, ns, decode) { UnversionedAllUpdatedSettles(es, ns, decode); }
    } else {
      var i :| 0 <= i < |ns| && !ShouldUpdate(ns[i]);
      UnversionedGrows(ns, decode, ns[i]);
    }
  }

  /* ----- repeated merges without a version ----- */

  function Again(es: seq<Entry>, ns: seq<Entry>): seq<Entry> { Processed(es, ns) + Retained(es) }

  // The stored list after k merges.
  function Repeated(es: seq<Entry>, ns: seq<Entry>, k: nat): seq<Entry> {
    if k == 0 then es else Again(Repeated(es, ns, k - 1), ns)
  }

  lemma {:induction false} RepeatedMerges(es: seq<Entry>, ns: seq<Entry>, decode: Decoder, k: nat)
    requires WellFormedNew(ns) && ConfigVersion(ns, decode) == Ok("")
    requires AllKinded(es) && ConfigVersion(es, decode).Ok?
    ensures var now := Repeated(es, ns, k);
      AllKinded(now) && ConfigVersion(now, decode).Ok?
      && Merge(Some(now), Some(ns), decode) == Ok(Repeated(es, ns, k + 1))
  {
    hide ConfigVersion, Processed, Retained, AllKinded, LookupsKinded, WellFormedNew;
    assert LookupsKinded(ns) by { NewLookups(ns); }
    if k > 0 {
      RepeatedMerges(es, ns, decode, k - 1);
      MergedVersion(Repeated(es, ns, k - 1), ns, decode);
      MergedKinded(Repeated(es, ns, k - 1), ns);
    }
  }

  lemma NewLookups(ns: seq<Entry>)
    requires WellFormedNew(ns)
    ensures LookupsKinded(ns)
  {
    hide ShouldUpdate;
  }

  // The new configuration names this type in an entry that it does not update.
  predicate LookedUp(ns: seq<Entry>, kind: string) {
    exists i :: 0 <= i < |ns| && !ShouldUpdate(ns[i]) && Kind(ns[i]) == Some(kind)
  }

  // Some existing entry that the operator does not update has such a type.
  predicate Growing(es: seq<Entry>, ns: seq<Entry>) {
    exists i :: 0 <= i < |es| && !ShouldUpdate(es[i]) && Kind(es[i]).Some? && LookedUp(ns, Kind(es[i]).value)
  }

  lemma {:induction false} LastOfKindAppend(a: seq<Entry>, b: seq<Entry>, kind: string)
    ensures LastOfKind(a + b, kind) == if LastOfKind(b, kind).Some? then LastOfKind(b, kind) else LastOfKind(a, kind)
  {
    hide Kind;
    if b == [] {
      assert a + b == a;
    } else {
      LastOfKindAppend(a, b[..|b| - 1], kind);
      assert (a + b)[..|a + b| - 1] == a + b[..|b| - 1];
    }
  }

  lemma LastIsThere(es: seq<Entry>, kind: string)
    ensures LastOfKind(es, kind).Some? ==>
      LastOfKind(es, kind).value in es && Kind(LastOfKind(es, kind).value) == Some(kind)
    ensures forall e :: e in es && Kind(e) == Some(kind) ==> LastOfKind(es, kind).Some?
  {
    hide Kind, LastOfKind;
    LastOfKindMeaning(es, kind);
  }

  // The stand-in for this type is an entry that is not updated.
  predicate Topped(es: seq<Entry>, kind: string) {
    LastOfKind(es, kind).Some? && !ShouldUpdate(LastOfKind(es, kind).value)
  }

  lemma RetainedOnTop(es: seq<Entry>, ns: seq<Entry>, e: Entry)
    requires e in es && !ShouldUpdate(e) && Kind(e).Some?
    ensures Topped(Again(es, ns), Kind(e).value) && e in Again(es, ns)
  {
    hide ShouldUpdate, Kind, LastOfKind, Processed, Retained;
    RetainedMembers(es, e);
    LastIsThere(Retained(es), Kind(e).value);
    LastOfKindAppend(Processed(es, ns), Retained(es), Kind(e).value);
    RetainedMembers(es, LastOfKind(Retained(es), Kind(e).value).value);
  }

  lemma {:induction false} CountGrows(es: seq<Entry>, m: seq<Entry>, ns: seq<Entry>)
    requires forall n :: n in ns && Contributes(es, n) ==> Contributes(m, n)
    ensures Count(es, ns) <= Count(m, ns)
  {
    hide Contributes;
    if ns != [] {
      assert ns == ns[..|ns| - 1] + [ns[|ns| - 1]];
      CountGrows(es, m, ns[..|ns| - 1]);
    }
  }

  // A lookup that succeeds once succeeds ever after.
  lemma LookupsStay(es: seq<Entry>, ns: seq<Entry>)
    ensures Count(es, ns) <= Count(Again(es, ns), ns)
  {
    hide ShouldUpdate, Kind, LastOfKind, Processed, Retained, Count, Contribution;
    var m := Again(es, ns);
    forall n | n in ns && Contributes(es, n)
      ensures Contributes(m, n)
    {
      ContributionSome(es, n);
      ContributionSome(m, n);
      if !ShouldUpdate(n) {
        var kind := Kind(n).value;
        var e := LastOfKind(es, kind).value;
        ContributionMeaning(es, n, e);
        ProcessedMembers(es, ns, e);
        LastIsThere(es, kind);
        LastIsThere(m, kind);
        assert e in m;
      }
    }
    CountGrows(es, m, ns);
  }

  lemma ContributionSome(es: seq<Entry>, n: Entry)
    ensures Contributes(es, n) <==> ShouldUpdate(n) || (Kind(n).Some? && LastOfKind(es, Kind(n).value).Some?)
  {
    hide ShouldUpdate, Kind, LastOfKind;
  }

  lemma AgainSize(es: seq<Entry>, ns: seq<Entry>)
    ensures |Again(es, ns)| == Count(es, ns) + |Retained(es)|
    ensures Retained(Again(es, ns)) == Retained(Processed(es, ns)) + Retained(es)
  {
    hide Processed, Retained, Count;
    ProcessedLength(es, ns);
    RetainedAppend(Processed(es, ns), Retained(es));
    RetainedTwice(es);
  }

  lemma ToppedGrows(es: seq<Entry>, ns: seq<Entry>, kind: string)
    requires LookedUp(ns, kind) && Topped(es, kind)
    ensures |Again(Again(es, ns), ns)| > |Again(es, ns)|
  {
    hide ShouldUpdate, Kind, LastOfKind, Processed, Retained, Count, Again, Contribution;
    var i :| 0 <= i < |ns| && !ShouldUpdate(ns[i]) && Kind(ns[i]) == Some(kind);
    var e := LastOfKind(es, kind).value;
    AgainSize(es, ns);
    AgainSize(Again(es, ns), ns);
    LookupsStay(es, ns);
    ContributionMeaning(es, ns[i], e);
    ProcessedMembers(es, ns, e);
    RetainedMembers(Processed(es, ns), e);
  }

  // Then the stored list is strictly longer after each further pass, from the third on.
  lemma GrowsForever(es: seq<Entry>, ns: seq<Entry>, k: nat)
    requires Growing(es, ns) && k >= 2
    ensures |Repeated(es, ns, k + 1)| > |Repeated(es, ns, k)|
  {
    hide ShouldUpdate, Kind, LookedUp, Topped, Again;
    var i :| 0 <= i < |es| && !ShouldUpdate(es[i]) && Kind(es[i]).Some? && LookedUp(ns, Kind(es[i]).value);
    var before := Repeated(es, ns, k - 2);
    EntryStays(es, ns, es[i], k - 2);
    RetainedOnTop(before, ns, es[i]);
    ToppedGrows(Again(before, ns), ns, Kind(es[i]).value);
    assert Repeated(es, ns, k - 1) == Again(before, ns);
  }

  lemma {:induction false} EntryStays(es: seq<Entry>, ns: seq<Entry>, e: Entry, k: nat)
    requires e in es && !ShouldUpdate(e) && Kind(e).Some?
    ensures e in Repeated(es, ns, k)
  {
    hide ShouldUpdate, Kind, Topped, Again;
    if k > 0 {
      EntryStays(es, ns, e, k - 1);
      RetainedOnTop(Repeated(es, ns, k - 1), ns, e);
    }
  }

  // Otherwise every stand-in is an updatable entry, so nothing is added to what is retained.
  lemma SettledRetained(es: seq<Entry>, ns: seq<Entry>)
    requires !Growing(es, ns)
    ensures Retained(Processed(es, ns)) == [] && Retained(Again(es, ns)) == Retained(es)
    ensures !Growing(Again(es, ns), ns)
  {
    hide ShouldUpdate, Kind, LastOfKind, Processed, Retained, Contribution, Again, LookedUp;
    AgainSize(es, ns);
    if Retained(Processed(es, ns)) != [] {
      var r := Retained(Processed(es, ns))[0];
      RetainedMembers(Processed(es, ns), r);
      ProcessedMembers(es, ns, r);
      var n :| n in ns && r in Contribution(es, n);
      ContributionMeaning(es, n, r);
      var i :| 0 <= i < |ns| && ns[i] == n;
      StandInGrows(es, ns, i, r);
    }
    assert [] + Retained(es) == Retained(es);
    if Growing(Again(es, ns), ns) {
      var m := Again(es, ns);
      var i :| 0 <= i < |m| && !ShouldUpdate(m[i]) && Kind(m[i]).Some? && LookedUp(ns, Kind(m[i]).value);
      RetainedMembers(m, m[i]);
      RetainedMembers(es, m[i]);
    }
  }

  lemma StandInGrows(es: seq<Entry>, ns: seq<Entry>, i: nat, r: Entry)
    requires i < |ns| && !ShouldUpdate(ns[i]) && Kind(ns[i]).Some? && !ShouldUpdate(r)
    requires LastOfKind(es, Kind(ns[i]).value) == Some(r)
    ensures Growing(es, ns)
  {
    hide ShouldUpdate, Kind, LastOfKind;
    LastIsThere(es, Kind(ns[i]).value);
    var j :| 0 <= j < |es| && es[j] == r;
  }

  // The stand-in of a type after a merge, from the stand-in before it.
  function NextStandIn(ns: seq<Entry>, kind: string, before: Option<Entry>): Option<Entry> {
    if ns == [] then None
    else
      var rest, n := NextStandIn(ns[..|ns| - 1], kind, before), ns[|ns| - 1];
      if Kind(n) != Some(kind) then rest else if ShouldUpdate(n) then Some(n) else if before.Some? then before else rest
  }

  lemma {:induction false} NextStandInOf(es: seq<Entry>, ns: seq<Entry>, kind: string)
    ensures LastOfKind(Processed(es, ns), kind) == NextStandIn(ns, kind, LastOfKind(es, kind))
  {
    hide ShouldUpdate, Contribution, LastOfKind;
    if ns == [] {
      LastOfNothing(kind);
    } else {
      var front, n := ns[..|ns| - 1], ns[|ns| - 1];
      NextStandInOf(es, front, kind);
      LastOfKindAppend(Processed(es, front), Contribution(es, n), kind);
      LastOfContribution(es, n, kind);
    }
  }

  lemma LastOfNothing(kind: string)
    ensures LastOfKind([], kind) == None
  {
  }

  lemma LastOfContribution(es: seq<Entry>, n: Entry, kind: string)
    ensures LastOfKind(Contribution(es, n), kind) ==
      if Kind(n) != Some(kind) then None else if ShouldUpdate(n) then Some(n) else LastOfKind(es, kind)
  {
    hide ShouldUpdate, LastOfKind, Kind;
    LastOfNothing(kind);
    LastOfOne(n, kind);
    if !ShouldUpdate(n) && Kind(n).Some? {
      LastIsThere(es, Kind(n).value);
      if LastOfKind(es, Kind(n).value).Some? { LastOfOne(LastOfKind(es, Kind(n).value).value, kind); }
    }
  }

  lemma LastOfOne(e: Entry, kind: string)
    ensures LastOfKind([e], kind) == if Kind(e) == Some(kind) then Some(e) else None
  {
    hide Kind;
    assert [e][..0] == [];
    LastOfNothing(kind);
  }

  lemma {:induction false} StandInSettles(ns: seq<Entry>, kind: string, before: Option<Entry>)
    ensures var once := NextStandIn(ns, kind, before); NextStandIn(ns, kind, once) == once
  {
    hide ShouldUpdate, Kind;
    if ns != [] {
      StandInSettles(ns[..|ns| - 1], kind, before);
    }
  }

  lemma {:induction false} SameStandIns(es: seq<Entry>, m: seq<Entry>, ns: seq<Entry>, part: seq<Entry>)
    requires forall n :: n in part ==> n in ns
    requires forall kind :: LookedUp(ns, kind) ==> LastOfKind(es, kind) == LastOfKind(m, kind)
    ensures Processed(es, part) == Processed(m, part)
  {
    hide ShouldUpdate, Kind, LastOfKind, LookedUp;
    if part != [] {
      var front, n := part[..|part| - 1], part[|part| - 1];
      assert part == front + [n];
      SameStandIns(es, m, ns, front);
      if !ShouldUpdate(n) && Kind(n).Some? { NamesType(ns, n); }
    }
  }

  lemma NamesType(ns: seq<Entry>, n: Entry)
    requires n in ns && !ShouldUpdate(n) && Kind(n).Some?
    ensures LookedUp(ns, Kind(n).value)
  {
    hide ShouldUpdate, Kind;
    var i :| 0 <= i < |ns| && ns[i] == n;
  }

  // Otherwise the second merge is the last to change anything.
  lemma SettlesAfterTwo(es: seq<Entry>, ns: seq<Entry>)
    requires !Growing(es, ns)
    ensures var twice := Again(Again(es, ns), ns); Again(twice, ns) == twice
  {
    hide ShouldUpdate, Kind, LastOfKind, Processed, Retained, Growing, LookedUp, NextStandIn;
    var once := Again(es, ns);
    var twice := Again(once, ns);
    SettledRetained(es, ns);
    SettledRetained(once, ns);
    forall kind | LookedUp(ns, kind)
      ensures LastOfKind(once, kind) == LastOfKind(twice, kind)
    {
      NoneRetained(es, ns, kind);
      LastOfKindAppend(Processed(es, ns), Retained(es), kind);
      LastOfKindAppend(Processed(once, ns), Retained(once), kind);
      NextStandInOf(es, ns, kind);
      NextStandInOf(once, ns, kind);
      StandInSettles(ns, kind, LastOfKind(es, kind));
    }
    SameStandIns(once, twice, ns, ns);
  }

  lemma NoneRetained(es: seq<Entry>, ns: seq<Entry>, kind: string)
    requires !Growing(es, ns) && LookedUp(ns, kind)
    ensures LastOfKind(Retained(es), kind) == None
  {
    hide ShouldUpdate, Kind, LastOfKind, Retained, LookedUp;
    LastIsThere(Retained(es), kind);
    if LastOfKind(Retained(es), kind).Some? {
      var e := LastOfKind(Retained(es), kind).value;
      RetainedMembers(es, e);
    }
  }

  // Passes of one configuration without a version stop changing the stored list exactly when no entry that the
  // operator does not update has a type that the configuration names without updating it.
  lemma StopsChangingIff(es: seq<Entry>, ns: seq<Entry>)
    ensures (exists k: nat :: Repeated(es, ns, k + 1) == Repeated(es, ns, k)) <==> !Growing(es, ns)
  {
    hide Growing, Again;
    if Growing(es, ns) {
      forall k: nat ensures Repeated(es, ns, k + 1) != Repeated(es, ns, k) {
        if Repeated(es, ns, k + 1) == Repeated(es, ns, k) {
          assert Repeated(es, ns, k + 2) == Repeated(es, ns, k + 1) && Repeated(es, ns, k + 3) == Repeated(es, ns, k + 2);
          GrowsForever(es, ns, k + 2);
        }
      }
    } else {
      SettlesAfterTwo(es, ns);
      assert Repeated(es, ns, 2) == Again(Again(es, ns), ns) by { assert Repeated(es, ns, 1) == Again(es, ns); }
      assert Repeated(es, ns, 2 + 1) == Repeated(es, ns, 2);
    }
  }

  // The first pass stores the new configuration itself, so that then decides.
  lemma FreshStopsIff(ns: seq<Entry>)
    requires WellFormedNew(ns)
    ensures (exists k: nat :: Repeated(ns, ns, k + 1) == Repeated(ns, ns, k)) <==> AllUpdated(ns)
  {
    hide ShouldUpdate, Kind, Repeated;
    StopsChangingIff(ns, ns);
    if !AllUpdated(ns) {
      var i :| 0 <= i < |ns| && !ShouldUpdate(ns[i]);
      NamesType(ns, ns[i]);
    }
  }

  /* ----- runs of operator versions ----- */

  // The stored configuration after passes with these new configurations; a failed or panicking merge writes nothing.
  function Passes(es: seq<Entry>, news: seq<seq<Entry>>, decode: Decoder): seq<Entry> {
    if news == [] then es
    else
      var before := Passes(es, news[..|news| - 1], decode);
      var merged := Merge(Some(before), Some(news[|news| - 1]), decode);
      if merged.Ok? then merged.value else before
  }

  // Entries the operator does not own are never lost: each stays at least as often as it was stored.
  lemma {:induction false} ForeignEntriesKept(es: seq<Entry>, news: seq<seq<Entry>>, decode: Decoder)
    ensures multiset(Retained(es)) <= multiset(Retained(Passes(es, news, decode)))
  {
    hide ConfigVersion, Processed, Retained, AllKinded, LookupsKinded;
    if news != [] {
      var front, n := news[..|news| - 1], news[|news| - 1];
      var before := Passes(es, front, decode);
      ForeignEntriesKept(es, front, decode);
      RetainedAppend(Processed(before, n), Retained(before));
      RetainedTwice(before);
    }
  }

  // Repeated passes of one operator version with a version string write one configuration and then no other.
  lemma {:induction false} SameVersionStable(es: seq<Entry>, ns: seq<Entry>, news: seq<seq<Entry>>, decode: Decoder)
    requires WellFormedNew(ns) && ConfigVersion(ns, decode) != Ok("")
    requires forall i :: 0 <= i < |news| ==> news[i] == ns
    requires Merge(Some(es), Some(ns), decode).Ok?
    ensures var merged := Merge(Some(es), Some(ns), decode).value;
      Passes(merged, news, decode) == merged
  {
    hide Merge, ConfigVersion, WellFormedNew;
    var merged := Merge(Some(es), Some(ns), decode).value;
    if news != [] {
      SameVersionStable(es, ns, news[..|news| - 1], decode);
      VersionedMergeSettles(es, ns, decode);
    }
  }
}
