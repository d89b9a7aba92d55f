/** The merge as a step that is fed its own output: fixed points, fallbacks, and what one round keeps. */
module NatsMergeTheorems {
  import opened Wrappers
  import opened GoStrings
  import opened Decimal
  import opened NatsRoutes
  import opened NatsRouteTheorems

  // A server.conf around a printed route list.
  function Framed(before: string, routes: seq<string>, after: string): string {
    before + ROUTES_KEY + " " + PrintRoutes(routes) + after
  }

  // The first routes key of the file is the one before the printed list.
  ghost predicate WellFramed(before: string, routes: seq<string>, after: string) {
    Index(Framed(before, routes, after), ROUTES_KEY) == |before|
  }

  predicate PlainName(headless: string) { ',' !in headless && ']' !in headless }

  predicate Free(routes: seq<string>) {
    forall i :: 0 <= i < |routes| ==> ',' !in routes[i] && ']' !in routes[i]
  }

  lemma OrdinalClean(i: int, headless: string, port: int)
    requires PlainName(headless)
    ensures Clean(OrdinalRoute(i, headless, port))
  {
    hide Itoa;
    var r := OrdinalRoute(i, headless, port);
    OrdinalEdges(i, headless, port);
    assert 'n' !in WHITESPACE && forall c :: IsDigit(c) ==> c !in WHITESPACE && c != '"';
    assert ',' !in r && ']' !in r by {
      assert ',' !in ORDINAL_PREFIX && ']' !in ORDINAL_PREFIX;
      assert ',' !in OrdinalSuffix(headless, port) && ']' !in OrdinalSuffix(headless, port);
    }
  }

  lemma CleanNormFixed(r: string)
    requires Clean(r)
    ensures Norm(r) == r
  {
    NormFixedPoint(r);
  }

  lemma NormShrinks(r: string)
    requires |Norm(r)| == |r|
    ensures Norm(r) == r
  {
    hide TrimLeft, WHITESPACE, Trim;
    var t := Trim(r, {'"'});
    TrimLengthFixed(r, {'"'});
    var u := TrimRight(t, {','});
    TrimLengthFixed(u, WHITESPACE);
  }

  // Everything merged is free of the characters that end a route.
  lemma MergedFree(headless: string, replicas: nat, port: int, conf: string)
    requires replicas <= MAX_REPLICAS && PlainName(headless)
    ensures Free(MergedRoutes(headless, replicas, port, conf))
  {
    hide OrdinalRoute, Norm, Kept, IsK8sOrdinalRoute, ParsedRoutes, Clean, OtherRoutes;
    var merged := MergedRoutes(headless, replicas, port, conf);
    forall i | 0 <= i < |merged|
      ensures ',' !in merged[i] && ']' !in merged[i]
    {
      if i < replicas {
        OrdinalFree(i, headless, if ParsedRoutes(conf) == None then DEFAULT_CLUSTER_PORT else port);
      } else {
        var existing := ParsedRoutes(conf).value;
        ParsedFree(conf);
        OtherMembers(headless, replicas, port, existing, merged[i]);
        var k :| 0 <= k < |existing| && Norm(existing[k]) == merged[i];
        NormChars(existing[k], ',');
        NormChars(existing[k], ']');
      }
    }
  }

  lemma OrdinalFree(i: int, headless: string, port: int)
    requires PlainName(headless)
    ensures ',' !in OrdinalRoute(i, headless, port) && ']' !in OrdinalRoute(i, headless, port)
  {
    OrdinalClean(i, headless, port);
  }

  lemma {:induction false} NormAllMembers(routes: seq<string>, r: string)
    ensures r in NormAll(routes) <==> r != "" && exists k :: 0 <= k < |routes| && Norm(routes[k]) == r
  {
    hide Norm;
    if routes != [] {
      var front := routes[..|routes| - 1];
      NormAllMembers(front, r);
      assert forall k :: 0 <= k < |front| ==> front[k] == routes[k];
      if k :| 0 <= k < |front| && Norm(front[k]) == r {
        assert Norm(routes[k]) == r;
      }
    }
  }

  lemma {:induction false} NormAllAppend(a: seq<string>, b: seq<string>)
    ensures NormAll(a + b) == NormAll(a) + NormAll(b)
  {
    hide Norm;
    if b == [] {
      assert a + b == a;
    } else {
      NormAllAppend(a, b[..|b| - 1]);
      assert (a + b)[..|a + b| - 1] == a + b[..|b| - 1];
    }
  }

  lemma NormAllOrdinals(headless: string, replicas: nat, port: int)
    requires PlainName(headless)
    ensures NormAll(OrdinalRoutes(headless, replicas, port)) == OrdinalRoutes(headless, replicas, port)
  {
    hide OrdinalRoute, Clean, Norm, NormAll;
    var ordinals := OrdinalRoutes(headless, replicas, port);
    NormAllFixedPoint(ordinals);
    forall i | 0 <= i < replicas
      ensures ordinals[i] != "" && Norm(ordinals[i]) == ordinals[i]
    {
      OrdinalClean(i, headless, port);
      CleanNormFixed(ordinals[i]);
      OrdinalEdges(i, headless, port);
    }
  }

  /* ----- feeding the merge its own output ----- */

  // Ordinals contribute nothing; each further entry contributes at most its normalised self.
  lemma {:induction false} OthersAfterOrdinals(headless: string, replicas: nat, port: int, ys: seq<string>)
    requires replicas <= MAX_REPLICAS && PlainName(headless)
    ensures var others := OtherRoutes(headless, replicas, port, OrdinalRoutes(headless, replicas, port) + ys);
      && |others| <= |ys|
      && (|others| == |ys| ==> forall i :: 0 <= i < |ys| ==> others[i] == Norm(ys[i]))
  {
    hide OrdinalRoute, Norm, Kept;
    var ordinals := OrdinalRoutes(headless, replicas, port);
    if ys == [] {
      assert ordinals + ys == ordinals;
      OrdinalsGiveNoOthers(headless, replicas, port, replicas);
      assert ordinals[..replicas] == ordinals;
    } else {
      assert (ordinals + ys)[..|ordinals + ys| - 1] == ordinals + ys[..|ys| - 1];
      OthersAfterOrdinals(headless, replicas, port, ys[..|ys| - 1]);
    }
  }

  lemma {:induction false} OrdinalsGiveNoOthers(headless: string, replicas: nat, port: int, n: nat)
    requires n <= replicas <= MAX_REPLICAS && PlainName(headless)
    ensures OtherRoutes(headless, replicas, port, OrdinalRoutes(headless, replicas, port)[..n]) == []
  {
    hide OrdinalRoute, Norm, IsK8sOrdinalRoute, Clean;
    var ordinals := OrdinalRoutes(headless, replicas, port);
    if n > 0 {
      OrdinalsGiveNoOthers(headless, replicas, port, n - 1);
      assert ordinals[..n][..n - 1] == ordinals[..n - 1];
      OrdinalClean(n - 1, headless, port);
      CleanNormFixed(ordinals[n - 1]);
      OrdinalIsK8s(n - 1, headless, port);
    }
  }

  // Kept, distinct and normalised routes come back unchanged.
  lemma {:induction false} OthersComeBack(headless: string, replicas: nat, port: int, ys: seq<string>)
    requires replicas <= MAX_REPLICAS && PlainName(headless) && Distinct(ys)
    requires forall i :: 0 <= i < |ys| ==> Kept(ys[i], headless, replicas, port) && Norm(ys[i]) == ys[i]
    ensures OtherRoutes(headless, replicas, port, OrdinalRoutes(headless, replicas, port) + ys) == ys
  {
    hide OrdinalRoute, Norm, Kept;
    var ordinals := OrdinalRoutes(headless, replicas, port);
    if ys == [] {
      assert ordinals + ys == ordinals;
      OrdinalsGiveNoOthers(headless, replicas, port, replicas);
      assert ordinals[..replicas] == ordinals;
    } else {
      assert (ordinals + ys)[..|ordinals + ys| - 1] == ordinals + ys[..|ys| - 1];
      OthersComeBack(headless, replicas, port, ys[..|ys| - 1]);
      assert ys == ys[..|ys| - 1] + [ys[|ys| - 1]];
    }
  }

  // For a fixed replica count the merge is a fixed point exactly when every route it keeps is clean.
  lemma MergeFixedPoint(headless: string, replicas: nat, port: int, conf: string, before: string, after: string)
    requires replicas <= MAX_REPLICAS && PlainName(headless) && ParsedRoutes(conf).Some?
    requires WellFramed(before, MergedRoutes(headless, replicas, port, conf), after)
    ensures var merged := MergedRoutes(headless, replicas, port, conf);
      MergedRoutes(headless, replicas, port, Framed(before, merged, after)) == merged
      <==> forall k :: 0 <= k < |ParsedRoutes(conf).value| ==>
             var norm := Norm(ParsedRoutes(conf).value[k]);
             norm != "" && !IsK8sOrdinalRoute(norm, headless, port) ==> Clean(norm)
  {
    hide OrdinalRoute, Norm, Kept, IsK8sOrdinalRoute, ParsedRoutes, Clean, OtherRoutes, Framed, PrintRoutes, Distinct;
    var existing := ParsedRoutes(conf).value;
    var others := OtherRoutes(headless, replicas, port, existing);
    OthersCleanIff(headless, replicas, port, existing);
    OthersAreKept(headless, replicas, port, existing);
    MergedFree(headless, replicas, port, conf);
    if AllClean(others) {
      FixedWhenClean(headless, replicas, port, conf, before, after);
    } else {
      NotFixedWhenUnclean(headless, replicas, port, conf, before, after);
    }
  }

  lemma OthersCleanIff(headless: string, replicas: nat, port: int, existing: seq<string>)
    requires replicas <= MAX_REPLICAS
    ensures AllClean(OtherRoutes(headless, replicas, port, existing))
      <==> forall k :: 0 <= k < |existing| ==>
             var norm := Norm(existing[k]);
             norm != "" && !IsK8sOrdinalRoute(norm, headless, port) ==> Clean(norm)
  {
    hide Norm, Kept, IsK8sOrdinalRoute, Clean, OtherRoutes;
    var others := OtherRoutes(headless, replicas, port, existing);
    forall k | 0 <= k < |existing|
      ensures Norm(existing[k]) in others
         <==> (Norm(existing[k]) != "" && !IsK8sOrdinalRoute(Norm(existing[k]), headless, port))
    {
      OtherMembers(headless, replicas, port, existing, Norm(existing[k]));
      SetLookupNeverFires(Norm(existing[k]), headless, replicas, port);
    }
    forall i | 0 <= i < |others|
      ensures exists k :: 0 <= k < |existing| && Norm(existing[k]) == others[i]
    {
      OtherMembers(headless, replicas, port, existing, others[i]);
    }
  }

  lemma OthersAreKept(headless: string, replicas: nat, port: int, existing: seq<string>)
    ensures forall i :: 0 <= i < |OtherRoutes(headless, replicas, port, existing)| ==>
      Kept(OtherRoutes(headless, replicas, port, existing)[i], headless, replicas, port)
  {
    hide Kept, OtherRoutes;
    var others := OtherRoutes(headless, replicas, port, existing);
    forall i | 0 <= i < |others|
      ensures Kept(others[i], headless, replicas, port)
    {
      OtherMembers(headless, replicas, port, existing, others[i]);
    }
  }

  lemma FixedWhenClean(headless: string, replicas: nat, port: int, conf: string, before: string, after: string)
    requires replicas <= MAX_REPLICAS && PlainName(headless) && ParsedRoutes(conf).Some?
    requires WellFramed(before, MergedRoutes(headless, replicas, port, conf), after)
    requires AllClean(OtherRoutes(headless, replicas, port, ParsedRoutes(conf).value))
    ensures var merged := MergedRoutes(headless, replicas, port, conf);
      MergedRoutes(headless, replicas, port, Framed(before, merged, after)) == merged
  {
    hide OrdinalRoute, Norm, Kept, ParsedRoutes, Clean, OtherRoutes, PrintRoutes;
    var existing := ParsedRoutes(conf).value;
    var others := OtherRoutes(headless, replicas, port, existing);
    var merged := MergedRoutes(headless, replicas, port, conf);
    forall i | 0 <= i < |merged|
      ensures Clean(merged[i])
    {
      if i < replicas { OrdinalClean(i, headless, port); }
    }
    PrintParseRoundTrip(before, merged, after);
    OtherDistinct(headless, replicas, port, existing);
    OthersAreKept(headless, replicas, port, existing);
    forall i | 0 <= i < |others|
      ensures Norm(others[i]) == others[i]
    {
      CleanNormFixed(others[i]);
    }
    OthersComeBack(headless, replicas, port, others);
  }

  lemma NotFixedWhenUnclean(headless: string, replicas: nat, port: int, conf: string, before: string, after: string)
    requires replicas <= MAX_REPLICAS && PlainName(headless) && ParsedRoutes(conf).Some?
    requires WellFramed(before, MergedRoutes(headless, replicas, port, conf), after)
    requires !AllClean(OtherRoutes(headless, replicas, port, ParsedRoutes(conf).value))
    ensures var merged := MergedRoutes(headless, replicas, port, conf);
      MergedRoutes(headless, replicas, port, Framed(before, merged, after)) != merged
  {
    hide OrdinalRoute, Norm, Kept, IsK8sOrdinalRoute, ParsedRoutes, Clean, OtherRoutes, PrintRoutes, NormAll;
    var existing := ParsedRoutes(conf).value;
    var ordinals := OrdinalRoutes(headless, replicas, port);
    var others := OtherRoutes(headless, replicas, port, existing);
    var merged := MergedRoutes(headless, replicas, port, conf);
    var again := MergedRoutes(headless, replicas, port, Framed(before, merged, after));
    MergedFree(headless, replicas, port, conf);
    PrintedParses(before, merged, after);
    NormAllAppend(ordinals, others);
    NormAllOrdinals(headless, replicas, port);
    if again == merged && NormAll(merged) != [] {
      var ys := NormAll(others);
      OthersAfterOrdinals(headless, replicas, port, ys);
      var others2 := OtherRoutes(headless, replicas, port, ordinals + ys);
      assert others2 == again[replicas..] == others;
      NormAllShrinks(others);
      NormAllFixedPoint(others);
      NormsCompose(others, ys);
      forall i | 0 <= i < |others|
        ensures Clean(others[i])
      {
        assert merged[replicas + i] == others[i];
        OthersAreKept(headless, replicas, port, existing);
        KeptNormIsClean(others[i], headless, replicas, port);
      }
    }
  }

  lemma KeptNormIsClean(r: string, headless: string, replicas: nat, port: int)
    requires Kept(r, headless, replicas, port) && Norm(r) == r && ',' !in r && ']' !in r
    ensures Clean(r)
  {
    hide Norm;
    NormFixedPoint(r);
  }

  lemma {:induction false} NormAllShrinks(routes: seq<string>)
    ensures |NormAll(routes)| == |routes| ==> forall i :: 0 <= i < |routes| ==> NormAll(routes)[i] == Norm(routes[i])
    ensures |NormAll(routes)| <= |routes|
  {
    hide Norm;
    if routes != [] {
      NormAllShrinks(routes[..|routes| - 1]);
    }
  }

  // Normalising twice and ending where one started means that nothing was trimmed.
  lemma NormsCompose(others: seq<string>, ys: seq<string>)
    requires |ys| == |others|
    requires forall i :: 0 <= i < |others| ==> ys[i] == Norm(others[i]) && others[i] == Norm(ys[i])
    ensures forall i :: 0 <= i < |others| ==> Norm(others[i]) == others[i]
  {
    hide TrimSpace, Trim, TrimRight;
    forall i | 0 <= i < |others|
      ensures Norm(others[i]) == others[i]
    {
      assert |Norm(ys[i])| <= |ys[i]| == |Norm(others[i])| <= |others[i]|;
      NormShrinks(others[i]);
    }
  }

  /* ----- fallbacks ----- */

  // The merge yields the freshly formatted list exactly when nothing was parsed, or nothing but ordinals
  // and the cluster port (if it is printed at all) is the default one.
  lemma FallbacksAgree(headless: string, replicas: nat, port: int, conf: string)
    requires replicas <= MAX_REPLICAS
    ensures MergedRoutes(headless, replicas, port, conf) == OrdinalRoutes(headless, replicas, DEFAULT_CLUSTER_PORT)
      <==> (ParsedRoutes(conf).Some? ==>
              && (replicas == 0 || port == DEFAULT_CLUSTER_PORT)
              && forall k :: 0 <= k < |ParsedRoutes(conf).value| ==>
                   var norm := Norm(ParsedRoutes(conf).value[k]);
                   norm == "" || IsK8sOrdinalRoute(norm, headless, port))
  {
    hide OrdinalRoute, Norm, Kept, IsK8sOrdinalRoute, ParsedRoutes, OtherRoutes;
    if ParsedRoutes(conf).Some? {
      var existing := ParsedRoutes(conf).value;
      var others := OtherRoutes(headless, replicas, port, existing);
      NoOthersIff(headless, replicas, port, existing);
      var merged := MergedRoutes(headless, replicas, port, conf);
      if merged == OrdinalRoutes(headless, replicas, DEFAULT_CLUSTER_PORT) && replicas > 0 {
        assert merged[0] == OrdinalRoute(0, headless, port) == OrdinalRoute(0, headless, DEFAULT_CLUSTER_PORT);
        SamePort(headless, port, DEFAULT_CLUSTER_PORT);
      }
    }
  }

  lemma NoOthersIff(headless: string, replicas: nat, port: int, existing: seq<string>)
    requires replicas <= MAX_REPLICAS
    ensures OtherRoutes(headless, replicas, port, existing) == []
      <==> forall k :: 0 <= k < |existing| ==> Norm(existing[k]) == "" || IsK8sOrdinalRoute(Norm(existing[k]), headless, port)
  {
    hide Norm, Kept, IsK8sOrdinalRoute, OtherRoutes;
    var others := OtherRoutes(headless, replicas, port, existing);
    forall k | 0 <= k < |existing|
      ensures Norm(existing[k]) in others
         <==> (Norm(existing[k]) != "" && !IsK8sOrdinalRoute(Norm(existing[k]), headless, port))
    {
      OtherMembers(headless, replicas, port, existing, Norm(existing[k]));
      SetLookupNeverFires(Norm(existing[k]), headless, replicas, port);
    }
    if others != [] {
      OtherMembers(headless, replicas, port, existing, others[0]);
      var k :| 0 <= k < |existing| && Norm(existing[k]) == others[0];
    }
  }

  lemma SamePort(headless: string, p: int, q: int)
    requires OrdinalRoute(0, headless, p) == OrdinalRoute(0, headless, q)
    ensures p == q
  {
    hide Itoa;
    var front := ORDINAL_PREFIX + Itoa(0) + ("." + headless + ":");
    assert OrdinalRoute(0, headless, p) == front + Itoa(p);
    assert OrdinalRoute(0, headless, q) == front + Itoa(q);
    assert (front + Itoa(p))[|front|..] == Itoa(p);
    assert (front + Itoa(q))[|front|..] == Itoa(q);
    ItoaInjective(p, q);
  }

  /* ----- one round of print and parse ----- */

  // What was clean before a merge round is exactly the merged list after it.
  lemma CleanRound(headless: string, replicas: nat, port: int, conf: string, before: string, after: string)
    requires replicas <= MAX_REPLICAS && PlainName(headless)
    requires ParsedRoutes(conf).Some? ==> AllClean(ParsedRoutes(conf).value)
    requires WellFramed(before, MergedRoutes(headless, replicas, port, conf), after)
    ensures var merged := MergedRoutes(headless, replicas, port, conf);
      AllClean(merged) && ParsedRoutes(Framed(before, merged, after)) == Some(merged)
  {
    hide OrdinalRoute, Norm, Kept, IsK8sOrdinalRoute, ParsedRoutes, Clean, OtherRoutes, PrintRoutes;
    var merged := MergedRoutes(headless, replicas, port, conf);
    forall i | 0 <= i < |merged|
      ensures Clean(merged[i])
    {
      if i < replicas {
        OrdinalClean(i, headless, if ParsedRoutes(conf) == None then DEFAULT_CLUSTER_PORT else port);
      } else {
        var existing := ParsedRoutes(conf).value;
        OtherMembers(headless, replicas, port, existing, merged[i]);
        var k :| 0 <= k < |existing| && Norm(existing[k]) == merged[i];
        CleanNormFixed(existing[k]);
      }
    }
    PrintParseRoundTrip(before, merged, after);
  }

  // A clean route of someone else survives a merge round whatever else the file contains.
  lemma RouteSurvivesRound(headless: string, replicas: nat, port: int, conf: string, before: string, after: string, r: string)
    requires replicas <= MAX_REPLICAS && PlainName(headless)
    requires ParsedRoutes(conf).Some? && r in ParsedRoutes(conf).value
    requires Clean(r) && !IsK8sOrdinalRoute(r, headless, port)
    requires WellFramed(before, MergedRoutes(headless, replicas, port, conf), after)
    ensures var next := Framed(before, MergedRoutes(headless, replicas, port, conf), after);
      ParsedRoutes(next).Some? && r in ParsedRoutes(next).value
  {
    hide OrdinalRoute, Norm, Kept, IsK8sOrdinalRoute, ParsedRoutes, OtherRoutes, PrintRoutes, NormAll, NoEdge;
    var existing := ParsedRoutes(conf).value;
    var merged := MergedRoutes(headless, replicas, port, conf);
    var k :| 0 <= k < |existing| && existing[k] == r;
    CleanNormFixed(r);
    SetLookupNeverFires(r, headless, replicas, port);
    OtherMembers(headless, replicas, port, existing, r);
    assert r in merged;
    MergedFree(headless, replicas, port, conf);
    PrintedParses(before, merged, after);
    var j :| 0 <= j < |merged| && merged[j] == r;
    NormAllMembers(merged, r);
  }
}
