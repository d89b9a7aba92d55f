/** Cluster routes of the NATS hub: printing, parsing back, and the merge that replaces the
    operator's own StatefulSet-ordinal routes while keeping what the Controller added.
    Every loop of the source is a method here; the functions it is proved against come first. */
module NatsRoutes {
  import opened Wrappers
  import opened GoStrings
  import opened Decimal

  const DEFAULT_CLUSTER_PORT: int := 6222
  const MAX_REPLICAS: int := 0x7fff_ffff  // the replica count is an int32
  const ROUTES_KEY := "routes:"
  const ORDINAL_PREFIX := "nats://nats-"

  function OrdinalSuffix(headless: string, port: int): string { "." + headless + ":" + Itoa(port) }

  function OrdinalRoute(i: int, headless: string, port: int): string {
    ORDINAL_PREFIX + Itoa(i) + OrdinalSuffix(headless, port)
  }

  function OrdinalRoutes(headless: string, replicas: nat, port: int): seq<string> {
    seq(replicas, i => OrdinalRoute(i, headless, port))
  }

  function TrimSuffix(s: string, suffix: string): string {
    if HasSuffix(s, suffix) then s[..|s| - |suffix|] else s
  }

  function TrimPrefix(s: string, prefix: string): string {
    if HasPrefix(s, prefix) then s[|prefix|..] else s
  }

  predicate IsK8sOrdinalRoute(route: string, headless: string, port: int) {
    var suffix := OrdinalSuffix(headless, port);
    HasPrefix(route, ORDINAL_PREFIX) && HasSuffix(route, suffix) &&
    Atoi(TrimPrefix(TrimSuffix(route, suffix), ORDINAL_PREFIX)).Some?
  }

  /* ----- printing ----- */

  function Quote(s: string): string { ['"'] + s + ['"'] }

  function QuoteAll(routes: seq<string>): seq<string> {
    seq(|routes|, i requires 0 <= i < |routes| => Quote(routes[i]))
  }

  function PrintRoutes(routes: seq<string>): string { "[" + Join(QuoteAll(routes), ", ") + "]" }

  /* ----- parsing ----- */

  function Norm(route: string): (r: string)
    ensures |r| <= |route|
  {
    TrimSpace(TrimRight(Trim(route, {'"'}), {','}))
  }

  // The non-empty cleaned segments, in order.
  function Segments(parts: seq<string>): seq<string> {
    if parts == [] then []
    else
      var last := Norm(TrimSpace(parts[|parts| - 1]));
      Segments(parts[..|parts| - 1]) + if last == "" then [] else [last]
  }

  // The trimmed text between the first '[' after the routes key and the ']' that follows it.
  function RoutesText(conf: string): Option<string> {
    var idx := Index(conf, ROUTES_KEY);
    if idx < 0 then None
    else
      var rest := conf[idx + |ROUTES_KEY|..];
      var start := Index(rest, "[");
      if start < 0 then None
      else
        var end := Index(rest[start..], "]");
        if end < 0 then None
        else
          assert rest[start..start + 1][0] == '[';
          assert rest[start..][end..end + 1][0] == ']';
          Some(TrimSpace(rest[start + 1..start + end]))
  }

  // None stands for Go's nil slice, which the caller tells apart from an empty one.
  function ParsedRoutes(conf: string): Option<seq<string>> {
    match RoutesText(conf)
    case None => None
    case Some(inner) =>
      if inner == "" then Some([])
      else
        var raw := Segments(Split(inner, ','));
        if raw == [] then None else Some(raw)
  }

  /* ----- merging ----- */

  predicate Kept(norm: string, headless: string, replicas: nat, port: int) {
    norm != "" && !IsK8sOrdinalRoute(norm, headless, port) && norm !in OrdinalRoutes(headless, replicas, port)
  }

  // The routes of others, each once, in the order in which they first occur.
  function OtherRoutes(headless: string, replicas: nat, port: int, existing: seq<string>): seq<string> {
    if existing == [] then []
    else
      var acc := OtherRoutes(headless, replicas, port, existing[..|existing| - 1]);
      var norm := Norm(existing[|existing| - 1]);
      if Kept(norm, headless, replicas, port) && norm !in acc then acc + [norm] else acc
  }

  function MergedRoutes(headless: string, replicas: nat, port: int, conf: string): seq<string> {
    match ParsedRoutes(conf)
    case None => OrdinalRoutes(headless, replicas, DEFAULT_CLUSTER_PORT)
    case Some(existing) =>
      OrdinalRoutes(headless, replicas, port) + OtherRoutes(headless, replicas, port, existing)
  }

  /* ----- the source's loops ----- */

  // fmt.Sprintf of a quoted ordinal route.
  function QuotedOrdinal(i: int, headless: string, port: int): (text: string) {
    "\"nats://nats-" + Itoa(i) + "." + headless + ":" + Itoa(port) + "\""
  }

  lemma QuotedOrdinalText(i: int, headless: string, port: int)
    ensures QuotedOrdinal(i, headless, port) == Quote(OrdinalRoute(i, headless, port))
  {
    var a, p := Itoa(i), Itoa(port);
    calc {
      QuotedOrdinal(i, headless, port);
      ['"'] + ORDINAL_PREFIX + a + "." + headless + ":" + p + ['"'];
      ['"'] + (ORDINAL_PREFIX + a + ("." + headless + ":" + p)) + ['"'];
    }
  }

  method ClusterRoutesFormat(headless: string, replicas: nat) returns (routes: string)
    ensures routes == PrintRoutes(OrdinalRoutes(headless, replicas, DEFAULT_CLUSTER_PORT))
  {
    var parts := new string[replicas](_ => "");
    for i := 0 to replicas
      invariant forall k :: 0 <= k < i ==> parts[k] == QuotedOrdinal(k, headless, DEFAULT_CLUSTER_PORT)
    {
      parts[i] := QuotedOrdinal(i, headless, DEFAULT_CLUSTER_PORT);
    }
    QuotedOrdinals(headless, replicas, DEFAULT_CLUSTER_PORT);
    assert parts[..] == seq(replicas, k => QuotedOrdinal(k, headless, DEFAULT_CLUSTER_PORT));
    routes := "[" + Join(parts[..], ", ") + "]";
  }

  lemma QuotedOrdinals(headless: string, replicas: nat, port: int)
    ensures seq(replicas, k => QuotedOrdinal(k, headless, port)) == QuoteAll(OrdinalRoutes(headless, replicas, port))
  {
    forall k | 0 <= k < replicas
      ensures QuotedOrdinal(k, headless, port) == Quote(OrdinalRoute(k, headless, port))
    {
      QuotedOrdinalText(k, headless, port);
    }
  }

  lemma BracketsApart(rest: string, start: nat, end: nat)
    requires Occurs(rest, "[", start) && Occurs(rest[start..], "]", end)
    ensures end >= 1 && start + end <= |rest|
  {
    assert rest[start..start + 1][0] == '[';
    assert rest[start..][end..end + 1][0] == ']';
  }

  method ParseRoutesFromServerConf(conf: string) returns (routes: Option<seq<string>>)
    ensures routes == ParsedRoutes(conf)
  {
    hide IndexFrom, Split, TrimSpace, Trim, TrimRight;
    var idx := Index(conf, ROUTES_KEY);
    if idx < 0 { return None; }
    var rest := conf[idx + |ROUTES_KEY|..];
    var start := Index(rest, "[");
    if start < 0 { return None; }
    var end := Index(rest[start..], "]");
    if end < 0 { return None; }
    BracketsApart(rest, start, end);
    var inner := TrimSpace(rest[start + 1..start + end]);
    assert RoutesText(conf) == Some(inner);
    hide RoutesText;
    if inner == "" {
      return Some([]);
    }
    var raw: seq<string> := [];
    var parts := Split(inner, ',');
    for i := 0 to |parts|
      invariant raw == Segments(parts[..i])
    {
      assert parts[..i + 1][..i] == parts[..i];
      var s := TrimSpace(parts[i]);
      s := Trim(s, {'"'});
      s := TrimRight(s, {','});
      s := TrimSpace(s);
      if s != "" {
        raw := raw + [s];
      }
    }
    assert parts[..|parts|] == parts;
    return if raw == [] then None else Some(raw);
  }

  method ClusterRoutesMerge(headless: string, replicas: nat, port: int, conf: string) returns (routes: string)
    ensures routes == PrintRoutes(MergedRoutes(headless, replicas, port, conf))
  {
    hide ParsedRoutes, OrdinalRoutes, OtherRoutes, QuoteAll, Join;
    if conf == "" {
      EmptyConfHasNoRoutes();
      routes := ClusterRoutesFormat(headless, replicas);
      return;
    }
    var existing := ParseRoutesFromServerConf(conf);
    if existing == None {
      routes := ClusterRoutesFormat(headless, replicas);
      return;
    }
    var k8sRoutes, k8sSet := DesiredK8sRoutes(headless, replicas, port);
    var otherRoutes := CollectOtherRoutes(headless, replicas, port, existing.value, k8sSet);
    ghost var ordinals := OrdinalRoutes(headless, replicas, port);
    assert ordinals + otherRoutes[..0] == ordinals;
    for i := 0 to |otherRoutes|
      invariant k8sRoutes == QuoteAll(ordinals + otherRoutes[..i])
    {
      QuoteAllAppend(ordinals + otherRoutes[..i], otherRoutes[i]);
      assert ordinals + otherRoutes[..i] + [otherRoutes[i]] == ordinals + otherRoutes[..i + 1];
      k8sRoutes := k8sRoutes + ["\"" + otherRoutes[i] + "\""];
    }
    assert otherRoutes[..|otherRoutes|] == otherRoutes;
    routes := "[" + Join(k8sRoutes, ", ") + "]";
  }

  lemma EmptyConfHasNoRoutes()
    ensures ParsedRoutes("") == None
  {
  }

  lemma QuoteAllAppend(routes: seq<string>, last: string)
    ensures QuoteAll(routes + [last]) == QuoteAll(routes) + [Quote(last)]
  {
  }

  // The desired ordinal routes, quoted, and the set of their unquoted texts.
  method DesiredK8sRoutes(headless: string, replicas: nat, port: int)
    returns (k8sRoutes: seq<string>, k8sSet: set<string>)
    ensures k8sRoutes == QuoteAll(OrdinalRoutes(headless, replicas, port))
    ensures forall r :: r in k8sSet <==> r in OrdinalRoutes(headless, replicas, port)
  {
    hide QuotedOrdinal, Trim, TrimRight, TrimLeft, OrdinalRoute;
    k8sRoutes := [];
    for i := 0 to replicas
      invariant k8sRoutes == seq(i, k => QuotedOrdinal(k, headless, port))
    {
      k8sRoutes := k8sRoutes + [QuotedOrdinal(i, headless, port)];
    }
    QuotedOrdinals(headless, replicas, port);
    ghost var all := OrdinalRoutes(headless, replicas, port);
    k8sSet := {};
    for i := 0 to |k8sRoutes|
      invariant forall r :: r in k8sSet <==> r in all[..i]
    {
      OrdinalEdges(i, headless, port);
      Unquoted(all[i]);
      k8sSet := k8sSet + {Trim(k8sRoutes[i], {'"'})};
      assert all[..i + 1] == all[..i] + [all[i]];
    }
    assert all[..|all|] == all;
  }

  method CollectOtherRoutes(headless: string, replicas: nat, port: int, existing: seq<string>, k8sSet: set<string>)
    returns (otherRoutes: seq<string>)
    requires forall r :: r in k8sSet <==> r in OrdinalRoutes(headless, replicas, port)
    ensures otherRoutes == OtherRoutes(headless, replicas, port, existing)
  {
    hide IsK8sOrdinalRoute, OrdinalRoutes, TrimSpace, Trim, TrimRight;
    otherRoutes := [];
    var seenOther: set<string> := {};
    for i := 0 to |existing|
      invariant otherRoutes == OtherRoutes(headless, replicas, port, existing[..i])
      invariant forall r :: r in seenOther <==> r in otherRoutes
    {
      assert existing[..i + 1][..i] == existing[..i];
      var norm := TrimSpace(TrimRight(Trim(existing[i], {'"'}), {','}));
      assert norm == Norm(existing[i]);
      if norm == "" || IsK8sOrdinalRoute(norm, headless, port) || norm in k8sSet || norm in seenOther {
        continue;
      }
      seenOther := seenOther + {norm};
      otherRoutes := otherRoutes + [norm];
    }
    assert existing[..|existing|] == existing;
  }

  lemma Unquoted(r: string)
    requires NoEdge(r, {'"'})
    ensures Trim(Quote(r), {'"'}) == r
  {
    TrimWrapped('"', r);
    TrimFixedPoint(r, {'"'});
  }

  // An ordinal route starts with a letter and ends with a digit.
  lemma OrdinalEdges(i: int, headless: string, port: int)
    ensures var r := OrdinalRoute(i, headless, port); r != "" && r[0] == 'n' && IsDigit(r[|r| - 1])
  {
    var r, p := OrdinalRoute(i, headless, port), Itoa(port);
    var front := ORDINAL_PREFIX + Itoa(i) + ("." + headless + ":");
    assert r == front + p;
    assert front[0] == ORDINAL_PREFIX[0];
  }
}
