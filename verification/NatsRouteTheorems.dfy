/** What the route printer, parser and merge promise of each other. */
module NatsRouteTheorems {
  import opened Wrappers
  import opened GoStrings
  import opened Decimal
  import opened NatsRoutes

  /* ----- which routes are the operator's own ----- */

  // The classifier accepts exactly the texts prefix + integer + suffix.
  lemma OrdinalRouteShape(route: string, headless: string, port: int)
    ensures IsK8sOrdinalRoute(route, headless, port)
       <==> exists mid :: route == ORDINAL_PREFIX + mid + OrdinalSuffix(headless, port) && Atoi(mid).Some?
  {
    hide Atoi, Itoa;
    var suffix := OrdinalSuffix(headless, port);
    assert '.' == suffix[0];
    if IsK8sOrdinalRoute(route, headless, port) {
      var front := route[..|route| - |suffix|];
      assert front == TrimSuffix(route, suffix);
      PrefixBeforeSuffix(route, suffix);
      var mid := front[|ORDINAL_PREFIX|..];
      assert route == ORDINAL_PREFIX + mid + suffix;
    }
    if mid :| route == ORDINAL_PREFIX + mid + suffix && Atoi(mid).Some? {
      CutOut(mid, suffix);
    }
  }

  // The suffix starts with a dot, the prefix has none, so they cannot overlap.
  lemma PrefixBeforeSuffix(route: string, suffix: string)
    requires HasPrefix(route, ORDINAL_PREFIX) && HasSuffix(route, suffix) && suffix != "" && suffix[0] == '.'
    ensures |ORDINAL_PREFIX| <= |route| - |suffix|
    ensures route[..|route| - |suffix|][..|ORDINAL_PREFIX|] == ORDINAL_PREFIX
  {
    var at := |route| - |suffix|;
    assert route[at] == suffix[0];
    assert forall k :: 0 <= k < |ORDINAL_PREFIX| ==> ORDINAL_PREFIX[k] != '.';
    assert forall k :: 0 <= k < |ORDINAL_PREFIX| ==> route[k] == ORDINAL_PREFIX[k];
  }

  lemma CutOut(mid: string, suffix: string)
    ensures var route := ORDINAL_PREFIX + mid + suffix;
      HasPrefix(route, ORDINAL_PREFIX) && HasSuffix(route, suffix) &&
      TrimPrefix(TrimSuffix(route, suffix), ORDINAL_PREFIX) == mid
  {
    var route := ORDINAL_PREFIX + mid + suffix;
    assert route[..|ORDINAL_PREFIX|] == ORDINAL_PREFIX;
    assert route[..|route| - |suffix|] == ORDINAL_PREFIX + mid;
    assert route[|route| - |suffix|..] == suffix;
  }

  lemma OrdinalIsK8s(i: nat, headless: string, port: int)
    requires i <= MAX_REPLICAS
    ensures IsK8sOrdinalRoute(OrdinalRoute(i, headless, port), headless, port)
  {
    hide Atoi, Itoa, IsK8sOrdinalRoute, OrdinalSuffix;
    ItoaRoundTrip(i);
    OrdinalRouteShape(OrdinalRoute(i, headless, port), headless, port);
  }

  lemma OrdinalsDistinct(i: nat, j: nat, headless: string, port: int)
    requires OrdinalRoute(i, headless, port) == OrdinalRoute(j, headless, port)
    ensures i == j
  {
    hide Itoa;
    var suffix := OrdinalSuffix(headless, port);
    CutOut(Itoa(i), suffix);
    CutOut(Itoa(j), suffix);
    ItoaInjective(i, j);
  }

  // The set lookup in the merge never decides anything: the classifier already caught those routes.
  lemma SetLookupNeverFires(norm: string, headless: string, replicas: nat, port: int)
    requires replicas <= MAX_REPLICAS
    ensures norm in OrdinalRoutes(headless, replicas, port) ==> IsK8sOrdinalRoute(norm, headless, port)
    ensures Kept(norm, headless, replicas, port) <==> norm != "" && !IsK8sOrdinalRoute(norm, headless, port)
  {
    hide IsK8sOrdinalRoute, OrdinalRoute;
    if norm in OrdinalRoutes(headless, replicas, port) {
      var i :| 0 <= i < replicas && norm == OrdinalRoute(i, headless, port);
      OrdinalIsK8s(i, headless, port);
    }
  }

  // The text of a fresh list, as for two replicas.
  lemma FormatOfTwo(headless: string)
    ensures PrintRoutes(OrdinalRoutes(headless, 2, DEFAULT_CLUSTER_PORT)) ==
      "[\"nats://nats-0." + headless + ":6222\", \"nats://nats-1." + headless + ":6222\"]"
  {
    hide Join, OrdinalRoute, QuoteAll, Quote;
    var a, b := OrdinalRoute(0, headless, DEFAULT_CLUSTER_PORT), OrdinalRoute(1, headless, DEFAULT_CLUSTER_PORT);
    assert OrdinalRoutes(headless, 2, DEFAULT_CLUSTER_PORT) == [a, b];
    hide OrdinalRoutes;
    PrintTwo(a, b);
    FirstOrdinalText(headless);
    SecondOrdinalText(headless);
    hide PrintRoutes;
    TextOfTwo(headless);
  }

  lemma TextOfTwo(headless: string)
    ensures "[" + ("\"nats://nats-0." + headless + ":6222\"") + ", " + ("\"nats://nats-1." + headless + ":6222\"") + "]" ==
      "[\"nats://nats-0." + headless + ":6222\", \"nats://nats-1." + headless + ":6222\"]"
  {
  }

  lemma PrintTwo(a: string, b: string)
    ensures PrintRoutes([a, b]) == "[" + Quote(a) + ", " + Quote(b) + "]"
  {
    hide Quote;
    assert QuoteAll([a, b]) == [Quote(a), Quote(b)];
    var q := [Quote(a), Quote(b)];
    assert q[1..] == [Quote(b)] && Join([Quote(b)], ", ") == Quote(b);
    assert Join(q, ", ") == q[0] + ", " + Join(q[1..], ", ");
    var text := Quote(a) + ", " + Quote(b);
    assert "[" + text + "]" == "[" + Quote(a) + ", " + Quote(b) + "]";
  }

  lemma FirstOrdinalText(headless: string)
    ensures Quote(OrdinalRoute(0, headless, DEFAULT_CLUSTER_PORT)) == "\"nats://nats-0." + headless + ":6222\""
  {
    SmallNumbers();
    hide Itoa;
    assert OrdinalRoute(0, headless, DEFAULT_CLUSTER_PORT) == "nats://nats-" + "0" + ("." + headless + ":" + "6222");
  }

  lemma SecondOrdinalText(headless: string)
    ensures Quote(OrdinalRoute(1, headless, DEFAULT_CLUSTER_PORT)) == "\"nats://nats-1." + headless + ":6222\""
  {
    SmallNumbers();
    hide Itoa;
    assert OrdinalRoute(1, headless, DEFAULT_CLUSTER_PORT) == "nats://nats-" + "1" + ("." + headless + ":" + "6222");
  }

  lemma SmallNumbers()
    ensures Itoa(0) == "0" && Itoa(1) == "1" && Itoa(DEFAULT_CLUSTER_PORT) == "6222"
  {
    assert Digits(6) == "6" && Digits(62) == "62" && Digits(622) == "622" && Digits(6222) == "6222";
  }

  /* ----- the routes of others ----- */

  lemma {:induction false} OtherMembers(headless: string, replicas: nat, port: int, existing: seq<string>, o: string)
    ensures o in OtherRoutes(headless, replicas, port, existing)
       <==> Kept(o, headless, replicas, port) && exists k :: 0 <= k < |existing| && Norm(existing[k]) == o
  {
    hide Kept, Norm;
    if existing != [] {
      var front := existing[..|existing| - 1];
      OtherMembers(headless, replicas, port, front, o);
      assert forall k :: 0 <= k < |front| ==> front[k] == existing[k];
      if exists k :: 0 <= k < |front| && Norm(front[k]) == o {
        var k :| 0 <= k < |front| && Norm(front[k]) == o;
        assert Norm(existing[k]) == o;
      }
    }
  }

  ghost predicate Distinct(s: seq<string>) { forall i, j :: 0 <= i < j < |s| ==> s[i] != s[j] }

  lemma {:induction false} OtherDistinct(headless: string, replicas: nat, port: int, existing: seq<string>)
    ensures Distinct(OtherRoutes(headless, replicas, port, existing))
  {
    hide Kept, Norm;
    if existing != [] {
      OtherDistinct(headless, replicas, port, existing[..|existing| - 1]);
    }
  }

  // a occurs among the normalised routes before b first does.
  ghost predicate OccursFirst(existing: seq<string>, a: string, b: string) {
    exists k :: 0 <= k < |existing| && Norm(existing[k]) == a && forall m :: 0 <= m <= k ==> Norm(existing[m]) != b
  }

  lemma OccursFirstExtends(existing: seq<string>, last: string, a: string, b: string)
    requires OccursFirst(existing, a, b)
    ensures OccursFirst(existing + [last], a, b)
  {
    hide Norm;
    var k :| 0 <= k < |existing| && Norm(existing[k]) == a && forall m :: 0 <= m <= k ==> Norm(existing[m]) != b;
    assert Norm((existing + [last])[k]) == a;
  }

  lemma {:induction false} OtherOrder(headless: string, replicas: nat, port: int, existing: seq<string>, i: nat, j: nat)
    requires i < j < |OtherRoutes(headless, replicas, port, existing)|
    ensures var others := OtherRoutes(headless, replicas, port, existing); OccursFirst(existing, others[i], others[j])
  {
    hide Kept, Norm;
    var front, last := existing[..|existing| - 1], existing[|existing| - 1];
    var acc := OtherRoutes(headless, replicas, port, front);
    var others := OtherRoutes(headless, replicas, port, existing);
    assert existing == front + [last];
    if j < |acc| {
      OtherOrder(headless, replicas, port, front, i, j);
      OccursFirstExtends(front, last, others[i], others[j]);
    } else {
      OtherMembers(headless, replicas, port, front, others[i]);
      OtherMembers(headless, replicas, port, front, others[j]);
      assert others[i] in acc;
      var k :| 0 <= k < |front| && Norm(front[k]) == others[i];
      assert OccursFirst(front, others[i], others[j]);
      OccursFirstExtends(front, last, others[i], others[j]);
    }
  }

  // The merged list: ordinals 0..replicas-1 in order, then each kept route once, by first occurrence.
  lemma MergeShape(headless: string, replicas: nat, port: int, conf: string)
    requires replicas <= MAX_REPLICAS && ParsedRoutes(conf).Some?
    ensures var existing := ParsedRoutes(conf).value;
      var merged := MergedRoutes(headless, replicas, port, conf);
      && |merged| >= replicas
      && (forall i :: 0 <= i < replicas ==> merged[i] == OrdinalRoute(i, headless, port))
      && (forall r :: r in merged[replicas..] <==>
            r != "" && !IsK8sOrdinalRoute(r, headless, port)
            && exists k :: 0 <= k < |existing| && Norm(existing[k]) == r)
      && Distinct(merged)
      && (forall i, j :: replicas <= i < j < |merged| ==> OccursFirst(existing, merged[i], merged[j]))
  {
    hide IsK8sOrdinalRoute, OrdinalRoute, Norm, Kept, OtherRoutes, ParsedRoutes, OccursFirst;
    var existing := ParsedRoutes(conf).value;
    var ordinals, others := OrdinalRoutes(headless, replicas, port), OtherRoutes(headless, replicas, port, existing);
    var merged := MergedRoutes(headless, replicas, port, conf);
    assert merged[replicas..] == others;
    forall r
      ensures r in others <==> (r != "" && !IsK8sOrdinalRoute(r, headless, port)
                                && exists k :: 0 <= k < |existing| && Norm(existing[k]) == r)
    {
      OtherMembers(headless, replicas, port, existing, r);
      SetLookupNeverFires(r, headless, replicas, port);
    }
    forall i, j | 0 <= i < j < |merged|
      ensures merged[i] != merged[j]
      ensures replicas <= i ==> OccursFirst(existing, merged[i], merged[j])
    {
      if j < replicas {
        if merged[i] == merged[j] { OrdinalsDistinct(i, j, headless, port); }
      } else if i < replicas {
        OrdinalIsK8s(i, headless, port);
        assert merged[j] in others;
      } else {
        OtherDistinct(headless, replicas, port, existing);
        OtherOrder(headless, replicas, port, existing, i - replicas, j - replicas);
        assert merged[i] == others[i - replicas] && merged[j] == others[j - replicas];
      }
    }
  }

  /* ----- printing then parsing ----- */

  // A route that survives quoting, joining and parsing.
  predicate Clean(r: string) {
    r != "" && ',' !in r && ']' !in r && NoEdge(r, WHITESPACE) && NoEdge(r, {'"'})
  }

  predicate AllClean(routes: seq<string>) { forall i :: 0 <= i < |routes| ==> Clean(routes[i]) }

  lemma TrimLengthFixed(s: string, cut: set<char>)
    requires |Trim(s, cut)| == |s|
    ensures Trim(s, cut) == s
  {
  }

  lemma NormFixedPoint(r: string)
    requires ',' !in r
    ensures Norm(r) == r <==> NoEdge(r, WHITESPACE) && NoEdge(r, {'"'})
  {
    hide WHITESPACE, TrimLeft, NoEdge;
    var t := Trim(r, {'"'});
    if ',' in t { TrimChars(r, {'"'}, ','); }
    assert TrimRight(t, {','}) == t;
    TrimFixedPoint(r, {'"'});
    TrimFixedPoint(t, WHITESPACE);
    if Norm(r) == r {
      TrimLengthFixed(r, {'"'});
    }
  }

  lemma NormChars(r: string, c: char)
    requires c !in r
    ensures c !in Norm(r)
  {
    hide TrimLeft, WHITESPACE;
    var t := Trim(r, {'"'});
    var u := TrimRight(t, {','});
    if c in Norm(r) {
      TrimChars(u, WHITESPACE, c);
      TrimRightMeaning(t, {','});
      TrimChars(r, {'"'}, c);
    }
  }

  lemma {:induction false} SegmentsChars(parts: seq<string>, c: char)
    requires forall k :: 0 <= k < |parts| ==> c !in parts[k]
    ensures forall k :: 0 <= k < |Segments(parts)| ==> c !in Segments(parts)[k] && Segments(parts)[k] != ""
  {
    hide Norm, Trim, WHITESPACE;
    if parts != [] {
      var last := parts[|parts| - 1];
      SegmentsChars(parts[..|parts| - 1], c);
      if c in TrimSpace(last) { TrimChars(last, WHITESPACE, c); }
      NormChars(TrimSpace(last), c);
    }
  }

  // Whatever the text, a parsed route is non-empty and free of the two characters that end it.
  lemma ParsedFree(conf: string)
    requires ParsedRoutes(conf).Some?
    ensures forall i :: 0 <= i < |ParsedRoutes(conf).value| ==>
      var r := ParsedRoutes(conf).value[i]; r != "" && ',' !in r && ']' !in r
  {
    hide Segments, Split;
    var text := RoutesText(conf).value;
    RoutesTextFree(conf);
    if text != "" {
      SplitChars(text, ',', ',');
      SplitChars(text, ',', ']');
      SegmentsChars(Split(text, ','), ',');
      SegmentsChars(Split(text, ','), ']');
    }
  }

  lemma NotBeforeIndex(s: string, c: char)
    ensures forall k :: 0 <= k < Index(s, [c]) ==> s[k] != c
  {
    forall k | 0 <= k < Index(s, [c])
      ensures s[k] != c
    {
      assert s[k..k + 1] == [s[k]];
      IndexIsFirst(s, [c], k);
    }
  }

  lemma RoutesTextFree(conf: string)
    requires RoutesText(conf).Some?
    ensures ']' !in RoutesText(conf).value
  {
    hide Trim, IndexFrom;
    var rest := conf[Index(conf, ROUTES_KEY) + |ROUTES_KEY|..];
    var start := Index(rest, "[");
    var end := Index(rest[start..], "]");
    assert rest[start..start + 1][0] == '[';
    assert rest[start..][end..end + 1][0] == ']';
    var inner := rest[start + 1..start + end];
    NotBeforeIndex(rest[start..], ']');
    assert forall k :: 0 <= k < |inner| ==> inner[k] == rest[start..][k + 1];
    if ']' in TrimSpace(inner) { TrimChars(inner, WHITESPACE, ']'); }
  }

  function NormAll(routes: seq<string>): seq<string> {
    if routes == [] then []
    else
      var last := Norm(routes[|routes| - 1]);
      NormAll(routes[..|routes| - 1]) + if last == "" then [] else [last]
  }

  // Every route is its own cleaned form.
  predicate AllNormal(routes: seq<string>) {
    forall i :: 0 <= i < |routes| ==> routes[i] != "" && Norm(routes[i]) == routes[i]
  }

  lemma NormAllSnoc(front: seq<string>, last: string)
    ensures NormAll(front + [last]) == NormAll(front) + if Norm(last) == "" then [] else [Norm(last)]
  {
    hide Norm;
    assert (front + [last])[..|front|] == front;
  }

  lemma AllNormalSnoc(front: seq<string>, last: string)
    ensures AllNormal(front + [last]) <==> AllNormal(front) && last != "" && Norm(last) == last
  {
    hide Norm;
    var routes := front + [last];
    assert routes[|front|] == last;
    assert forall i :: 0 <= i < |front| ==> routes[i] == front[i];
  }

  lemma NormAllNothing()
    ensures NormAll([]) == [] && AllNormal([])
  {
  }

  lemma {:induction false} NormAllFixedPoint(routes: seq<string>)
    ensures |NormAll(routes)| <= |routes|
    ensures NormAll(routes) == routes <==> AllNormal(routes)
  {
    hide Norm, NormAll, AllNormal;
    if routes == [] {
      NormAllNothing();
    } else {
      var front, last := routes[..|routes| - 1], routes[|routes| - 1];
      NormAllFixedPoint(front);
      assert routes == front + [last];
      NormAllSnoc(front, last);
      AllNormalSnoc(front, last);
      if Norm(last) != "" {
        SnocEqual(NormAll(front), Norm(last), front, last);
      }
    }
  }

  lemma SnocEqual(a: seq<string>, x: string, b: seq<string>, y: string)
    ensures a + [x] == b + [y] <==> a == b && x == y
  {
    if a + [x] == b + [y] {
      assert (a + [x])[..|a|] == a && (b + [y])[..|b|] == b;
      assert (a + [x])[|a|] == x && (b + [y])[|b|] == y;
    }
  }

  lemma QuotedSegment(r: string)
    ensures Norm(TrimSpace(Quote(r))) == Norm(TrimSpace(" " + Quote(r))) == Norm(r)
  {
    hide TrimLeft, TrimRight, TrimSpace, Trim, WHITESPACE;
    QuoteEdges(Quote(r));
    TrimWrapped('"', r);
  }

  lemma QuoteEdges(q: string)
    requires |q| >= 2 && q[0] == q[|q| - 1] == '"'
    ensures TrimSpace(q) == q && TrimSpace(" " + q) == q
  {
    assert '"' !in WHITESPACE && ' ' in WHITESPACE;
    hide WHITESPACE;
    LeadingTrimmed(' ', q, WHITESPACE);
  }

  lemma LeadingTrimmed(c: char, q: string, cut: set<char>)
    requires c in cut && q != "" && q[0] !in cut && q[|q| - 1] !in cut
    ensures Trim(q, cut) == q && Trim([c] + q, cut) == q
  {
    assert ([c] + q)[1..] == q;
    assert TrimLeft([c] + q, cut) == TrimLeft(q, cut) == q;
    assert TrimRight(q, cut) == q;
  }

  lemma {:induction false} SegmentsOfQuoted(parts: seq<string>, routes: seq<string>)
    requires |parts| == |routes|
    requires forall i :: 0 <= i < |routes| ==> Norm(TrimSpace(parts[i])) == Norm(routes[i])
    ensures Segments(parts) == NormAll(routes)
  {
    hide Norm, Trim;
    if routes != [] {
      SegmentsOfQuoted(parts[..|parts| - 1], routes[..|routes| - 1]);
    }
  }

  lemma {:induction false} QuotedJoinEdges(routes: seq<string>)
    requires routes != []
    ensures var text := Join(QuoteAll(routes), ", "); |text| >= 2 && text[0] == text[|text| - 1] == '"'
  {
    if |routes| > 1 {
      QuotedJoinEdges(routes[1..]);
      assert QuoteAll(routes)[1..] == QuoteAll(routes[1..]);
    }
  }

  // The printed list is read back from any text whose first routes key precedes it.
  lemma PrintedText(before: string, routes: seq<string>, after: string)
    requires forall i :: 0 <= i < |routes| ==> ']' !in routes[i]
    requires Index(before + ROUTES_KEY + " " + PrintRoutes(routes) + after, ROUTES_KEY) == |before|
    ensures RoutesText(before + ROUTES_KEY + " " + PrintRoutes(routes) + after) == Some(Join(QuoteAll(routes), ", "))
  {
    hide IndexFrom, Join, QuoteAll, Trim;
    var text := Join(QuoteAll(routes), ", ");
    var conf := before + ROUTES_KEY + " " + PrintRoutes(routes) + after;
    var rest := conf[|before| + |ROUTES_KEY|..];
    assert rest == " [" + text + "]" + after;
    assert ']' !in text by { QuotedJoinFree(routes, ']'); }
    BracketsFound(text, after);
    assert rest[2..2 + |text|] == text;
    if routes != [] {
      QuotedJoinEdges(routes);
      QuoteEdges(text);
    } else {
      assert text == "" by { EmptyJoin(); }
    }
  }

  lemma EmptyJoin()
    ensures Join(QuoteAll([]), ", ") == ""
  {
  }

  lemma QuotedJoinFree(routes: seq<string>, c: char)
    requires c != '"' && c != ',' && c != ' ' && forall i :: 0 <= i < |routes| ==> c !in routes[i]
    ensures c !in Join(QuoteAll(routes), ", ")
  {
    JoinChars(QuoteAll(routes), ", ", c);
  }

  lemma OccursAt(a: string, c: char, b: string)
    ensures Occurs(a + [c] + b, [c], |a|)
  {
    assert (a + [c] + b)[|a|..|a| + 1] == [c];
  }

  lemma BracketsFound(text: string, after: string)
    requires ']' !in text
    ensures var rest := " [" + text + "]" + after;
      Index(rest, "[") == 1 && Index(rest[1..], "]") == 1 + |text|
  {
    hide IndexFrom;
    var rest := " [" + text + "]" + after;
    var tail := rest[1..];
    assert tail == "[" + text + "]" + after;
    assert rest[0..1][0] == ' ';
    OccursAt(" ", '[', text + "]" + after);
    assert rest == " " + ['['] + (text + "]" + after);
    assert !Occurs(rest, "[", 0);
    var at := 1 + |text|;
    OccursAt("[" + text, ']', after);
    forall j | 0 <= j < at
      ensures !Occurs(tail, "]", j)
    {
      if j > 0 { assert tail[j] == text[j - 1]; }
      assert tail[j..j + 1][0] == tail[j] != ']';
    }
    IndexFound(rest, "[", 1);
    IndexFound(tail, "]", at);
  }

  lemma PrintedParses(before: string, routes: seq<string>, after: string)
    requires forall i :: 0 <= i < |routes| ==> ',' !in routes[i] && ']' !in routes[i]
    requires Index(before + ROUTES_KEY + " " + PrintRoutes(routes) + after, ROUTES_KEY) == |before|
    ensures ParsedRoutes(before + ROUTES_KEY + " " + PrintRoutes(routes) + after)
         == if routes == [] then Some([]) else if NormAll(routes) == [] then None else Some(NormAll(routes))
  {
    hide RoutesText, Segments, PrintRoutes, NormAll, Split, Join, Norm, Trim;
    PrintedText(before, routes, after);
    if routes == [] {
      EmptyJoin();
    } else {
      QuotedJoinEdges(routes);
      PrintedSegments(routes);
    }
  }

  lemma PrintedSegments(routes: seq<string>)
    requires routes != []
    requires forall i :: 0 <= i < |routes| ==> ',' !in routes[i]
    ensures Segments(Split(Join(QuoteAll(routes), ", "), ',')) == NormAll(routes)
  {
    hide Segments, NormAll, Split, Join, Norm, Trim, TrimSpace, QuoteAll;
    var parts := Split(Join(QuoteAll(routes), ", "), ',');
    PrintedParts(routes);
    forall i | 0 <= i < |routes|
      ensures Norm(TrimSpace(parts[i])) == Norm(routes[i])
    {
      QuotedSegment(routes[i]);
    }
    SegmentsOfQuoted(parts, routes);
  }

  // Splitting the printed list: the quoted routes, all but the first after a blank.
  lemma PrintedParts(routes: seq<string>)
    requires routes != [] && forall i :: 0 <= i < |routes| ==> ',' !in routes[i]
    ensures var parts := Split(Join(QuoteAll(routes), ", "), ',');
      && |parts| == |routes|
      && forall i :: 0 <= i < |routes| ==> parts[i] == if i == 0 then Quote(routes[i]) else " " + Quote(routes[i])
  {
    hide Split, Join;
    var quoted := QuoteAll(routes);
    assert ", " == [','] + " ";
    forall q | q in quoted ensures ',' !in q {
      var i :| 0 <= i < |quoted| && quoted[i] == q;
      assert q == Quote(routes[i]);
    }
    SplitJoin(quoted, ',', " ");
  }

  // Printing then parsing is the identity exactly on lists of clean routes.
  lemma PrintParseRoundTrip(before: string, routes: seq<string>, after: string)
    requires Index(before + ROUTES_KEY + " " + PrintRoutes(routes) + after, ROUTES_KEY) == |before|
    ensures ParsedRoutes(before + ROUTES_KEY + " " + PrintRoutes(routes) + after) == Some(routes) <==> AllClean(routes)
  {
    hide ParsedRoutes, PrintRoutes, NormAll, Norm, NoEdge;
    var conf := before + ROUTES_KEY + " " + PrintRoutes(routes) + after;
    if AllClean(routes) || ParsedRoutes(conf) == Some(routes) {
      if ParsedRoutes(conf) == Some(routes) { ParsedFree(conf); }
      PrintedParses(before, routes, after);
      NormAllFixedPoint(routes);
      forall i | 0 <= i < |routes|
        ensures Norm(routes[i]) == routes[i] <==> NoEdge(routes[i], WHITESPACE) && NoEdge(routes[i], {'"'})
      {
        NormFixedPoint(routes[i]);
      }
    }
  }
}
