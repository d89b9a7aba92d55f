/** The host list of the NATS server certificates and what it covers. */
module NatsHosts {
  import opened GoStrings
  import opened Decimal
  import opened Certs
  import opened NatsRoutes

  function ReplicaHost(i: int, headless: string): string { "nats-" + Itoa(i) + "." + headless }

  function ReplicaHosts(headless: string, replicas: nat): seq<string> {
    seq(replicas, i => ReplicaHost(i, headless))
  }

  function ServiceHosts(headless: string, ns: string): seq<string> {
    ["nats." + ns + ".svc.cluster.local", "nats-server." + ns + ".svc.cluster.local",
     "*." + headless + "." + ns + ".svc.cluster.local",
     "nats." + ns + ".svc.cluster.local", "nats-server." + ns + ".svc.cluster.local"]
  }

  // With no replicas the printed list starts with its first comma.
  function Leading(headless: string, replicas: nat): seq<string> {
    if replicas == 0 then [""] else ReplicaHosts(headless, replicas)
  }

  function SiteServerHosts(headless: string, ns: string, replicas: nat, address: string): string {
    Join(Leading(headless, replicas) + ServiceHosts(headless, ns), ",") + if address != "" then "," + address else ""
  }

  method NatsSiteServerHosts(headless: string, ns: string, replicas: nat, address: string) returns (hosts: string)
    ensures hosts == SiteServerHosts(headless, ns, replicas, address)
  {
    hide Join, ReplicaHost;
    hosts := "";
    assert ReplicaHosts(headless, 0) == [];
    EmptyJoin();
    for i := 0 to replicas
      invariant hosts == Join(ReplicaHosts(headless, i), ",")
    {
      var host := "nats-" + Itoa(i) + "." + headless;
      assert host == ReplicaHost(i, headless) by { HostText(i, headless); }
      assert ReplicaHosts(headless, i + 1) == ReplicaHosts(headless, i) + [host];
      if i > 0 {
        JoinAppend(ReplicaHosts(headless, i), host, ",");
        hosts := hosts + ",";
      } else {
        assert ReplicaHosts(headless, 1) == [host];
        SingleJoin(host);
      }
      hosts := hosts + host;
    }
    SingleJoin("");
    hosts := AppendServices(Leading(headless, replicas), hosts, headless, ns);
    if address != "" {
      hosts := hosts + "," + address;
    }
  }

  method AppendServices(ghost names: seq<string>, start: string, headless: string, ns: string) returns (hosts: string)
    requires |names| >= 1 && start == Join(names, ",")
    ensures hosts == Join(names + ServiceHosts(headless, ns), ",")
  {
    hide Join;
    var nats, server := "nats." + ns + ".svc.cluster.local", "nats-server." + ns + ".svc.cluster.local";
    var wild := "*." + headless + "." + ns + ".svc.cluster.local";
    JoinAppend(names, nats, ",");
    hosts := start + "," + nats;
    JoinAppend(names + [nats], server, ",");
    hosts := hosts + "," + server;
    JoinAppend(names + [nats] + [server], wild, ",");
    hosts := hosts + "," + wild;
    JoinAppend(names + [nats] + [server] + [wild], nats, ",");
    hosts := hosts + "," + nats;
    JoinAppend(names + [nats] + [server] + [wild] + [nats], server, ",");
    hosts := hosts + "," + server;
    assert names + [nats] + [server] + [wild] + [nats] + [server] == names + [nats, server, wild, nats, server];
  }

  lemma HostText(i: int, headless: string)
    ensures "nats-" + Itoa(i) + "." + headless == ReplicaHost(i, headless)
  {
  }

  lemma EmptyJoin()
    ensures Join([], ",") == ""
  {
  }

  lemma SingleJoin(host: string)
    ensures Join([host], ",") == host && "" + host == host
  {
  }

  // The host part of a route: what stands between the scheme and the port.
  function RouteHost(route: string, port: int): string {
    TrimSuffix(TrimPrefix(route, "nats://"), ":" + Itoa(port))
  }

  lemma OrdinalRouteHost(i: int, headless: string, port: int)
    ensures RouteHost(OrdinalRoute(i, headless, port), port) == ReplicaHost(i, headless)
  {
    hide Itoa;
    var a, p := Itoa(i), Itoa(port);
    var route, host := OrdinalRoute(i, headless, port), ReplicaHost(i, headless);
    assert ORDINAL_PREFIX == "nats://" + "nats-";
    assert route == "nats://" + (host + (":" + p));
    assert route[7..] == host + (":" + p);
    assert route[..7] == "nats://";
    assert (host + (":" + p))[|host|..] == ":" + p;
    assert (host + (":" + p))[..|host|] == host;
  }

  predicate HostName(headless: string) { ',' !in headless && NoEdge(headless, WHITESPACE) }

  lemma ReplicaHostTrimmed(i: int, headless: string)
    requires HostName(headless)
    ensures ',' !in ReplicaHost(i, headless) && TrimSpace(ReplicaHost(i, headless)) == ReplicaHost(i, headless)
  {
    var host := ReplicaHost(i, headless);
    assert '.' !in WHITESPACE && 'n' !in WHITESPACE;
    hide Trim, WHITESPACE, Itoa;
    assert host[0] == 'n';
    assert host[|host| - 1] == if headless == "" then '.' else headless[|headless| - 1];
    TrimFixedPoint(host, WHITESPACE);
  }

  /* ----- the whole list of names ----- */

  lemma ServiceHostTrimmed(front: string, ns: string)
    requires front != "" && front[0] in {'n', '*'} && ',' !in front && ',' !in ns
    ensures var host := front + ns + ".svc.cluster.local"; ',' !in host && TrimSpace(host) == host
  {
    var host := front + ns + ".svc.cluster.local";
    assert 'n' !in WHITESPACE && '*' !in WHITESPACE && 'l' !in WHITESPACE;
    hide Trim, WHITESPACE;
    assert host[0] == front[0] && host[|host| - 1] == 'l';
    TrimFixedPoint(host, WHITESPACE);
  }

  lemma ServiceHostsTrimmed(headless: string, ns: string)
    requires ',' !in headless && ',' !in ns
    ensures (forall h :: h in ServiceHosts(headless, ns) ==> ',' !in h) && Sans(ServiceHosts(headless, ns)) == ServiceHosts(headless, ns)
  {
    hide TrimSpace;
    ServiceHostTrimmed("nats.", ns);
    ServiceHostTrimmed("nats-server.", ns);
    ServiceHostTrimmed("*." + headless + ".", ns);
  }

  lemma ReplicaHostsTrimmed(headless: string, replicas: nat)
    requires HostName(headless)
    ensures (forall h :: h in ReplicaHosts(headless, replicas) ==> ',' !in h)
    ensures Sans(ReplicaHosts(headless, replicas)) == ReplicaHosts(headless, replicas)
  {
    hide TrimSpace, ReplicaHost;
    forall k | 0 <= k < replicas
      ensures ',' !in ReplicaHost(k, headless) && TrimSpace(ReplicaHost(k, headless)) == ReplicaHost(k, headless)
    {
      ReplicaHostTrimmed(k, headless);
    }
  }

  lemma {:induction false} JoinTwo(a: seq<string>, b: seq<string>)
    requires |a| >= 1 && |b| >= 1
    ensures Join(a + b, ",") == Join(a, ",") + [','] + Join(b, ",")
  {
    if |a| == 1 {
      assert (a + b)[1..] == b;
    } else {
      JoinTwo(a[1..], b);
      assert (a + b)[1..] == a[1..] + b;
      assert Join(a + b, ",") == a[0] + "," + (Join(a[1..], ",") + [','] + Join(b, ","));
    }
  }

  // A certificate for the printed host list names every replica.
  lemma SansNameReplicas(headless: string, ns: string, replicas: nat, address: string, i: nat)
    requires HostName(headless) && i < replicas
    ensures ReplicaHost(i, headless) in Sans(Split(SiteServerHosts(headless, ns, replicas, address), ','))
  {
    hide Split, Join, TrimSpace, ReplicaHost, ServiceHosts;
    var hosts, fixed := ReplicaHosts(headless, replicas), ServiceHosts(headless, ns);
    var rest := Join(fixed, ",") + if address != "" then "," + address else "";
    ReplicaHostsTrimmed(headless, replicas);
    FixedNotEmpty(headless, ns);
    JoinTwo(hosts, fixed);
    assert SiteServerHosts(headless, ns, replicas, address) == Join(hosts, ",") + [','] + rest;
    SplitJoinRest(hosts, ',', rest);
    var parts := Split(SiteServerHosts(headless, ns, replicas, address), ',');
    assert parts[i] == hosts[i] && Sans(hosts)[i] == hosts[i];
    assert Sans(parts)[i] == ReplicaHost(i, headless);
  }

  // The names of a certificate for the printed list are the replicas' hosts, the services' hosts, and what the
  // address lists: no more, no fewer, in this order.
  lemma SansExactly(headless: string, ns: string, replicas: nat, address: string)
    requires HostName(headless) && ',' !in ns && replicas >= 1
    ensures Sans(Split(SiteServerHosts(headless, ns, replicas, address), ','))
         == seq(replicas, i => "nats-" + Itoa(i) + "." + headless) +
            ["nats." + ns + ".svc.cluster.local", "nats-server." + ns + ".svc.cluster.local",
             "*." + headless + "." + ns + ".svc.cluster.local",
             "nats." + ns + ".svc.cluster.local", "nats-server." + ns + ".svc.cluster.local"] +
            (if address != "" then Sans(Split(address, ',')) else [])
  {
    assert ReplicaHosts(headless, replicas) == seq(replicas, i => "nats-" + Itoa(i) + "." + headless);
    assert ServiceHosts(headless, ns) ==
      ["nats." + ns + ".svc.cluster.local", "nats-server." + ns + ".svc.cluster.local",
       "*." + headless + "." + ns + ".svc.cluster.local",
       "nats." + ns + ".svc.cluster.local", "nats-server." + ns + ".svc.cluster.local"];
    hide Split, Join, TrimSpace, ReplicaHost, ServiceHosts, Sans, ReplicaHosts, Itoa;
    var hosts, fixed := ReplicaHosts(headless, replicas), ServiceHosts(headless, ns);
    ReplicaHostsTrimmed(headless, replicas);
    ServiceHostsTrimmed(headless, ns);
    FixedNotEmpty(headless, ns);
    SansAppend(hosts, fixed);
    if address != "" {
      assert SiteServerHosts(headless, ns, replicas, address) == Join(hosts + fixed, [',']) + [','] + address;
      SplitJoinRest(hosts + fixed, ',', address);
      SansAppend(hosts + fixed, Split(address, ','));
    } else {
      SplitJoinPlain(hosts + fixed);
      assert SiteServerHosts(headless, ns, replicas, address) == Join(hosts + fixed, ",");
    }
  }

  lemma SplitJoinPlain(names: seq<string>)
    requires |names| >= 1 && forall h :: h in names ==> ',' !in h
    ensures Split(Join(names, ","), ',') == names
  {
    hide Split, Join;
    SplitJoin(names, ',', "");
    assert [','] + "" == ",";
    var parts := Split(Join(names, ","), ',');
    forall k | 0 <= k < |names|
      ensures parts[k] == names[k]
    {
      assert "" + names[k] == names[k];
    }
  }

  lemma FixedNotEmpty(headless: string, ns: string)
    ensures |ServiceHosts(headless, ns)| >= 1
  {
  }

  lemma SansAppend(a: seq<string>, b: seq<string>)
    ensures Sans(a + b) == Sans(a) + Sans(b)
  {
    hide TrimSpace;
    forall k | 0 <= k < |a + b|
      ensures Sans(a + b)[k] == (Sans(a) + Sans(b))[k]
    {
      assert (a + b)[k] == if k < |a| then a[k] else b[k - |a|];
    }
  }
}
