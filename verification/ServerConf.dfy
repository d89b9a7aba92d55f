/** The NATS hub's server.conf: the template with its placeholders replaced in one pass, so that a
    substituted value is never scanned for placeholders again. Lines before the routes line come
    first, because the parser looks for the first routes key of the whole file. */
module ServerConf {
  import opened Wrappers
  import opened GoStrings
  import opened Decimal
  import opened NatsRoutes
  import opened NatsRouteTheorems

  datatype ServerConfParams = ServerConfParams(
    serverPort: int,
    httpPort: int,
    operatorJWT: string,
    systemAccount: string,
    jetStreamDomain: string,
    jetStreamKey: string,
    jetStreamPrev: string,
    clusterRoutes: string,
    sslDir: string,
    certName: string,
    mqttCertName: string,
    leafPort: int,
    leafAdvertise: string,
    clusterPort: int,
    mqttPort: int,
    jwtDir: string,
    controllerName: string,
    maxMemoryStore: string,
    maxFileStore: string
  )

  function EscapeConfString(s: string): string { ReplaceAll(s, '"', "\\\"") }

  function Unlines(lines: seq<string>): string {
    if lines == [] then "" else lines[0] + ['\n'] + Unlines(lines[1..])
  }

  function TopLines(p: ServerConfParams): seq<string> {
    [ "port: " + Itoa(p.serverPort),
      "server_name: $SELFNAME",
      "pid_file: /home/runner/run/nats.pid",
      "http_port: " + Itoa(p.httpPort),
      "",
      "# Operator",
      "operator = " + p.operatorJWT,
      "",
      "# System account",
      "system_account = " + p.systemAccount,
      "" ]
  }

  function JetStreamLines(p: ServerConfParams): seq<string> {
    [ "jetstream: {",
      "  store_dir: /home/runner/data",
      "  domain: " + p.jetStreamDomain,
      "  max_memory_store: " + p.maxMemoryStore,
      "  max_file_store: " + p.maxFileStore,
      "  cipher: chachapoly",
      KeyLine(p.jetStreamKey),
      "  prev_encryption_key: " + Quote(EscapeConfString(p.jetStreamPrev)),
      "}",
      "" ]
  }

  function KeyLine(key: string): string { "  key: " + Quote(EscapeConfString(key)) }

  function ClusterLines(p: ServerConfParams): seq<string> {
    [ "cluster: {",
      "  name: " + p.controllerName,
      "  port: " + Itoa(p.clusterPort),
      "  no_advertise: true" ]
  }

  function HeaderLines(p: ServerConfParams): seq<string> {
    TopLines(p) + JetStreamLines(p) + ClusterLines(p)
  }

  function TlsLines(p: ServerConfParams, certName: string): seq<string> {
    [ "    ca_file: \"" + p.sslDir + "/" + certName + "/ca.crt\"",
      "    cert_file: \"" + p.sslDir + "/" + certName + "/tls.crt\"",
      "    key_file: \"" + p.sslDir + "/" + certName + "/tls.key\"" ]
  }

  function FooterLines(p: ServerConfParams): seq<string> {
    [ "  tls: {" ] + TlsLines(p, p.certName) +
    [ "    handshake_first: true", "    verify: true", "    timeout: \"3s\"", "  }", "}", "",
      "leafnodes: {", "  port: " + Itoa(p.leafPort), "  advertise: " + p.leafAdvertise, "  tls: {" ] +
    TlsLines(p, p.certName) +
    [ "    verify: true", "\thandshake_first: true", "    timeout: \"3s\"", "  }", "}", "",
      "mqtt: {", "  port: " + Itoa(p.mqttPort), "  tls: {" ] +
    TlsLines(p, p.mqttCertName) +
    [ "    handshake_first: true", "    timeout: \"3s\"", "  }", "}", "",
      "resolver: {", "  type: full", "  dir: \"" + p.jwtDir + "\"", "  allow_delete: false",
      "  interval: \"2m\"", "}" ]
  }

  function Before(p: ServerConfParams): string { Unlines(HeaderLines(p)) + "  " }

  function After(p: ServerConfParams): string { ['\n'] + Unlines(FooterLines(p)) }

  function BuildServerConf(p: ServerConfParams): string {
    Before(p) + ROUTES_KEY + " " + p.clusterRoutes + After(p)
  }

  // No value substituted before the routes line contains a routes key.
  ghost predicate NoEarlyKey(p: ServerConfParams) {
    && !Contains(p.operatorJWT, ROUTES_KEY) && !Contains(p.systemAccount, ROUTES_KEY)
    && !Contains(p.jetStreamDomain, ROUTES_KEY) && !Contains(p.jetStreamKey, ROUTES_KEY)
    && !Contains(p.jetStreamPrev, ROUTES_KEY) && !Contains(p.controllerName, ROUTES_KEY)
    && !Contains(p.maxMemoryStore, ROUTES_KEY) && !Contains(p.maxFileStore, ROUTES_KEY)
  }

  /* ----- the first routes key of the file is the template's own ----- */

  lemma SeparatedKey(a: string, c: char, b: string)
    requires c !in ROUTES_KEY && !Contains(a, ROUTES_KEY) && !Contains(b, ROUTES_KEY)
    ensures !Contains(a + [c] + b, ROUTES_KEY)
  {
    if i :| Occurs(a + [c] + b, ROUTES_KEY, i) {
      OccursBesideSeparator(a, c, b, ROUTES_KEY, i);
    }
  }

  lemma {:induction false} UnlinesKey(lines: seq<string>)
    requires forall i :: 0 <= i < |lines| ==> !Contains(lines[i], ROUTES_KEY)
    ensures !Contains(Unlines(lines), ROUTES_KEY)
  {
    hide Contains;
    if lines == [] {
      ShortHasNoKey("");
    } else {
      UnlinesKey(lines[1..]);
      SeparatedKey(lines[0], '\n', Unlines(lines[1..]));
    }
  }

  lemma ShortHasNoKey(s: string)
    requires |s| < |ROUTES_KEY|
    ensures !Contains(s, ROUTES_KEY)
  {
  }

  // A key needs a 'u' followed by a 't'.
  lemma NoUtNoKey(s: string)
    requires forall i :: 0 <= i < |s| - 1 ==> s[i] == 'u' ==> s[i + 1] != 't'
    ensures !Contains(s, ROUTES_KEY)
  {
    if i :| Occurs(s, ROUTES_KEY, i) {
      assert s[i..i + |ROUTES_KEY|][2] == s[i + 2] && s[i..i + |ROUTES_KEY|][3] == s[i + 3];
    }
  }

  lemma NumberHasNoKey(n: int)
    ensures !Contains(Itoa(n), ROUTES_KEY)
  {
    var s := Itoa(n);
    forall i | 0 <= i < |s|
      ensures s[i] != 'u'
    {
      assert s[i] in s;
    }
    NoUtNoKey(s);
  }

  // A tag, a blank, and a value.
  lemma TaggedKey(tag: string, value: string)
    requires !Contains(tag, ROUTES_KEY) && !Contains(value, ROUTES_KEY)
    ensures !Contains(tag + " " + value, ROUTES_KEY)
  {
    hide Contains;
    SeparatedKey(tag, ' ', value);
  }

  lemma QuotedKey(value: string)
    requires !Contains(value, ROUTES_KEY)
    ensures !Contains(Quote(value), ROUTES_KEY)
  {
    hide Contains;
    ShortHasNoKey("");
    SeparatedKey(value, '"', "");
    assert Quote(value) == "" + ['"'] + (value + ['"'] + "");
    SeparatedKey("", '"', value + ['"'] + "");
  }

  lemma ContainsParts(a: string, c: char, b: string, sub: string)
    requires Contains(a, sub) || Contains(b, sub)
    ensures Contains(a + [c] + b, sub)
  {
    var s := a + [c] + b;
    if i :| Occurs(a, sub, i) {
      assert s[i..i + |sub|] == a[i..i + |sub|];
      assert Occurs(s, sub, i);
    } else {
      var i :| Occurs(b, sub, i);
      var k := i + |a| + 1;
      assert s[k..k + |sub|] == b[i..i + |sub|];
      assert Occurs(s, sub, k);
    }
  }

  lemma {:induction false} EscapeAppend(a: string, b: string)
    ensures EscapeConfString(a + b) == EscapeConfString(a) + EscapeConfString(b)
  {
    if a == "" {
      assert a + b == b;
    } else {
      EscapeAppend(a[1..], b);
      assert (a + b)[1..] == a[1..] + b;
    }
  }

  lemma {:induction false} EscapePlain(a: string)
    requires '"' !in a
    ensures EscapeConfString(a) == a
  {
    if a != "" {
      assert a[0] in a;
      EscapePlain(a[1..]);
    }
  }

  lemma EscapeAtQuote(a: string, b: string)
    requires '"' !in a
    ensures EscapeConfString(a + ['"'] + b) == a + ['\\'] + ("" + ['"'] + EscapeConfString(b))
  {
    hide EscapeConfString;
    assert a + ['"'] + b == a + (['"'] + b);
    EscapeAppend(a, ['"'] + b);
    EscapePlain(a);
    EscapeQuote(b);
  }

  lemma {:induction false} EscapedKey(value: string)
    requires !Contains(value, ROUTES_KEY)
    ensures !Contains(EscapeConfString(value), ROUTES_KEY)
    decreases |value|
  {
    hide Contains, EscapeConfString;
    if '"' in value {
      FirstQuote(value);
      var k :| 0 <= k < |value| && value[k] == '"' && '"' !in value[..k];
      var a, b := value[..k], value[k + 1..];
      assert value == a + ['"'] + b;
      if Contains(a, ROUTES_KEY) || Contains(b, ROUTES_KEY) { ContainsParts(a, '"', b, ROUTES_KEY); }
      EscapedKey(b);
      ShortHasNoKey("");
      SeparatedKey("", '"', EscapeConfString(b));
      SeparatedKey(a, '\\', "" + ['"'] + EscapeConfString(b));
      EscapeAtQuote(a, b);
    } else {
      EscapePlain(value);
    }
  }

  lemma EscapeQuote(b: string)
    ensures EscapeConfString(['"'] + b) == "\\\"" + EscapeConfString(b)
  {
    assert (['"'] + b)[1..] == b;
  }

  lemma {:induction false} FirstQuote(value: string)
    requires '"' in value
    ensures exists k :: 0 <= k < |value| && value[k] == '"' && '"' !in value[..k]
  {
    if value[0] == '"' {
      assert '"' !in value[..0];
    } else {
      FirstQuote(value[1..]);
      var k :| 0 <= k < |value[1..]| && value[1..][k] == '"' && '"' !in value[1..][..k];
      assert value[..k + 1] == [value[0]] + value[1..][..k];
      assert value[k + 1] == '"';
    }
  }

  ghost predicate KeyFree(lines: seq<string>) {
    forall i :: 0 <= i < |lines| ==> !Contains(lines[i], ROUTES_KEY)
  }

  lemma TopLinesKeyFree(p: ServerConfParams)
    requires NoEarlyKey(p)
    ensures KeyFree(TopLines(p))
  {
    hide Contains, Itoa;
    ShortHasNoKey("");
    NumberHasNoKey(p.serverPort);
    NumberHasNoKey(p.httpPort);
    NoUtNoKey("port:");
    NoUtNoKey("server_name: $SELFNAME");
    NoUtNoKey("pid_file: /home/runner/run/nats.pid");
    NoUtNoKey("http_port:");
    NoUtNoKey("# Operator");
    NoUtNoKey("operator =");
    NoUtNoKey("# System account");
    NoUtNoKey("system_account =");
    TaggedKey("port:", Itoa(p.serverPort));
    TaggedKey("http_port:", Itoa(p.httpPort));
    TaggedKey("operator =", p.operatorJWT);
    TaggedKey("system_account =", p.systemAccount);
    assert "port:" + " " == "port: " && "http_port:" + " " == "http_port: ";
    assert "operator =" + " " == "operator = " && "system_account =" + " " == "system_account = ";
  }

  lemma JetStreamFrontKeyFree(p: ServerConfParams)
    requires NoEarlyKey(p)
    ensures KeyFree(JetStreamLines(p)[..6])
  {
    hide Contains, EscapeConfString, Quote;
    NoUtNoKey("jetstream: {");
    NoUtNoKey("  store_dir: /home/runner/data");
    NoUtNoKey("  domain:");
    NoUtNoKey("  max_memory_store:");
    NoUtNoKey("  max_file_store:");
    NoUtNoKey("  cipher: chachapoly");
    TaggedKey("  domain:", p.jetStreamDomain);
    TaggedKey("  max_memory_store:", p.maxMemoryStore);
    TaggedKey("  max_file_store:", p.maxFileStore);
    assert "  domain:" + " " == "  domain: " && "  max_memory_store:" + " " == "  max_memory_store: ";
    assert "  max_file_store:" + " " == "  max_file_store: ";
  }

  lemma JetStreamBackKeyFree(p: ServerConfParams)
    requires NoEarlyKey(p)
    ensures KeyFree(JetStreamLines(p)[6..])
  {
    hide Contains, EscapeConfString, Quote;
    ShortHasNoKey("");
    ShortHasNoKey("}");
    NoUtNoKey("  key:");
    NoUtNoKey("  prev_encryption_key:");
    EscapedKey(p.jetStreamKey);
    EscapedKey(p.jetStreamPrev);
    QuotedKey(EscapeConfString(p.jetStreamKey));
    QuotedKey(EscapeConfString(p.jetStreamPrev));
    TaggedKey("  key:", Quote(EscapeConfString(p.jetStreamKey)));
    TaggedKey("  prev_encryption_key:", Quote(EscapeConfString(p.jetStreamPrev)));
    assert "  key:" + " " == "  key: " && "  prev_encryption_key:" + " " == "  prev_encryption_key: ";
  }

  lemma JetStreamLinesKeyFree(p: ServerConfParams)
    requires NoEarlyKey(p)
    ensures KeyFree(JetStreamLines(p))
  {
    JetStreamFrontKeyFree(p);
    JetStreamBackKeyFree(p);
    hide Contains, NoEarlyKey;
    var lines := JetStreamLines(p);
    KeyFreeSplit(lines, 6);
  }

  lemma KeyFreeSplit(lines: seq<string>, k: nat)
    requires k <= |lines| && KeyFree(lines[..k]) && KeyFree(lines[k..])
    ensures KeyFree(lines)
  {
    hide Contains;
    assert forall i :: 0 <= i < k ==> lines[..k][i] == lines[i];
    assert forall i :: k <= i < |lines| ==> lines[k..][i - k] == lines[i];
  }

  lemma ClusterLinesKeyFree(p: ServerConfParams)
    requires NoEarlyKey(p)
    ensures KeyFree(ClusterLines(p))
  {
    hide Contains, Itoa;
    NumberHasNoKey(p.clusterPort);
    NoUtNoKey("cluster: {");
    NoUtNoKey("  name:");
    NoUtNoKey("  port:");
    NoUtNoKey("  no_advertise: true");
    TaggedKey("  name:", p.controllerName);
    TaggedKey("  port:", Itoa(p.clusterPort));
    assert "  name:" + " " == "  name: " && "  port:" + " " == "  port: ";
  }

  // The parser finds the routes line of the template, for every value of every parameter.
  lemma RoutesLineFoundFirst(p: ServerConfParams)
    requires NoEarlyKey(p)
    ensures Index(BuildServerConf(p), ROUTES_KEY) == |Before(p)|
  {
    hide Contains, TopLines, JetStreamLines, ClusterLines, IndexFrom, Unlines, FooterLines;
    TopLinesKeyFree(p);
    JetStreamLinesKeyFree(p);
    ClusterLinesKeyFree(p);
    UnlinesKey(HeaderLines(p));
    FirstKeyAt(Unlines(HeaderLines(p)) + " ", BuildServerConf(p)) by {
      ShortHasNoKey("");
      SeparatedKey(Unlines(HeaderLines(p)), ' ', "");
      assert Unlines(HeaderLines(p)) + [' '] + "" == Unlines(HeaderLines(p)) + " ";
      var rest := " " + p.clusterRoutes + After(p);
      assert BuildServerConf(p) == Unlines(HeaderLines(p)) + " " + [' '] + (ROUTES_KEY + rest);
    }
  }

  lemma FirstKeyAt(front: string, conf: string)
    requires !Contains(front, ROUTES_KEY)
    requires exists rest :: conf == front + [' '] + (ROUTES_KEY + rest)
    ensures Index(conf, ROUTES_KEY) == |front| + 1
  {
    hide IndexFrom;
    var rest :| conf == front + [' '] + (ROUTES_KEY + rest);
    var at := |front| + 1;
    assert conf[at..at + |ROUTES_KEY|] == ROUTES_KEY;
    assert Occurs(conf, ROUTES_KEY, at);
    forall i | 0 <= i < at
      ensures !Occurs(conf, ROUTES_KEY, i)
    {
      if Occurs(conf, ROUTES_KEY, i) {
        OccursBesideSeparator(front, ' ', ROUTES_KEY + rest, ROUTES_KEY, i);
      }
    }
    IndexFound(conf, ROUTES_KEY, at);
  }

  // Parsing the built file gives back the printed routes exactly when all of them are clean.
  lemma ServerConfRoundTrip(p: ServerConfParams, routes: seq<string>)
    requires NoEarlyKey(p) && p.clusterRoutes == PrintRoutes(routes)
    ensures ParsedRoutes(BuildServerConf(p)) == Some(routes) <==> AllClean(routes)
  {
    hide NoEarlyKey, Before, After, ParsedRoutes, PrintRoutes, AllClean, IndexFrom;
    RoutesLineFoundFirst(p);
    PrintParseRoundTrip(Before(p), routes, After(p));
  }

  // An IPv6 literal (section 3.2.2 of RFC 3986) ends the list for the parser, so it is not read back.
  lemma Ipv6RouteIsLost(p: ServerConfParams)
    requires NoEarlyKey(p) && p.clusterRoutes == PrintRoutes(["nats://[2001:db8::1]:6222"])
    ensures ParsedRoutes(BuildServerConf(p)) != Some(["nats://[2001:db8::1]:6222"])
  {
    hide NoEarlyKey, BuildServerConf, ParsedRoutes, PrintRoutes;
    var route := "nats://[2001:db8::1]:6222";
    assert route[19] == ']';
    assert !Clean([route][0]);
    ServerConfRoundTrip(p, [route]);
  }

  // Every line before the routes line but the first, and every line after it, stands in the file as a line of its own.
  lemma HeaderLineInServerConf(p: ServerConfParams, k: nat)
    requires 0 < k < |HeaderLines(p)|
    ensures Contains(BuildServerConf(p), "\n" + HeaderLines(p)[k] + "\n")
  {
    hide HeaderLines, Unlines, FooterLines;
    var lines := HeaderLines(p);
    UnlinesLine(lines, k);
    var needle := "\n" + lines[k] + "\n";
    assert needle == ['\n'] + lines[k] + ['\n'];
    var at :| Occurs(Unlines(lines), needle, at);
    assert BuildServerConf(p)[at..at + |needle|] == Unlines(lines)[at..at + |needle|];
    assert Occurs(BuildServerConf(p), needle, at);
  }

  lemma FooterLineInServerConf(p: ServerConfParams, k: nat)
    requires k < |FooterLines(p)|
    ensures Contains(BuildServerConf(p), "\n" + FooterLines(p)[k] + "\n")
  {
    hide HeaderLines, FooterLines, Unlines;
    var lines := [""] + FooterLines(p);
    assert lines[1..] == FooterLines(p) && lines[k + 1] == FooterLines(p)[k];
    UnlinesLine(lines, k + 1);
    UnlinesOf(lines);
    var needle := "\n" + FooterLines(p)[k] + "\n";
    assert needle == ['\n'] + lines[k + 1] + ['\n'];
    assert After(p) == Unlines(lines);
    var at :| Occurs(Unlines(lines), needle, at);
    InTail(p, needle, at);
  }

  lemma InTail(p: ServerConfParams, needle: string, at: int)
    requires Occurs(After(p), needle, at)
    ensures Contains(BuildServerConf(p), needle)
  {
    hide Before, After;
    var front := Before(p) + ROUTES_KEY + " " + p.clusterRoutes;
    assert BuildServerConf(p) == front + After(p);
    assert BuildServerConf(p)[|front| + at..|front| + at + |needle|] == After(p)[at..at + |needle|];
    assert Occurs(BuildServerConf(p), needle, |front| + at);
  }

  lemma UnlinesOf(lines: seq<string>)
    requires lines != []
    ensures Unlines(lines) == lines[0] + ['\n'] + Unlines(lines[1..])
  {
  }

  // The JetStream key stands in the file between quotes on a line of its own: its escaped text, and the key text
  // itself when there is nothing to escape.
  lemma KeyInServerConf(p: ServerConfParams)
    ensures Contains(BuildServerConf(p), "\n  key: \"" + EscapeConfString(p.jetStreamKey) + "\"\n")
    ensures '"' !in p.jetStreamKey ==> Contains(BuildServerConf(p), "\n  key: \"" + p.jetStreamKey + "\"\n")
  {
    hide TopLines, EscapeConfString, Contains, BuildServerConf;
    var lines, k := HeaderLines(p), |TopLines(p)| + 6;
    var e := EscapeConfString(p.jetStreamKey);
    assert lines[k] == "  key: " + (['"'] + e + ['"']);
    HeaderLineInServerConf(p, k);
    assert "\n" + lines[k] + "\n" == "\n  key: \"" + e + "\"\n";
    if '"' !in p.jetStreamKey { EscapePlain(p.jetStreamKey); }
  }

  lemma EscapeStart(a: string)
    ensures a != "" ==> EscapeConfString(a) != "" && EscapeConfString(a)[0] != '"'
    ensures a != "" && a[0] == '"' ==> EscapeConfString(a) == "\\\"" + EscapeConfString(a[1..])
    ensures a != "" && a[0] != '"' ==> EscapeConfString(a) == [a[0]] + EscapeConfString(a[1..])
    ensures EscapeConfString("") == ""
  {
  }

  // Reading an escaped text back: a backslash right before a quote is dropped.
  function Unescape(s: string): string {
    if s == "" then ""
    else if |s| >= 2 && s[0] == '\\' && s[1] == '"' then "\"" + Unescape(s[2..])
    else [s[0]] + Unescape(s[1..])
  }

  lemma UnescapeStep(s: string)
    ensures s != "" && !(|s| >= 2 && s[0] == '\\' && s[1] == '"') ==> Unescape(s) == [s[0]] + Unescape(s[1..])
    ensures |s| >= 2 && s[0] == '\\' && s[1] == '"' ==> Unescape(s) == "\"" + Unescape(s[2..])
    ensures Unescape("") == ""
  {
  }

  // Escaping loses nothing.
  lemma {:induction false} EscapeRoundTrip(a: string)
    ensures Unescape(EscapeConfString(a)) == a
  {
    hide EscapeConfString, Unescape;
    var x := EscapeConfString(a);
    EscapeStart(a);
    UnescapeStep(x);
    if a != "" {
      var y := EscapeConfString(a[1..]);
      EscapeRoundTrip(a[1..]);
      EscapeStart(a[1..]);
      if a[0] == '"' {
        assert x[2..] == y;
      } else {
        assert x[1..] == y;
        assert |x| >= 2 ==> x[1] == y[0];
      }
      assert a == [a[0]] + a[1..];
    }
  }

  // Files written for two different keys differ, whatever the keys hold.
  lemma KeyDecidesServerConf(p: ServerConfParams, key: string)
    requires key != p.jetStreamKey
    ensures BuildServerConf(p.(jetStreamKey := key)) != BuildServerConf(p)
  {
    hide EscapeConfString, Unlines, BuildServerConf;
    if BuildServerConf(p.(jetStreamKey := key)) == BuildServerConf(p) {
      var front, back := AroundKey(p);
      var front2, back2 := AroundKey(p.(jetStreamKey := key));
      SameMiddle(front, EscapeConfString(p.jetStreamKey), EscapeConfString(key), back);
      EscapeRoundTrip(p.jetStreamKey);
      EscapeRoundTrip(key);
    }
  }

  lemma SameMiddle(front: string, x: string, y: string, back: string)
    requires front + x + back == front + y + back
    ensures x == y
  {
    assert |x| == |y|;
    assert (front + x + back)[|front|..|front| + |x|] == x;
    assert (front + y + back)[|front|..|front| + |y|] == y;
  }

  // What stands before and after the key text, which does not depend on the key.
  function BeforeKey(p: ServerConfParams): string {
    Unlines(TopLines(p) + JetStreamLines(p)[..6]) + "  key: \""
  }

  function AfterKey(p: ServerConfParams): string {
    "\"\n" + Unlines(JetStreamLines(p)[7..] + ClusterLines(p)) + "  " + ROUTES_KEY + " " + p.clusterRoutes + After(p)
  }

  lemma AroundKey(p: ServerConfParams) returns (front: string, back: string)
    ensures front == BeforeKey(p) && back == AfterKey(p)
    ensures BuildServerConf(p) == front + EscapeConfString(p.jetStreamKey) + back
    ensures forall key :: BeforeKey(p.(jetStreamKey := key)) == front && AfterKey(p.(jetStreamKey := key)) == back
  {
    hide EscapeConfString, Unlines, TopLines, ClusterLines, FooterLines;
    front, back := BeforeKey(p), AfterKey(p);
    var a, b := TopLines(p) + JetStreamLines(p)[..6], JetStreamLines(p)[7..] + ClusterLines(p);
    var e := EscapeConfString(p.jetStreamKey);
    var line := "  key: " + (['"'] + e + ['"']);
    assert JetStreamLines(p)[6] == line;
    assert HeaderLines(p) == a + ([line] + b);
    UnlinesConcat(a, [line] + b);
    UnlinesOf([line] + b);
    assert ([line] + b)[1..] == b;
    assert Unlines(HeaderLines(p)) == Unlines(a) + (line + "\n" + Unlines(b));
    assert line + "\n" == "  key: \"" + e + "\"\n";
    SameAround(p);
  }

  lemma SameAround(p: ServerConfParams)
    ensures forall key :: BeforeKey(p.(jetStreamKey := key)) == BeforeKey(p) && AfterKey(p.(jetStreamKey := key)) == AfterKey(p)
  {
    forall key ensures BeforeKey(p.(jetStreamKey := key)) == BeforeKey(p) && AfterKey(p.(jetStreamKey := key)) == AfterKey(p) {
      var q := p.(jetStreamKey := key);
      hide Unlines, EscapeConfString, Itoa;
      assert JetStreamLines(q)[..6] == JetStreamLines(p)[..6] && JetStreamLines(q)[7..] == JetStreamLines(p)[7..];
      assert TopLines(q) == TopLines(p) && ClusterLines(q) == ClusterLines(p) && FooterLines(q) == FooterLines(p);
    }
  }

  lemma {:induction false} UnlinesConcat(a: seq<string>, b: seq<string>)
    ensures Unlines(a + b) == Unlines(a) + Unlines(b)
  {
    if a == [] {
      assert a + b == b;
    } else {
      assert (a + b)[1..] == a[1..] + b;
      UnlinesConcat(a[1..], b);
    }
  }

  lemma {:induction false} UnlinesLine(lines: seq<string>, k: nat)
    requires 0 < k < |lines|
    ensures Contains(Unlines(lines), ['\n'] + lines[k] + ['\n'])
  {
    var needle := ['\n'] + lines[k] + ['\n'];
    var all, tail := Unlines(lines), Unlines(lines[1..]);
    if k == 1 {
      var at := |lines[0]|;
      assert all == lines[0] + (needle + Unlines(lines[1..][1..]));
      assert all[at..at + |needle|] == needle;
      assert Occurs(all, needle, at);
    } else {
      UnlinesLine(lines[1..], k - 1);
      var i :| Occurs(tail, needle, i);
      var at := i + |lines[0]| + 1;
      assert all[at..at + |needle|] == tail[i..i + |needle|];
      assert Occurs(all, needle, at);
    }
  }
}
