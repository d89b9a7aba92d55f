/** The server.conf template with its placeholders, and the one-pass replacement of them: a placeholder is a name between
    two dollar signs, and what is put in its place is not scanned again. */
module ServerConfTemplate {
  import opened Wrappers
  import opened GoStrings
  import opened Decimal
  import opened NatsRoutes
  import opened ServerConf

  datatype Placeholder =
    | ServerPort | HttpPort | OperatorJwt | SystemAccount | JetStreamDomain | JetStreamKey | JetStreamPrevKey
    | ClusterRoutes | SslDir | CertName | MqttCertName | LeafPort | LeafAdvertise | ClusterPort | MqttPort | JwtDir
    | ControllerName | MaxMemoryStore | MaxFileStore

  function NameOf(h: Placeholder): string {
    match h
    case ServerPort => "NATS_SERVER_PORT"
    case HttpPort => "NATS_HTTP_PORT"
    case OperatorJwt => "OPERATOR_JWT"
    case SystemAccount => "SYSTEM_ACCOUNT"
    case JetStreamDomain => "JETSTREAM_DOMAIN"
    case JetStreamKey => "JETSTREAM_KEY"
    case JetStreamPrevKey => "JETSTREAM_PREV_KEY"
    case ClusterRoutes => "NATS_CLUSTER_ROUTES"
    case SslDir => "NATS_SSL_DIR"
    case CertName => "NATS_CERT_NAME"
    case MqttCertName => "NATS_MQTT_CERT_NAME"
    case LeafPort => "NATS_LEAF_PORT"
    case LeafAdvertise => "NATS_LEAF_ADVERTISE"
    case ClusterPort => "NATS_CLUSTER_PORT"
    case MqttPort => "NATS_MQTT_PORT"
    case JwtDir => "NATS_JWT_DIR"
    case ControllerName => "CONTROLLER_NAME"
    case MaxMemoryStore => "MAX_MEMORY_STORE"
    case MaxFileStore => "MAX_FILE_STORE"
  }

  const ALL := [ServerPort, HttpPort, OperatorJwt, SystemAccount, JetStreamDomain, JetStreamKey, JetStreamPrevKey,
                ClusterRoutes, SslDir, CertName, MqttCertName, LeafPort, LeafAdvertise, ClusterPort, MqttPort, JwtDir,
                ControllerName, MaxMemoryStore, MaxFileStore]

  function Value(h: Placeholder, p: ServerConfParams): string {
    match h
    case ServerPort => Itoa(p.serverPort)
    case HttpPort => Itoa(p.httpPort)
    case OperatorJwt => p.operatorJWT
    case SystemAccount => p.systemAccount
    case JetStreamDomain => p.jetStreamDomain
    case JetStreamKey => EscapeConfString(p.jetStreamKey)
    case JetStreamPrevKey => EscapeConfString(p.jetStreamPrev)
    case ClusterRoutes => p.clusterRoutes
    case SslDir => p.sslDir
    case CertName => p.certName
    case MqttCertName => p.mqttCertName
    case LeafPort => Itoa(p.leafPort)
    case LeafAdvertise => p.leafAdvertise
    case ClusterPort => Itoa(p.clusterPort)
    case MqttPort => Itoa(p.mqttPort)
    case JwtDir => p.jwtDir
    case ControllerName => p.controllerName
    case MaxMemoryStore => p.maxMemoryStore
    case MaxFileStore => p.maxFileStore
  }

  // The placeholder of this name among hs.
  function Find(name: string, hs: seq<Placeholder>): Option<Placeholder> {
    if hs == [] then None else if NameOf(hs[0]) == name then Some(hs[0]) else Find(name, hs[1..])
  }

  // The placeholder that s starts with, if any.
  function StartsWith(s: string): Option<Placeholder> {
    if s == "" || s[0] != '$' then None
    else
      var e := Index(s[1..], "$");
      if e < 0 then None else Find(s[1..1 + e], ALL)
  }

  // The length of a placeholder with its dollar signs.
  function Width(h: Placeholder): nat { |NameOf(h)| + 2 }

  function Expand(s: string, p: ServerConfParams): string {
    if s == "" then ""
    else
      var h := StartsWith(s);
      if h.Some? && Width(h.value) <= |s| then Value(h.value, p) + Expand(s[Width(h.value)..], p)
      else [s[0]] + Expand(s[1..], p)
  }

  // strings.Replacer: one scan from left to right.
  method Replace(template: string, p: ServerConfParams) returns (text: string)
    ensures text == Expand(template, p)
  {
    hide StartsWith, Value, NameOf;
    text := "";
    var i := 0;
    while i < |template|
      invariant 0 <= i <= |template|
      invariant text + Expand(template[i..], p) == Expand(template, p)
    {
      var rest := template[i..];
      var h := StartsWith(rest);
      if h.Some? && Width(h.value) <= |rest| {
        assert rest[Width(h.value)..] == template[i + Width(h.value)..];
        text := text + Value(h.value, p);
        i := i + Width(h.value);
      } else {
        assert rest[1..] == template[i + 1..];
        text := text + [template[i]];
        i := i + 1;
      }
    }
  }

  /* ----- the template ----- */

  // A piece of template text: literal, a bare dollar sign followed by text, or a placeholder.
  datatype Piece = Lit(text: string) | Bare(text: string) | Hole(h: Placeholder)

  function SourcePiece(q: Piece): string {
    match q
    case Lit(t) => t
    case Bare(t) => "$" + t
    case Hole(h) => "$" + NameOf(h) + "$"
  }

  function Source(ps: seq<Piece>): string {
    if ps == [] then ""
    else SourcePiece(ps[0]) + Source(ps[1..])
  }

  function FilledPiece(q: Piece, p: ServerConfParams): string {
    match q
    case Lit(t) => t
    case Bare(t) => "$" + t
    case Hole(h) => Value(h, p)
  }

  function Filled(ps: seq<Piece>, p: ServerConfParams): string {
    if ps == [] then ""
    else FilledPiece(ps[0], p) + Filled(ps[1..], p)
  }

  function Text(t: string): seq<Piece> { [Lit(t)] }

  function With(t: string, h: Placeholder): seq<Piece> { [Lit(t), Hole(h)] }

  function Around(t: string, h: Placeholder, u: string): seq<Piece> { [Lit(t), Hole(h), Lit(u)] }

  function CertLine(t: string, h: Placeholder, u: string): seq<Piece> {
    [Lit(t), Hole(SslDir), Lit("/"), Hole(h), Lit(u)]
  }

  function TopTemplate(): seq<seq<Piece>> {
    [ With("port: ", ServerPort),
      [Lit("server_name: "), Bare("SELFNAME")],
      Text("pid_file: /home/runner/run/nats.pid"),
      With("http_port: ", HttpPort),
      Text(""),
      Text("# Operator"),
      With("operator = ", OperatorJwt),
      Text(""),
      Text("# System account"),
      With("system_account = ", SystemAccount),
      Text("") ]
  }

  function JetStreamTemplate(): seq<seq<Piece>> {
    [ Text("jetstream: {"),
      Text("  store_dir: /home/runner/data"),
      With("  domain: ", JetStreamDomain),
      With("  max_memory_store: ", MaxMemoryStore),
      With("  max_file_store: ", MaxFileStore),
      Text("  cipher: chachapoly"),
      Around("  key: \"", JetStreamKey, "\""),
      Around("  prev_encryption_key: \"", JetStreamPrevKey, "\""),
      Text("}"),
      Text("") ]
  }

  function ClusterTemplate(): seq<seq<Piece>> {
    [ Text("cluster: {"),
      With("  name: ", ControllerName),
      With("  port: ", ClusterPort),
      Text("  no_advertise: true"),
      With("  routes: ", ClusterRoutes) ]
  }

  function TlsTemplate(h: Placeholder): seq<seq<Piece>> {
    [ CertLine("    ca_file: \"", h, "/ca.crt\""),
      CertLine("    cert_file: \"", h, "/tls.crt\""),
      CertLine("    key_file: \"", h, "/tls.key\"") ]
  }

  function ClusterEndTemplate(): seq<seq<Piece>> {
    [ Text("    handshake_first: true"), Text("    verify: true"), Text("    timeout: \"3s\""), Text("  }"), Text("}"), Text(""),
      Text("leafnodes: {"), With("  port: ", LeafPort), With("  advertise: ", LeafAdvertise), Text("  tls: {") ]
  }

  function LeafEndTemplate(): seq<seq<Piece>> {
    [ Text("    verify: true"), Text("\thandshake_first: true"), Text("    timeout: \"3s\""), Text("  }"), Text("}"), Text(""),
      Text("mqtt: {"), With("  port: ", MqttPort), Text("  tls: {") ]
  }

  function MqttEndTemplate(): seq<seq<Piece>> {
    [ Text("    handshake_first: true"), Text("    timeout: \"3s\""), Text("  }"), Text("}"), Text(""),
      Text("resolver: {"), Text("  type: full"), Around("  dir: \"", JwtDir, "\""), Text("  allow_delete: false"),
      Text("  interval: \"2m\""), Text("}") ]
  }

  function FooterTemplate(): seq<seq<Piece>> {
    [ Text("  tls: {") ] + TlsTemplate(CertName) + ClusterEndTemplate() + TlsTemplate(CertName) + LeafEndTemplate() +
    TlsTemplate(MqttCertName) + MqttEndTemplate()
  }

  function TemplateLines(): seq<seq<Piece>> {
    TopTemplate() + JetStreamTemplate() + ClusterTemplate() + FooterTemplate()
  }

  // Each line with its end.
  function Flat(lines: seq<seq<Piece>>): seq<Piece> {
    if lines == [] then [] else lines[0] + [Lit("\n")] + Flat(lines[1..])
  }

  function Template(): string { Source(Flat(TemplateLines())) }


  /* ----- expanding pieces ----- */

  predicate NoDollar(s: string) { forall i :: 0 <= i < |s| ==> s[i] != '$' }

  // The only bare dollar sign of the template stands before a name that no placeholder starts like.
  predicate FitPiece(q: Piece) {
    && (q.Lit? ==> NoDollar(q.text))
    && (q.Bare? ==> NoDollar(q.text) && |q.text| >= 2 && q.text[0] == 'S' && q.text[1] == 'E')
  }

  predicate Fit(ps: seq<Piece>) { forall i :: 0 <= i < |ps| ==> FitPiece(ps[i]) }

  predicate PlainName(name: string) { NoDollar(name) && |name| >= 2 && !(name[0] == 'S' && name[1] == 'E') }

  lemma NamesPlain(h: Placeholder)
    ensures PlainName(NameOf(h))
  {
    hide NameOf, PlainName;
    match h
    case ServerPort => FirstNamesPlain(h);
    case HttpPort => FirstNamesPlain(h);
    case OperatorJwt => FirstNamesPlain(h);
    case SystemAccount => FirstNamesPlain(h);
    case JetStreamDomain => SecondNamesPlain(h);
    case JetStreamKey => SecondNamesPlain(h);
    case JetStreamPrevKey => SecondNamesPlain(h);
    case ClusterRoutes => SecondNamesPlain(h);
    case SslDir => ThirdNamesPlain(h);
    case CertName => ThirdNamesPlain(h);
    case MqttCertName => ThirdNamesPlain(h);
    case LeafPort => ThirdNamesPlain(h);
    case LeafAdvertise => FourthNamesPlain(h);
    case ClusterPort => FourthNamesPlain(h);
    case MqttPort => FourthNamesPlain(h);
    case JwtDir => FourthNamesPlain(h);
    case ControllerName => LastNamesPlain(h);
    case MaxMemoryStore => LastNamesPlain(h);
    case MaxFileStore => LastNamesPlain(h);
  }

  lemma FirstNamesPlain(h: Placeholder)
    requires h.ServerPort? || h.HttpPort? || h.OperatorJwt? || h.SystemAccount?
    ensures PlainName(NameOf(h))
  {
  }

  lemma SecondNamesPlain(h: Placeholder)
    requires h.JetStreamDomain? || h.JetStreamKey? || h.JetStreamPrevKey? || h.ClusterRoutes?
    ensures PlainName(NameOf(h))
  {
  }

  lemma ThirdNamesPlain(h: Placeholder)
    requires h.SslDir? || h.CertName? || h.MqttCertName? || h.LeafPort?
    ensures PlainName(NameOf(h))
  {
  }

  lemma FourthNamesPlain(h: Placeholder)
    requires h.LeafAdvertise? || h.ClusterPort? || h.MqttPort? || h.JwtDir?
    ensures PlainName(NameOf(h))
  {
  }

  lemma LastNamesPlain(h: Placeholder)
    requires h.ControllerName? || h.MaxMemoryStore? || h.MaxFileStore?
    ensures PlainName(NameOf(h))
  {
  }

  lemma {:induction false} FindMeaning(name: string, hs: seq<Placeholder>)
    ensures Find(name, hs).Some? ==> NameOf(Find(name, hs).value) == name
  {
    hide NameOf;
    if hs != [] { FindMeaning(name, hs[1..]); }
  }

  lemma PlainStart(s: string)
    requires s != "" && s[0] != '$'
    ensures StartsWith(s) == None
  {
  }

  lemma {:induction false} ExpandLiteral(t: string, rest: string, p: ServerConfParams)
    requires NoDollar(t)
    ensures Expand(t + rest, p) == t + Expand(rest, p)
  {
    hide Expand, StartsWith;
    if t == "" {
      assert t + rest == rest;
    } else {
      ExpandLiteral(t[1..], rest, p);
      assert (t + rest)[1..] == t[1..] + rest;
      PlainStart(t + rest);
      ExpandNext(t + rest, p);
    }
  }

  lemma NextDollar(name: string, rest: string)
    requires NoDollar(name)
    ensures Index(name + "$" + rest, "$") == |name|
  {
    var s := name + "$" + rest;
    assert s[|name|..|name| + 1] == "$";
    forall j | 0 <= j < |name| ensures !Occurs(s, "$", j) {
      assert s[j..j + 1][0] == name[j];
    }
    IndexFound(s, "$", |name|);
  }

  lemma ExpandHole(h: Placeholder, rest: string, p: ServerConfParams)
    ensures Expand("$" + NameOf(h) + "$" + rest, p) == Value(h, p) + Expand(rest, p)
  {
    hide Value, NameOf, Find, IndexFrom;
    var s := "$" + NameOf(h) + "$" + rest;
    NamesPlain(h);
    NextDollar(NameOf(h), rest);
    assert s[1..] == NameOf(h) + "$" + rest;
    assert s[1..1 + |NameOf(h)|] == NameOf(h);
    FindName(h);
    assert StartsWith(s) == Some(h);
    assert s[Width(h)..] == rest;
  }

  lemma FindName(h: Placeholder)
    ensures Find(NameOf(h), ALL) == Some(h)
  {
    var i := match h
      case ServerPort => 0 case HttpPort => 1 case OperatorJwt => 2 case SystemAccount => 3 case JetStreamDomain => 4
      case JetStreamKey => 5 case JetStreamPrevKey => 6 case ClusterRoutes => 7 case SslDir => 8 case CertName => 9
      case MqttCertName => 10 case LeafPort => 11 case LeafAdvertise => 12 case ClusterPort => 13 case MqttPort => 14
      case JwtDir => 15 case ControllerName => 16 case MaxMemoryStore => 17 case MaxFileStore => 18;
    assert ALL[i] == h && forall j :: 0 <= j < i ==> ALL[j] != h;
    FindIn(ALL, i);
  }

  lemma {:induction false} FindIn(hs: seq<Placeholder>, i: nat)
    requires i < |hs| && forall j :: 0 <= j < i ==> hs[j] != hs[i]
    ensures Find(NameOf(hs[i]), hs) == Some(hs[i])
  {
    hide NameOf;
    if i > 0 {
      NamesDiffer(hs[0], hs[i]);
      assert hs[1..][i - 1] == hs[i] && forall j :: 0 <= j < i - 1 ==> hs[1..][j] == hs[j + 1];
      FindIn(hs[1..], i - 1);
    }
  }

  // Different placeholders have different names.
  lemma NamesDiffer(g: Placeholder, h: Placeholder)
    ensures NameOf(g) == NameOf(h) ==> g == h
  {
  }

  lemma {:induction false} NoSuchName(name: string, hs: seq<Placeholder>)
    requires |name| >= 2 && name[0] == 'S' && name[1] == 'E'
    ensures Find(name, hs) == None
  {
    hide NameOf;
    if hs != [] {
      NamesPlain(hs[0]);
      NoSuchName(name, hs[1..]);
    }
  }

  lemma BareIsNone(t: string, rest: string)
    requires NoDollar(t) && |t| >= 2 && t[0] == 'S' && t[1] == 'E'
    ensures StartsWith("$" + t + rest) == None
  {
    hide NameOf, Find, IndexFrom;
    var s := "$" + t + rest;
    var tail := s[1..];
    assert tail == t + rest;
    var e := Index(tail, "$");
    if e >= 0 {
      assert tail[e..e + 1][0] == '$';
      assert forall i :: 0 <= i < |t| ==> tail[i] == t[i];
      NoSuchName(tail[..e], ALL);
      assert s[1..1 + e] == tail[..e];
    }
  }

  lemma ExpandBare(t: string, rest: string, p: ServerConfParams)
    requires NoDollar(t) && |t| >= 2 && t[0] == 'S' && t[1] == 'E'
    ensures Expand("$" + t + rest, p) == "$" + t + Expand(rest, p)
  {
    hide Value, StartsWith, Expand, NoDollar;
    var s := "$" + t + rest;
    BareIsNone(t, rest);
    assert s[1..] == t + rest && s[0] == '$';
    ExpandLiteral(t, rest, p);
    ExpandNext(s, p);
    var e := Expand(rest, p);
    assert ['$'] + (t + e) == "$" + t + e;
  }

  lemma ExpandNext(s: string, p: ServerConfParams)
    requires s != "" && StartsWith(s) == None
    ensures Expand(s, p) == [s[0]] + Expand(s[1..], p)
  {
    hide StartsWith, Value;
  }

  lemma {:induction false} ExpandPieces(ps: seq<Piece>, p: ServerConfParams)
    requires Fit(ps)
    ensures Expand(Source(ps), p) == Filled(ps, p)
  {
    hide Expand, Value, NameOf;
    if ps == [] {
      ExpandNothing(p);
    } else {
      var rest := ps[1..];
      assert FitPiece(ps[0]);
      ExpandPieces(rest, p);
      match ps[0]
      case Lit(t) => ExpandLiteral(t, Source(rest), p);
      case Bare(t) => ExpandBare(t, Source(rest), p);
      case Hole(h) => ExpandHole(h, Source(rest), p);
    }
  }

  lemma ExpandNothing(p: ServerConfParams)
    ensures Expand("", p) == ""
  {
  }

  /* ----- the filled template is the file ----- */

  lemma {:induction false} FilledAppend(a: seq<Piece>, b: seq<Piece>, p: ServerConfParams)
    ensures Filled(a + b, p) == Filled(a, p) + Filled(b, p)
  {
    hide Value;
    if a == [] {
      assert a + b == b;
    } else {
      assert (a + b)[1..] == a[1..] + b;
      FilledAppend(a[1..], b, p);
    }
  }

  lemma FilledOne(q: Piece, rest: seq<Piece>, p: ServerConfParams)
    ensures Filled([q] + rest, p) == FilledPiece(q, p) + Filled(rest, p)
  {
    hide Value;
    assert ([q] + rest)[1..] == rest;
  }

  lemma FilledText(t: string, p: ServerConfParams)
    ensures Filled(Text(t), p) == t
  {
    hide Filled;
    FilledOne(Lit(t), [], p);
    FilledNothing(p);
    assert [Lit(t)] + [] == [Lit(t)];
  }

  lemma FilledNothing(p: ServerConfParams)
    ensures Filled([], p) == ""
  {
  }

  lemma FilledWith(t: string, h: Placeholder, p: ServerConfParams)
    ensures Filled(With(t, h), p) == t + Value(h, p)
  {
    hide Filled, Value;
    assert With(t, h) == [Lit(t)] + ([Hole(h)] + []);
    FilledOne(Lit(t), [Hole(h)] + [], p);
    FilledOne(Hole(h), [], p);
    FilledNothing(p);
  }

  lemma FilledAround(t: string, h: Placeholder, u: string, p: ServerConfParams)
    ensures Filled(Around(t, h, u), p) == t + Value(h, p) + u
  {
    hide Filled, Value;
    assert Around(t, h, u) == With(t, h) + Text(u);
    FilledAppend(With(t, h), Text(u), p);
    FilledWith(t, h, p);
    FilledText(u, p);
  }

  lemma FilledCert(t: string, h: Placeholder, u: string, p: ServerConfParams)
    ensures Filled(CertLine(t, h, u), p) == t + p.sslDir + "/" + Value(h, p) + u
  {
    hide Filled;
    assert CertLine(t, h, u) == Around(t, SslDir, "/") + ([Hole(h)] + Text(u));
    FilledAppend(Around(t, SslDir, "/"), [Hole(h)] + Text(u), p);
    FilledAround(t, SslDir, "/", p);
    FilledOne(Hole(h), Text(u), p);
    FilledText(u, p);
  }

  lemma FilledSelf(p: ServerConfParams)
    ensures Filled([Lit("server_name: "), Bare("SELFNAME")], p) == "server_name: $SELFNAME"
  {
    hide Filled;
    assert [Lit("server_name: "), Bare("SELFNAME")] == [Lit("server_name: ")] + ([Bare("SELFNAME")] + []);
    FilledOne(Lit("server_name: "), [Bare("SELFNAME")] + [], p);
    FilledOne(Bare("SELFNAME"), [], p);
    FilledNothing(p);
  }

  // Line by line: the filled template lines are these texts.
  predicate Fills(ts: seq<seq<Piece>>, lines: seq<string>, p: ServerConfParams) {
    |ts| == |lines| && forall i :: 0 <= i < |ts| ==> Filled(ts[i], p) == lines[i]
  }

  lemma FillsAppend(ts: seq<seq<Piece>>, us: seq<seq<Piece>>, ls: seq<string>, ms: seq<string>, p: ServerConfParams)
    requires Fills(ts, ls, p) && Fills(us, ms, p)
    ensures Fills(ts + us, ls + ms, p)
  {
    hide Filled;
  }

  lemma TopFills(p: ServerConfParams)
    ensures Fills(TopTemplate(), TopLines(p), p)
  {
    hide Filled, Itoa, Text, With;
    FilledWith("port: ", ServerPort, p);
    FilledSelf(p);
    FilledText("pid_file: /home/runner/run/nats.pid", p);
    FilledWith("http_port: ", HttpPort, p);
    FilledText("", p);
    FilledText("# Operator", p);
    FilledWith("operator = ", OperatorJwt, p);
    FilledText("# System account", p);
    FilledWith("system_account = ", SystemAccount, p);
  }

  lemma JetStreamFills(p: ServerConfParams)
    ensures Fills(JetStreamTemplate(), JetStreamLines(p), p)
  {
    hide Filled, Text, With, Around, EscapeConfString;
    FilledText("jetstream: {", p);
    FilledText("  store_dir: /home/runner/data", p);
    FilledWith("  domain: ", JetStreamDomain, p);
    FilledWith("  max_memory_store: ", MaxMemoryStore, p);
    FilledWith("  max_file_store: ", MaxFileStore, p);
    FilledText("  cipher: chachapoly", p);
    FilledAround("  key: \"", JetStreamKey, "\"", p);
    FilledAround("  prev_encryption_key: \"", JetStreamPrevKey, "\"", p);
    FilledText("}", p);
    FilledText("", p);
    QuotedText("  key: ", EscapeConfString(p.jetStreamKey));
    QuotedText("  prev_encryption_key: ", EscapeConfString(p.jetStreamPrev));
  }

  lemma QuotedText(tag: string, value: string)
    ensures tag + Quote(value) == tag + "\"" + value + "\""
  {
  }

  lemma ClusterFills(p: ServerConfParams)
    ensures Fills(ClusterTemplate(), ClusterLines(p) + ["  routes: " + p.clusterRoutes], p)
  {
    hide Filled, Text, With, Itoa;
    FilledText("cluster: {", p);
    FilledWith("  name: ", ControllerName, p);
    FilledWith("  port: ", ClusterPort, p);
    FilledText("  no_advertise: true", p);
    FilledWith("  routes: ", ClusterRoutes, p);
  }

  lemma TlsFills(h: Placeholder, p: ServerConfParams)
    ensures Fills(TlsTemplate(h), TlsLines(p, Value(h, p)), p)
  {
    hide Filled, CertLine, Value;
    FilledCert("    ca_file: \"", h, "/ca.crt\"", p);
    FilledCert("    cert_file: \"", h, "/tls.crt\"", p);
    FilledCert("    key_file: \"", h, "/tls.key\"", p);
  }

  lemma ClusterEndFills(p: ServerConfParams)
    ensures Fills(ClusterEndTemplate(),
      [ "    handshake_first: true", "    verify: true", "    timeout: \"3s\"", "  }", "}", "",
        "leafnodes: {", "  port: " + Itoa(p.leafPort), "  advertise: " + p.leafAdvertise, "  tls: {" ], p)
  {
    hide Filled, Text, With, Itoa;
    FilledText("    handshake_first: true", p);
    FilledText("    verify: true", p);
    FilledText("    timeout: \"3s\"", p);
    FilledText("  }", p);
    FilledText("}", p);
    FilledText("", p);
    FilledText("leafnodes: {", p);
    FilledWith("  port: ", LeafPort, p);
    FilledWith("  advertise: ", LeafAdvertise, p);
    FilledText("  tls: {", p);
  }

  lemma LeafEndFills(p: ServerConfParams)
    ensures Fills(LeafEndTemplate(),
      [ "    verify: true", "\thandshake_first: true", "    timeout: \"3s\"", "  }", "}", "",
        "mqtt: {", "  port: " + Itoa(p.mqttPort), "  tls: {" ], p)
  {
    hide Filled, Text, With, Itoa;
    FilledText("    verify: true", p);
    FilledText("\thandshake_first: true", p);
    FilledText("    timeout: \"3s\"", p);
    FilledText("  }", p);
    FilledText("}", p);
    FilledText("", p);
    FilledText("mqtt: {", p);
    FilledWith("  port: ", MqttPort, p);
    FilledText("  tls: {", p);
  }

  lemma MqttEndFills(p: ServerConfParams)
    ensures Fills(MqttEndTemplate(),
      [ "    handshake_first: true", "    timeout: \"3s\"", "  }", "}", "",
        "resolver: {", "  type: full", "  dir: \"" + p.jwtDir + "\"", "  allow_delete: false",
        "  interval: \"2m\"", "}" ], p)
  {
    hide Filled, Text, Around;
    FilledText("    handshake_first: true", p);
    FilledText("    timeout: \"3s\"", p);
    FilledText("  }", p);
    FilledText("}", p);
    FilledText("", p);
    FilledText("resolver: {", p);
    FilledText("  type: full", p);
    FilledAround("  dir: \"", JwtDir, "\"", p);
    FilledText("  allow_delete: false", p);
    FilledText("  interval: \"2m\"", p);
  }

  lemma FooterFills(p: ServerConfParams)
    ensures Fills(FooterTemplate(), FooterLines(p), p)
  {
    hide Filled, Fills, ClusterEndTemplate, LeafEndTemplate, MqttEndTemplate, TlsTemplate, TlsLines, Itoa;
    var a := ["  tls: {"];
    var b := [ "    handshake_first: true", "    verify: true", "    timeout: \"3s\"", "  }", "}", "",
               "leafnodes: {", "  port: " + Itoa(p.leafPort), "  advertise: " + p.leafAdvertise, "  tls: {" ];
    var c := [ "    verify: true", "\thandshake_first: true", "    timeout: \"3s\"", "  }", "}", "",
               "mqtt: {", "  port: " + Itoa(p.mqttPort), "  tls: {" ];
    var d := [ "    handshake_first: true", "    timeout: \"3s\"", "  }", "}", "",
               "resolver: {", "  type: full", "  dir: \"" + p.jwtDir + "\"", "  allow_delete: false",
               "  interval: \"2m\"", "}" ];
    var tls, mqtt := TlsLines(p, p.certName), TlsLines(p, p.mqttCertName);
    TlsOpens(p);
    TlsFills(CertName, p);
    TlsFills(MqttCertName, p);
    ClusterEndFills(p);
    LeafEndFills(p);
    MqttEndFills(p);
    var ta, tt, tm := [Text("  tls: {")], TlsTemplate(CertName), TlsTemplate(MqttCertName);
    FillsAppend(ta, tt, a, tls, p);
    FillsAppend(ta + tt, ClusterEndTemplate(), a + tls, b, p);
    FillsAppend(ta + tt + ClusterEndTemplate(), tt, a + tls + b, tls, p);
    FillsAppend(ta + tt + ClusterEndTemplate() + tt, LeafEndTemplate(), a + tls + b + tls, c, p);
    FillsAppend(ta + tt + ClusterEndTemplate() + tt + LeafEndTemplate(), tm, a + tls + b + tls + c, mqtt, p);
    FillsAppend(ta + tt + ClusterEndTemplate() + tt + LeafEndTemplate() + tm, MqttEndTemplate(),
      a + tls + b + tls + c + mqtt, d, p);
    assert FooterLines(p) == a + tls + b + tls + c + mqtt + d;
  }

  lemma TlsOpens(p: ServerConfParams)
    ensures Fills([Text("  tls: {")], ["  tls: {"], p)
  {
    hide Filled;
    FilledText("  tls: {", p);
  }

  // The lines of the file in one list.
  function AllLines(p: ServerConfParams): seq<string> {
    HeaderLines(p) + ["  routes: " + p.clusterRoutes] + FooterLines(p)
  }

  lemma AllFill(p: ServerConfParams)
    ensures Fills(TemplateLines(), AllLines(p), p)
  {
    hide Fills, TopTemplate, JetStreamTemplate, ClusterTemplate, FooterTemplate, TopLines, JetStreamLines, ClusterLines,
      FooterLines;
    TopFills(p);
    JetStreamFills(p);
    ClusterFills(p);
    FooterFills(p);
    var routes := ["  routes: " + p.clusterRoutes];
    FillsAppend(TopTemplate(), JetStreamTemplate(), TopLines(p), JetStreamLines(p), p);
    FillsAppend(TopTemplate() + JetStreamTemplate(), ClusterTemplate(),
      TopLines(p) + JetStreamLines(p), ClusterLines(p) + routes, p);
    FillsAppend(TopTemplate() + JetStreamTemplate() + ClusterTemplate(), FooterTemplate(),
      TopLines(p) + JetStreamLines(p) + (ClusterLines(p) + routes), FooterLines(p), p);
    assert AllLines(p) == TopLines(p) + JetStreamLines(p) + (ClusterLines(p) + routes) + FooterLines(p);
  }

  lemma {:induction false} FlatFills(ts: seq<seq<Piece>>, lines: seq<string>, p: ServerConfParams)
    requires Fills(ts, lines, p)
    ensures Filled(Flat(ts), p) == Unlines(lines)
  {
    hide Filled;
    if ts == [] {
      FilledNothing(p);
    } else {
      FlatFills(ts[1..], lines[1..], p);
      FilledAppend(ts[0] + [Lit("\n")], Flat(ts[1..]), p);
      FilledAppend(ts[0], [Lit("\n")], p);
      FilledText("\n", p);
    }
  }

  lemma FileIsItsLines(p: ServerConfParams)
    ensures BuildServerConf(p) == Unlines(AllLines(p))
  {
    hide Unlines, HeaderLines, FooterLines;
    var routes := "  routes: " + p.clusterRoutes;
    UnlinesConcat(HeaderLines(p) + [routes], FooterLines(p));
    UnlinesConcat(HeaderLines(p), [routes]);
    OneLine(routes);
    assert "  " + (ROUTES_KEY + " " + p.clusterRoutes) == routes;
  }

  lemma OneLine(line: string)
    ensures Unlines([line]) == line + "\n"
  {
    assert [line][1..] == [];
  }

  lemma {:induction false} FlatFit(ts: seq<seq<Piece>>)
    requires forall i :: 0 <= i < |ts| ==> Fit(ts[i])
    ensures Fit(Flat(ts))
  {
    hide FitPiece;
    if ts != [] {
      FlatFit(ts[1..]);
      assert FitPiece(Lit("\n")) by { NewlineFits(); }
    }
  }

  lemma NewlineFits()
    ensures FitPiece(Lit("\n"))
  {
  }

  predicate FitLines(ts: seq<seq<Piece>>) { forall i :: 0 <= i < |ts| ==> Fit(ts[i]) }

  lemma TextFits(t: string)
    requires NoDollar(t)
    ensures Fit(Text(t))
  {
    hide NoDollar;
  }

  lemma WithFits(t: string, h: Placeholder)
    requires NoDollar(t)
    ensures Fit(With(t, h))
  {
    hide NoDollar;
  }

  lemma TopFits()
    ensures FitLines(TopTemplate()[..6])
  {
    hide Fit, Text, With;
    SelfFits();
    WithFits("port: ", ServerPort);
    TextFits("pid_file: /home/runner/run/nats.pid");
    WithFits("http_port: ", HttpPort);
    TextFits("");
    TextFits("# Operator");
  }

  lemma SelfFits()
    ensures Fit([Lit("server_name: "), Bare("SELFNAME")])
  {
  }

  lemma TopRestFits()
    ensures FitLines(TopTemplate()[6..])
  {
    hide Fit, Text, With;
    WithFits("operator = ", OperatorJwt);
    TextFits("");
    TextFits("# System account");
    WithFits("system_account = ", SystemAccount);
  }

  lemma AroundFits(t: string, h: Placeholder, u: string)
    requires NoDollar(t) && NoDollar(u)
    ensures Fit(Around(t, h, u))
  {
    hide NoDollar;
  }

  lemma JetStreamFits()
    ensures FitLines(JetStreamTemplate())
  {
    hide Fit, Text, With, Around;
    TextFits("jetstream: {");
    TextFits("  store_dir: /home/runner/data");
    WithFits("  domain: ", JetStreamDomain);
    WithFits("  max_memory_store: ", MaxMemoryStore);
    WithFits("  max_file_store: ", MaxFileStore);
    TextFits("  cipher: chachapoly");
    AroundFits("  key: \"", JetStreamKey, "\"");
    AroundFits("  prev_encryption_key: \"", JetStreamPrevKey, "\"");
    TextFits("}");
    TextFits("");
  }

  lemma ClusterFits()
    ensures FitLines(ClusterTemplate())
  {
    hide Fit, Text, With;
    TextFits("cluster: {");
    WithFits("  name: ", ControllerName);
    WithFits("  port: ", ClusterPort);
    TextFits("  no_advertise: true");
    WithFits("  routes: ", ClusterRoutes);
  }

  lemma TlsFits(h: Placeholder)
    ensures FitLines(TlsTemplate(h)) && FitLines([Text("  tls: {")])
  {
    CertFits("    ca_file: \"", h, "/ca.crt\"");
    CertFits("    cert_file: \"", h, "/tls.crt\"");
    CertFits("    key_file: \"", h, "/tls.key\"");
    TextFits("  tls: {");
    hide Fit, CertLine, Text;
  }

  lemma CertFits(t: string, h: Placeholder, u: string)
    requires NoDollar(t) && NoDollar(u)
    ensures Fit(CertLine(t, h, u))
  {
    assert NoDollar("/");
    hide NoDollar;
  }

  lemma EndsFit()
    ensures FitLines(ClusterEndTemplate()) && FitLines(LeafEndTemplate())
  {
    hide Fit, Text, With;
    TextFits("    handshake_first: true");
    TextFits("    verify: true");
    TextFits("    timeout: \"3s\"");
    TextFits("  }");
    TextFits("}");
    TextFits("");
    TextFits("leafnodes: {");
    WithFits("  port: ", LeafPort);
    WithFits("  port: ", MqttPort);
    WithFits("  advertise: ", LeafAdvertise);
    TextFits("  tls: {");
    TextFits("\thandshake_first: true");
    TextFits("mqtt: {");
  }

  lemma MqttEndFits()
    ensures FitLines(MqttEndTemplate())
  {
    hide Fit, Text, Around;
    TextFits("    handshake_first: true");
    TextFits("    timeout: \"3s\"");
    TextFits("  }");
    TextFits("}");
    TextFits("");
    TextFits("resolver: {");
    TextFits("  type: full");
    AroundFits("  dir: \"", JwtDir, "\"");
    TextFits("  allow_delete: false");
    TextFits("  interval: \"2m\"");
  }

  lemma FitLinesAppend(a: seq<seq<Piece>>, b: seq<seq<Piece>>)
    requires FitLines(a) && FitLines(b)
    ensures FitLines(a + b)
  {
    hide Fit;
  }

  lemma TemplateFits()
    ensures FitLines(TemplateLines())
  {
    hide FitLines, TopTemplate, JetStreamTemplate, ClusterTemplate, TlsTemplate, ClusterEndTemplate, LeafEndTemplate,
      MqttEndTemplate, Text;
    TopFits();
    TopRestFits();
    JetStreamFits();
    ClusterFits();
    TlsFits(CertName);
    TlsFits(MqttCertName);
    EndsFit();
    MqttEndFits();
    TopLength();
    var top, j, c := TopTemplate(), JetStreamTemplate(), ClusterTemplate();
    FitLinesAppend(top[..6], top[6..]);
    assert top[..6] + top[6..] == top;
    FitLinesAppend(top, j);
    FitLinesAppend(top + j, c);
    FooterFits();
    FitLinesAppend(top + j + c, FooterTemplate());
  }

  lemma TopLength()
    ensures |TopTemplate()| == 11
  {
  }

  lemma FooterFits()
    ensures FitLines(FooterTemplate())
  {
    hide FitLines, TlsTemplate, ClusterEndTemplate, LeafEndTemplate, MqttEndTemplate, Text;
    TlsFits(CertName);
    TlsFits(MqttCertName);
    EndsFit();
    MqttEndFits();
    var a, t, m := [Text("  tls: {")], TlsTemplate(CertName), TlsTemplate(MqttCertName);
    FitLinesAppend(a, t);
    FitLinesAppend(a + t, ClusterEndTemplate());
    FitLinesAppend(a + t + ClusterEndTemplate(), t);
    FitLinesAppend(a + t + ClusterEndTemplate() + t, LeafEndTemplate());
    FitLinesAppend(a + t + ClusterEndTemplate() + t + LeafEndTemplate(), m);
    FitLinesAppend(a + t + ClusterEndTemplate() + t + LeafEndTemplate() + m, MqttEndTemplate());
  }

  // Whatever the parameters hold, dollar signs and placeholder names included, one scan over the template gives the
  // lines with the values in place.
  lemma TemplateExpands(p: ServerConfParams)
    ensures Expand(Template(), p) == BuildServerConf(p)
  {
    hide Expand, Source, Filled, Flat, TemplateLines, BuildServerConf, Fit, Fills, AllLines;
    TemplateFits();
    FlatFit(TemplateLines());
    ExpandPieces(Flat(TemplateLines()), p);
    AllFill(p);
    FlatFills(TemplateLines(), AllLines(p), p);
    FileIsItsLines(p);
  }

  method Build(p: ServerConfParams) returns (text: string)
    ensures text == BuildServerConf(p)
  {
    hide Expand, Template, BuildServerConf;
    text := Replace(Template(), p);
    TemplateExpands(p);
  }
}
