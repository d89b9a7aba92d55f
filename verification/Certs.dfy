/** TLS secrets with symbolic certificates: key material is a number, a signature is the number of the
    signing key. What is kept exactly: who signed what, the ca.crt entry, and the host list. */
module Certs {
  import opened Wrappers
  import opened GoStrings

  datatype Cert = Cert(subject: string, dnsNames: seq<string>, keyId: int, issuerKeyId: int, isCA: bool)

  datatype Secret = Secret(name: string, tlsCrt: Cert, caCrt: Cert, annotations: map<string, string>)

  function Sans(parts: seq<string>): seq<string> {
    seq(|parts|, i requires 0 <= i < |parts| => TrimSpace(parts[i]))
  }

  // A secret for the comma-separated hosts: signed by ca, or self-signed when there is none.
  function Generated(name: string, subject: string, hosts: string, keyId: int, ca: Option<Secret>): Secret {
    var names := Sans(Split(hosts, ','));
    match ca
    case None =>
      var crt := Cert(subject, names, keyId, keyId, true);
      Secret(name, crt, crt, map[])
    case Some(authority) =>
      Secret(name, Cert(subject, names, keyId, authority.tlsCrt.keyId, false), authority.tlsCrt, map[])
  }

  method GenerateSecret(name: string, subject: string, hosts: string, keyId: int, ca: Option<Secret>)
    returns (secret: Secret)
    ensures secret == Generated(name, subject, hosts, keyId, ca)
  {
    hide Split, TrimSpace;
    var dnsNames: seq<string> := [];
    var hostsList := Split(hosts, ',');
    for i := 0 to |hostsList|
      invariant dnsNames == Sans(hostsList[..i])
    {
      assert Sans(hostsList[..i + 1]) == Sans(hostsList[..i]) + [TrimSpace(hostsList[i])];
      var h := TrimSpace(hostsList[i]);
      dnsNames := dnsNames + [h];
    }
    assert hostsList[..|hostsList|] == hostsList;
    var issuer, isCA := keyId, true;
    if ca.Some? {
      issuer, isCA := ca.value.tlsCrt.keyId, false;
    }
    var crt := Cert(subject, dnsNames, keyId, issuer, isCA);
    secret := Secret(name, crt, if ca.Some? then ca.value.tlsCrt else crt, map[]);
  }

  // A name without commas and edge blanks is the only name of its own host list.
  lemma OneName(name: string)
    requires ',' !in name && NoEdge(name, WHITESPACE)
    ensures Sans(Split(name, ',')) == [name]
  {
    SplitWhole(name, ',');
    TrimFixedPoint(name, WHITESPACE);
    hide Split, TrimSpace, WHITESPACE;
    assert Sans([name]) == [name];
  }

  // What a generated secret holds: the given name, subject and key, one trimmed name for each comma-separated part, and
  // either the given authority's signature and certificate or its own.
  lemma GeneratedMeaning(name: string, subject: string, hosts: string, keyId: int, ca: Option<Secret>)
    ensures var s, parts := Generated(name, subject, hosts, keyId, ca), Split(hosts, ',');
      && s.name == name && s.annotations == map[] && s.tlsCrt.subject == subject && s.tlsCrt.keyId == keyId
      && |s.tlsCrt.dnsNames| == |parts| && (forall i :: 0 <= i < |parts| ==> s.tlsCrt.dnsNames[i] == TrimSpace(parts[i]))
      && (ca.None? ==> s.tlsCrt.isCA && s.tlsCrt.issuerKeyId == keyId && s.caCrt == s.tlsCrt)
      && (ca.Some? ==> !s.tlsCrt.isCA && s.tlsCrt.issuerKeyId == ca.value.tlsCrt.keyId && s.caCrt == ca.value.tlsCrt)
  {
    hide Split, TrimSpace;
  }

  // server was signed by ca's key and carries ca's certificate as ca.crt.
  predicate IssuedBy(server: Secret, ca: Secret) {
    ca.tlsCrt.isCA && server.caCrt == ca.tlsCrt && server.tlsCrt.issuerKeyId == ca.tlsCrt.keyId
  }

  lemma {:induction false} SplitJoinRest(parts: seq<string>, sep: char, rest: string)
    requires |parts| >= 1 && forall p :: p in parts ==> sep !in p
    ensures Split(Join(parts, [sep]) + [sep] + rest, sep) == parts + Split(rest, sep)
  {
    hide Split;
    if |parts| == 1 {
      SplitPrefix(parts[0], rest, sep);
    } else {
      var tail := Join(parts[1..], [sep]) + [sep] + rest;
      SplitJoinRest(parts[1..], sep, rest);
      assert Join(parts, [sep]) + [sep] + rest == parts[0] + [sep] + tail;
      SplitPrefix(parts[0], tail, sep);
      assert parts == [parts[0]] + parts[1..];
    }
  }
}
