/** Which entries of the router configuration a merge replaces and which it leaves alone, type by type and name by
    name, and where a configuration's version stands. */
module RouterUpdateTheorems {
  import opened Wrappers
  import opened RouterConfig
  import opened RouterMergeTheorems

  predicate Named(data: map<string, Json>, names: seq<string>) {
    "name" in data && data["name"].Str? && data["name"].s in names
  }

  predicate OfType(e: Entry, kind: string) { |e| > 0 && e[0] == Str(kind) }

  // The merge goes past the version test and succeeds.
  predicate MergesAcross(es: seq<Entry>, ns: seq<Entry>, decode: Decoder) {
    && Merge(Some(es), Some(ns), decode).Ok?
    && (ConfigVersion(es, decode) == Ok("") || ConfigVersion(es, decode) != ConfigVersion(ns, decode))
  }

  // e is the last existing entry of its type.
  ghost predicate LastOfType(es: seq<Entry>, e: Entry, kind: string) {
    exists i :: 0 <= i < |es| && es[i] == e && OfType(e, kind) && forall j :: i < j < |es| ==> !OfType(es[j], kind)
  }

  lemma LastIs(es: seq<Entry>, e: Entry, kind: string)
    ensures LastOfKind(es, kind) == Some(e) <==> LastOfType(es, e, kind)
  {
    hide LastOfKind;
    LastOfKindMeaning(es, kind);
    assert forall x: Entry :: Kind(x) == Some(kind) <==> OfType(x, kind);
  }

  lemma ReplacedInGeneral(es: seq<Entry>, ns: seq<Entry>, decode: Decoder, kind: string, e: Entry)
    requires MergesAcross(es, ns, decode) && ShouldUpdate(e) && OfType(e, kind)
    ensures e in Merge(Some(es), Some(ns), decode).value
      <==> e in ns || (LastOfType(es, e, kind) && exists n: Entry :: n in ns && OfType(n, kind) && !ShouldUpdate(n))
  {
    hide Merge, ConfigVersion, ShouldUpdate, LastOfKind, LastOfType, Count, Processed, Retained;
    MergeConserves(es, ns, decode, e);
    forall n | n in ns && !ShouldUpdate(n) && Kind(n).Some?
      ensures LastOfKind(es, Kind(n).value) == Some(e) <==> OfType(n, kind) && LastOfType(es, e, kind)
    {
      LastIs(es, e, Kind(n).value);
      LastTyped(es, e, Kind(n).value);
    }
  }

  lemma LastTyped(es: seq<Entry>, e: Entry, kind: string)
    ensures LastOfType(es, e, kind) ==> OfType(e, kind)
  {
  }

  // The operator's entries, by type and name.
  predicate IsSetting(e: Entry) {
    |e| == 2 && e[0].Str? && e[0].s in ["router", "site", "address", "log"] && e[1].Obj?
  }

  predicate IsProfile(e: Entry) {
    && |e| == 2 && e[0] == Str("sslProfile") && e[1].Obj?
    && Named(e[1].fields, ["router-site-server", "router-local-server"])
  }

  predicate IsListener(e: Entry) {
    && |e| == 2 && e[0] == Str("listener") && e[1].Obj?
    && Named(e[1].fields, ["iofog-router-edge", "amqp", "amqps", "@9090", "iofog-router-inter-router"])
  }

  lemma UpdatedByName(e: Entry)
    ensures ShouldUpdate(e) <==> IsSetting(e) || IsProfile(e) || IsListener(e)
  {
  }

  // One of the four settings is in the result exactly when it is a new one, unless the new list also names its type in
  // an entry that is not a pair with object data: then the last existing one stays as well.
  lemma SettingsReplaced(es: seq<Entry>, ns: seq<Entry>, decode: Decoder, kind: string, data: map<string, Json>)
    requires MergesAcross(es, ns, decode) && kind in ["router", "site", "address", "log"]
    ensures var e: Entry := [Str(kind), Obj(data)];
      e in Merge(Some(es), Some(ns), decode).value <==>
        e in ns || (LastOfType(es, e, kind) && exists n: Entry :: n in ns && OfType(n, kind) && !IsSetting(n))
  {
    hide Merge, ConfigVersion, LastOfType, ShouldUpdate;
    var e: Entry := [Str(kind), Obj(data)];
    UpdatedByName(e);
    ReplacedInGeneral(es, ns, decode, kind, e);
    forall n: Entry | OfType(n, kind) ensures ShouldUpdate(n) <==> IsSetting(n) { UpdatedByName(n); }
  }

  // So is each of the operator's two TLS profiles, unless the new list also names another profile.
  lemma ProfilesReplaced(es: seq<Entry>, ns: seq<Entry>, decode: Decoder, data: map<string, Json>)
    requires MergesAcross(es, ns, decode) && Named(data, ["router-site-server", "router-local-server"])
    ensures var e: Entry := [Str("sslProfile"), Obj(data)];
      e in Merge(Some(es), Some(ns), decode).value <==>
        e in ns || (LastOfType(es, e, "sslProfile") && exists n: Entry :: n in ns && OfType(n, "sslProfile") && !IsProfile(n))
  {
    hide Merge, ConfigVersion, LastOfType, ShouldUpdate;
    var e: Entry := [Str("sslProfile"), Obj(data)];
    UpdatedByName(e);
    ReplacedInGeneral(es, ns, decode, "sslProfile", e);
    forall n: Entry | OfType(n, "sslProfile") ensures ShouldUpdate(n) <==> IsProfile(n) { UpdatedByName(n); }
  }

  // And each of its five listeners, unless the new list also names another listener.
  lemma ListenersReplaced(es: seq<Entry>, ns: seq<Entry>, decode: Decoder, data: map<string, Json>)
    requires MergesAcross(es, ns, decode)
    requires Named(data, ["iofog-router-edge", "amqp", "amqps", "@9090", "iofog-router-inter-router"])
    ensures var e: Entry := [Str("listener"), Obj(data)];
      e in Merge(Some(es), Some(ns), decode).value <==>
        e in ns || (LastOfType(es, e, "listener") && exists n: Entry :: n in ns && OfType(n, "listener") && !IsListener(n))
  {
    hide Merge, ConfigVersion, LastOfType, ShouldUpdate;
    var e: Entry := [Str("listener"), Obj(data)];
    UpdatedByName(e);
    ReplacedInGeneral(es, ns, decode, "listener", e);
    forall n: Entry | OfType(n, "listener") ensures ShouldUpdate(n) <==> IsListener(n) { UpdatedByName(n); }
  }

  // Every other entry is in the result exactly when it was stored before: none is added, none is lost.
  lemma OthersKept(es: seq<Entry>, ns: seq<Entry>, decode: Decoder, e: Entry)
    requires MergesAcross(es, ns, decode) && !IsSetting(e) && !IsProfile(e) && !IsListener(e)
    ensures e in Merge(Some(es), Some(ns), decode).value <==> e in es
  {
    hide Merge, ConfigVersion, LastOfKind, Count, Processed, Retained, ShouldUpdate;
    UpdatedByName(e);
    MergeConserves(es, ns, decode, e);
    forall n | n in ns && Kind(n).Some? && LastOfKind(es, Kind(n).value) == Some(e)
      ensures e in es
    {
      LastIsThere(es, Kind(n).value);
    }
  }

  // The exception is real, with the profile that the operator's own configuration names and leaves alone: an existing
  // profile for the site server then appears beside its new version.
  lemma OldProfileStays(decode: Decoder, old_: map<string, Json>, new_: map<string, Json>)
    requires Named(old_, ["router-site-server"]) && Named(new_, ["router-site-server"])
    ensures var es: seq<Entry> := [[Str("sslProfile"), Obj(old_)]];
      var other: Entry := [Str("sslProfile"), Obj(map["name" := Str("system-default")])];
      var ns: seq<Entry> := [other, [Str("sslProfile"), Obj(new_)]];
      Merge(Some(es), Some(ns), decode) == Ok([es[0], ns[1]])
  {
    var es: seq<Entry> := [[Str("sslProfile"), Obj(old_)]];
    var other: Entry := [Str("sslProfile"), Obj(map["name" := Str("system-default")])];
    var ns: seq<Entry> := [other, [Str("sslProfile"), Obj(new_)]];
    NoRouterNoVersion(es, decode);
    NoRouterNoVersion(ns, decode);
    hide ConfigVersion;
    UpdatedByName(es[0]);
    UpdatedByName(other);
    UpdatedByName(ns[1]);
    hide ShouldUpdate;
    assert es[..0] == [] && ns[..1] == [other] && [other][..0] == [];
    assert LastOfKind(es, "sslProfile") == Some(es[0]);
    assert Retained(es) == [] by { assert Retained(es[..0]) == []; }
    assert Processed(es, [other]) == [es[0]] by { assert Processed(es, [other][..0]) == []; }
    assert Processed(es, ns) == [es[0]] + [ns[1]];
    hide Processed, Retained, LastOfKind, Named;
    assert AllKinded(es) && LookupsKinded(ns);
    assert [es[0]] + [ns[1]] + [] == [es[0], ns[1]];
  }

  lemma {:induction false} NoRouterNoVersion(es: seq<Entry>, decode: Decoder)
    requires forall i :: 0 <= i < |es| ==> OfType(es[i], "sslProfile")
    ensures ConfigVersion(es, decode) == Ok("")
  {
    if es != [] { NoRouterNoVersion(es[1..], decode); }
  }

  /* ----- the version ----- */

  // A router pair whose metadata text is unreadable, or readable with a pot-config text in it.
  predicate Tells(e: Entry, decode: Decoder) {
    && |e| == 2 && e[0] == Str("router") && e[1].Obj?
    && "metadata" in e[1].fields && e[1].fields["metadata"].Str?
    && var read := decode(e[1].fields["metadata"].s);
       read.None? || ("pot-config" in read.value && read.value["pot-config"].Str?)
  }

  // The first entry that tells decides: with an error, or with its version. Without one the version is empty.
  lemma {:induction false} VersionIsToldFirst(es: seq<Entry>, decode: Decoder)
    ensures (forall j :: 0 <= j < |es| ==> !Tells(es[j], decode)) ==> ConfigVersion(es, decode) == Ok("")
    ensures forall i :: 0 <= i < |es| && Tells(es[i], decode) && (forall j :: 0 <= j < i ==> !Tells(es[j], decode)) ==>
      ConfigVersion(es, decode) ==
        var read := decode(es[i][1].fields["metadata"].s);
        if read.None? then Err else Ok(read.value["pot-config"].s)
  {
    hide PairVersion;
    if es != [] {
      VersionIsToldFirst(es[1..], decode);
      FirstTells(es[0], decode);
      forall i | 0 < i < |es| && Tells(es[i], decode) && (forall j :: 0 <= j < i ==> !Tells(es[j], decode))
        ensures ConfigVersion(es, decode) ==
          var read := decode(es[i][1].fields["metadata"].s);
          if read.None? then Err else Ok(read.value["pot-config"].s)
      {
        assert es[1..][i - 1] == es[i];
        assert forall j :: 0 <= j < i - 1 ==> es[1..][j] == es[j + 1];
      }
    }
  }

  lemma FirstTells(e: Entry, decode: Decoder)
    ensures Tells(e, decode) <==> IsRouterPair(e) && PairVersion(e, decode).Some?
    ensures Tells(e, decode) ==>
      var read := decode(e[1].fields["metadata"].s);
      PairVersion(e, decode).value == if read.None? then Err else Ok(read.value["pot-config"].s)
  {
  }
}
