/** Merging the stored router configuration with the operator's, gated by the pot-config version.
    Configurations are parsed entries; decode stands for json.Unmarshal of the metadata string. */
module RouterConfig {
  import opened Wrappers

  datatype Json =
    | Null
    | Bool(b: bool)
    | Num(text: string)
    | Str(s: string)
    | Arr(items: seq<Json>)
    | Obj(fields: map<string, Json>)

  type Entry = seq<Json>
  type Decoder = string -> Option<map<string, Json>>

  // Panic is the failed type assertion or index on an entry's head.
  datatype Outcome<+T> = Ok(value: T) | Err | Panic

  function Kind(e: Entry): Option<string> {
    if |e| > 0 && e[0].Str? then Some(e[0].s) else None
  }

  function NameOf(data: map<string, Json>): Option<string> {
    if "name" in data && data["name"].Str? then Some(data["name"].s) else None
  }

  predicate ShouldUpdate(e: Entry) {
    |e| == 2 && e[0].Str? && e[1].Obj? &&
    match e[0].s
    case "router" => true
    case "site" => true
    case "address" => true
    case "log" => true
    case "sslProfile" => NameOf(e[1].fields) in [Some("router-site-server"), Some("router-local-server")]
    case "listener" =>
      NameOf(e[1].fields) in [Some("iofog-router-edge"), Some("amqp"), Some("amqps"), Some("@9090"),
                              Some("iofog-router-inter-router")]
    case _ => false
  }

  predicate IsRouterPair(e: Entry) { |e| == 2 && Kind(e) == Some("router") && e[1].Obj? }

  // What one router pair says about the version: an error, a version, or nothing.
  function PairVersion(e: Entry, decode: Decoder): Option<Outcome<string>>
    requires IsRouterPair(e)
  {
    var data := e[1].fields;
    if "metadata" in data && data["metadata"].Str? then
      match decode(data["metadata"].s)
      case None => Some(Err)
      case Some(m) => if "pot-config" in m && m["pot-config"].Str? then Some(Ok(m["pot-config"].s)) else None
    else None
  }

  function ConfigVersion(es: seq<Entry>, decode: Decoder): Outcome<string> {
    if es == [] then Ok("")
    else if IsRouterPair(es[0]) && PairVersion(es[0], decode).Some? then PairVersion(es[0], decode).value
    else ConfigVersion(es[1..], decode)
  }

  /* ----- the merge ----- */

  function LastOfKind(es: seq<Entry>, kind: string): Option<Entry> {
    if es == [] then None
    else if Kind(es[|es| - 1]) == Some(kind) then Some(es[|es| - 1])
    else LastOfKind(es[..|es| - 1], kind)
  }

  // What a new entry turns into: itself, the last existing entry of its type, or nothing.
  function Contribution(es: seq<Entry>, n: Entry): seq<Entry> {
    if ShouldUpdate(n) then [n]
    else if Kind(n).Some? && LastOfKind(es, Kind(n).value).Some? then [LastOfKind(es, Kind(n).value).value]
    else []
  }

  function Processed(es: seq<Entry>, ns: seq<Entry>): seq<Entry> {
    if ns == [] then [] else Processed(es, ns[..|ns| - 1]) + Contribution(es, ns[|ns| - 1])
  }

  function Retained(es: seq<Entry>): seq<Entry> {
    if es == [] then []
    else
      var last := es[|es| - 1];
      Retained(es[..|es| - 1]) + if ShouldUpdate(last) then [] else [last]
  }

  predicate AllKinded(es: seq<Entry>) { forall i :: 0 <= i < |es| ==> Kind(es[i]).Some? }

  predicate LookupsKinded(ns: seq<Entry>) {
    forall i :: 0 <= i < |ns| ==> ShouldUpdate(ns[i]) || Kind(ns[i]).Some?
  }

  // None stands for text that does not parse as a list of entries.
  function Merge(existing: Option<seq<Entry>>, new_: Option<seq<Entry>>, decode: Decoder): Outcome<seq<Entry>> {
    if existing.None? || ConfigVersion(existing.value, decode).Err? then Err
    else if new_.None? || ConfigVersion(new_.value, decode).Err? then Err
    else
      var es, ns := existing.value, new_.value;
      var version := ConfigVersion(es, decode);
      if version != Ok("") && version == ConfigVersion(ns, decode) then Ok(es)
      else if !AllKinded(es) || !LookupsKinded(ns) then Panic
      else Ok(Processed(es, ns) + Retained(es))
  }

  method GetConfigVersion(es: seq<Entry>, decode: Decoder) returns (version: Outcome<string>)
    ensures version == ConfigVersion(es, decode)
  {
    hide PairVersion;
    assert es[0..] == es;
    for i := 0 to |es|
      invariant ConfigVersion(es, decode) == ConfigVersion(es[i..], decode)
    {
      assert es[i..][1..] == es[i + 1..];
      if IsRouterPair(es[i]) {
        var found := PairVersion(es[i], decode);
        if found.Some? {
          return found.value;
        }
      }
    }
    version := Ok("");
  }

  method MergeConfigs(existing: Option<seq<Entry>>, new_: Option<seq<Entry>>, decode: Decoder)
    returns (merged: Outcome<seq<Entry>>)
    ensures merged == Merge(existing, new_, decode)
  {
    hide ConfigVersion, Contribution, ShouldUpdate;
    VersionNeverPanics(existing, decode);
    VersionNeverPanics(new_, decode);
    if existing.None? { return Err; }
    var existingVersion := GetConfigVersion(existing.value, decode);
    if existingVersion.Err? { return Err; }
    if new_.None? { return Err; }
    var newVersion := GetConfigVersion(new_.value, decode);
    if newVersion.Err? { return Err; }
    if existingVersion != Ok("") && existingVersion == newVersion {
      return Ok(existing.value);
    }
    var es, ns := existing.value, new_.value;
    var existingMap := IndexByKind(es);
    if existingMap.None? { return Panic; }
    var result: seq<Entry> := [];
    for i := 0 to |ns|
      invariant LookupsKinded(ns[..i]) && result == Processed(es, ns[..i])
    {
      assert ns[..i + 1][..i] == ns[..i];
      var entry := ns[i];
      if ShouldUpdate(entry) {
        result := result + [entry];
        UpdatedContribution(es, entry);
      } else {
        if Kind(entry).None? {
          assert !LookupsKinded(ns);
          return Panic;
        }
        LookupContribution(es, entry);
        if Kind(entry).value in existingMap.value {
          result := result + [existingMap.value[Kind(entry).value]];
        }
      }
    }
    assert ns[..|ns|] == ns;
    var processed := result;
    for i := 0 to |es|
      invariant result == processed + Retained(es[..i])
    {
      assert es[..i + 1][..i] == es[..i];
      if !ShouldUpdate(es[i]) {
        result := result + [es[i]];
      }
    }
    assert es[..|es|] == es;
    merged := Ok(result);
  }

  // The lookup table by type; later entries overwrite earlier ones. None is a panic on an entry's head.
  method IndexByKind(es: seq<Entry>) returns (index: Option<map<string, Entry>>)
    ensures index.Some? <==> AllKinded(es)
    ensures index.Some? ==> forall k :: k in index.value <==> LastOfKind(es, k).Some?
    ensures index.Some? ==> forall k :: k in index.value ==> LastOfKind(es, k) == Some(index.value[k])
  {
    var m: map<string, Entry> := map[];
    for i := 0 to |es|
      invariant AllKinded(es[..i])
      invariant forall k :: k in m <==> LastOfKind(es[..i], k).Some?
      invariant forall k :: k in m ==> LastOfKind(es[..i], k) == Some(m[k])
    {
      assert es[..i + 1][..i] == es[..i];
      if Kind(es[i]).None? {
        return None;
      }
      m := m[Kind(es[i]).value := es[i]];
    }
    assert es[..|es|] == es;
    index := Some(m);
  }

  lemma {:induction false} VersionNotPanic(es: seq<Entry>, decode: Decoder)
    ensures !ConfigVersion(es, decode).Panic?
  {
    if es != [] {
      VersionNotPanic(es[1..], decode);
    }
  }

  lemma VersionNeverPanics(config: Option<seq<Entry>>, decode: Decoder)
    ensures config.Some? ==> !ConfigVersion(config.value, decode).Panic?
  {
    if config.Some? { VersionNotPanic(config.value, decode); }
  }

  lemma UpdatedContribution(es: seq<Entry>, n: Entry)
    requires ShouldUpdate(n)
    ensures Contribution(es, n) == [n]
  {
  }

  lemma LookupContribution(es: seq<Entry>, n: Entry)
    requires !ShouldUpdate(n) && Kind(n).Some?
    ensures Contribution(es, n) ==
      if LastOfKind(es, Kind(n).value).Some? then [LastOfKind(es, Kind(n).value).value] else []
  {
  }

  function MergedText(existing: Option<seq<Entry>>, new_: Option<seq<Entry>>, decode: Decoder)
    : Outcome<Option<seq<Entry>>>
  {
    match Merge(existing, new_, decode)
    case Ok(entries) => Ok(Some(entries))
    case Err => Err
    case Panic => Panic
  }

  // The router's ConfigMap: absent, or its skrouterd.json value (None when that does not parse).
  class RouterConfigMap {
    var data: Option<Option<seq<Entry>>>

    constructor ()
      ensures data == None
    {
      data := None;
    }

    // accepted is whether the store takes the pass's one write. Nothing is written unless the merge succeeds.
    method CreateConfigMap(new_: Option<seq<Entry>>, decode: Decoder, accepted: bool) returns (outcome: Outcome<()>)
      modifies this
      ensures var goal := if old(data).None? then Ok(new_) else MergedText(old(data).value, new_, decode);
        && (outcome.Ok? <==> goal.Ok? && accepted)
        && (outcome.Panic? <==> goal.Panic?)
        && data == (if outcome.Ok? then Some(goal.value) else old(data))
    {
      hide Merge;
      if data.None? {
        if !accepted { return Err; }
        data := Some(new_);
        return Ok(());
      }
      var merged := MergeConfigs(data.value, new_, decode);
      match merged
      case Err => return Err;
      case Panic => return Panic;
      case Ok(entries) =>
        if !accepted { return Err; }
        data := Some(Some(entries));
        return Ok(());
    }
  }
}
