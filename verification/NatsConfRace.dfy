/** The server.conf ConfigMap is read twice in a pass: once for the routes to merge, and again for the object to
    create or update. Updates are refused when the object changed since it was read, but only since the second read.
    What becomes of a route that the Controller adds at some moment of the pass, and of all routes over whole runs. */
module NatsConfRace {
  import opened Wrappers
  import opened GoStrings
  import opened NatsRoutes
  import opened NatsRouteTheorems
  import opened NatsMergeTheorems
  import opened NatsCluster
  import opened NatsRuns

  datatype Moment = BeforeReads | BetweenReads | BeforeUpdate | AfterUpdate

  datatype ConfigMap = ConfigMap(text: string, version: nat)

  // The text that a pass computes when it reads this one, or none.
  function PassText(c: Cluster, in_: Input, read: Option<string>): string {
    NewConf(AfterTls(c.(conf := read), in_), in_)
  }

  // The Controller edits the ConfigMap if there is one.
  function Edited(text: Option<string>, edit: string -> string): Option<string> {
    if text.Some? then Some(edit(text.value)) else None
  }

  // The text left when the Controller applies edit at that moment of the pass.
  function LeftText(c: Cluster, in_: Input, text: Option<string>, edit: string -> string, at: Moment): string {
    match at
    case BeforeReads => PassText(c, in_, Edited(text, edit))
    case BetweenReads => PassText(c, in_, text)
    case BeforeUpdate => if text.Some? then edit(text.value) else PassText(c, in_, text)
    case AfterUpdate => edit(PassText(c, in_, text))
  }

  // An edit before an update makes the update fail.
  predicate Refused(text: Option<string>, at: Moment) { at == BeforeUpdate && text.Some? }

  function TextOf(m: Option<ConfigMap>): Option<string> { if m.Some? then Some(m.value.text) else None }

  class ConfigMapStore {
    var stored: Option<ConfigMap>

    constructor (m: Option<ConfigMap>)
      ensures stored == m
    {
      stored := m;
    }

    method ControllerEdit(edit: string -> string)
      modifies this
      ensures TextOf(stored) == Edited(TextOf(old(stored)), edit)
      ensures stored.Some? ==> stored.value.version == old(stored).value.version + 1
    {
      if stored.Some? { stored := Some(ConfigMap(edit(stored.value.text), stored.value.version + 1)); }
    }

    method Create(text: string) returns (ok: bool)
      modifies this
      ensures ok <==> old(stored).None?
      ensures stored == if ok then Some(ConfigMap(text, 1)) else old(stored)
    {
      ok := stored.None?;
      if ok { stored := Some(ConfigMap(text, 1)); }
    }

    method Update(text: string, readVersion: nat) returns (ok: bool)
      modifies this
      ensures ok <==> old(stored).Some? && old(stored).value.version == readVersion
      ensures stored == if ok then Some(ConfigMap(text, readVersion + 1)) else old(stored)
    {
      ok := stored.Some? && stored.value.version == readVersion;
      if ok { stored := Some(ConfigMap(text, readVersion + 1)); }
    }

    // The ConfigMap part of a pass, with the Controller's edit at one moment of it.
    method MergeServerConf(c: Cluster, in_: Input, edit: string -> string, at: Moment) returns (ok: bool)
      modifies this
      ensures TextOf(stored) == Some(LeftText(c, in_, TextOf(old(stored)), edit, at))
      ensures ok <==> !Refused(TextOf(old(stored)), at)
    {
      hide PassText;
      if at == BeforeReads { ControllerEdit(edit); }
      var existing := stored;
      var text := PassText(c, in_, TextOf(existing));
      if at == BetweenReads { ControllerEdit(edit); }
      var again := stored;
      if at == BeforeUpdate { ControllerEdit(edit); }
      if again.None? {
        ok := Create(text);
      } else {
        ok := Update(text, again.value.version);
      }
      if at == AfterUpdate { ControllerEdit(edit); }
    }
  }

  /* ----- one edit in one pass ----- */

  // The edit keeps a tidy file tidy and adds exactly the foreign route r to it.
  ghost predicate Adds(edit: string -> string, r: string) {
    forall text :: AllClean(RoutesOf(text)) ==> AllClean(RoutesOf(edit(text))) && Foreign(edit(text)) == Foreign(text) + {r}
  }

  function Content(text: Option<string>): string { if text.Some? then text.value else "" }

  lemma PassTextForeign(c: Cluster, in_: Input, read: Option<string>)
    requires InputOk(in_) && JskFree(c) && !Blocked(c) && AllClean(RoutesOf(Content(read)))
    ensures AllClean(RoutesOf(PassText(c, in_, read))) && Foreign(PassText(c, in_, read)) == Foreign(Content(read))
  {
    hide InputOk, Contains, AfterTls, NewConf, PassWrites, RoutesOf, Foreign, RunPass, AllClean;
    var d := c.(conf := read);
    var budget := |PassWrites(d, in_)|;
    PassFields(d, in_, budget);
    PassRoutesExact(d, in_, budget);
  }

  // The edit lands: there is a ConfigMap to edit, and the edit is not between the two reads.
  predicate Lands(text: Option<string>, at: Moment) { at == AfterUpdate || (text.Some? && at != BetweenReads) }

  // Passes and edits conserve the foreign routes, except that an edit between the two reads is overwritten.
  lemma EditDuringPass(c: Cluster, in_: Input, text: Option<string>, edit: string -> string, r: string, at: Moment)
    requires InputOk(in_) && JskFree(c) && !Blocked(c) && AllClean(RoutesOf(Content(text))) && Adds(edit, r)
    ensures var left := LeftText(c, in_, text, edit, at);
      AllClean(RoutesOf(left)) && Foreign(left) == Foreign(Content(text)) + if Lands(text, at) then {r} else {}
  {
    hide InputOk, JskFree, PassText, RoutesOf, Foreign, AllClean;
    PassTextForeign(c, in_, text);
    PassTextForeign(c, in_, Edited(text, edit));
  }

  // So a route added during a pass is there after it exactly when it was there already or the edit landed.
  lemma AddedRouteStaysIff(c: Cluster, in_: Input, text: Option<string>, edit: string -> string, r: string, at: Moment)
    requires InputOk(in_) && JskFree(c) && !Blocked(c) && AllClean(RoutesOf(Content(text))) && Adds(edit, r)
    ensures r in Foreign(LeftText(c, in_, text, edit, at)) <==> Lands(text, at) || r in Foreign(Content(text))
  {
    hide InputOk, JskFree, LeftText, RoutesOf, Foreign, AllClean, Adds;
    EditDuringPass(c, in_, text, edit, r, at);
  }

  /* ----- runs with edits at any moment ----- */

  datatype RaceEvent =
    | Alone(event: Event)
    | During(in_: Input, edit: string -> string, route: string, at: Moment)

  // A pass with an edit inside it. A blocked pass ends before it reads the ConfigMap, a refused one at the update.
  function RaceStep(c: Cluster, e: RaceEvent): Cluster {
    match e
    case Alone(event) => Step(c, event)
    case During(in_, edit, _, at) =>
      if Blocked(c) then c.(conf := Edited(c.conf, edit))
      else
        var d := AfterTls(c, in_).(conf := Some(LeftText(c, in_, c.conf, edit, at)));
        if Refused(c.conf, at) then d else d.(sts := Some(NewSts(c, in_)))
  }

  function RaceRun(c: Cluster, events: seq<RaceEvent>): Cluster {
    if events == [] then c else RaceStep(RaceRun(c, events[..|events| - 1]), events[|events| - 1])
  }

  ghost predicate RaceEventOk(c: Cluster, e: RaceEvent) {
    match e
    case Alone(event) => TidyEvent(c, event)
    case During(in_, edit, r, _) => InputOk(in_) && Adds(edit, r)
  }

  ghost predicate RaceRunOk(c: Cluster, events: seq<RaceEvent>) {
    forall i :: 0 <= i < |events| ==> RaceEventOk(RaceRun(c, events[..i]), events[i])
  }

  // The route that an event adds for good.
  function Landed(c: Cluster, e: RaceEvent): set<string> {
    match e
    case Alone(event) => if event.ControllerAdds? then {event.route} else {}
    case During(_, _, r, at) => if (if Blocked(c) then c.conf.Some? else Lands(c.conf, at)) then {r} else {}
  }

  function AllLanded(c: Cluster, events: seq<RaceEvent>): set<string> {
    if events == [] then {}
    else AllLanded(c, events[..|events| - 1]) + Landed(RaceRun(c, events[..|events| - 1]), events[|events| - 1])
  }

  lemma RaceStepForeign(c: Cluster, e: RaceEvent)
    requires RaceEventOk(c, e) && JskFree(c) && Tidy(c)
    ensures var d := RaceStep(c, e);
      JskFree(d) && Tidy(d) && Foreign(StoredConf(d)) == Foreign(StoredConf(c)) + Landed(c, e)
  {
    hide InputOk, TidyEvent, Foreign, RoutesOf, AllClean, LeftText, AfterTls, NewSts, Contains, Step, WritesConf, PassWrites;
    match e
    case Alone(event) =>
      TidyStep(c, event);
    case During(in_, edit, r, at) =>
      if !Blocked(c) {
        EditDuringPass(c, in_, c.conf, edit, r, at);
        assert WritesConf(c, in_, |PassWrites(c, in_)|) by { EnoughWrites(c, in_); }
        PassKeepsJskFree(c, in_, |PassWrites(c, in_)|);
      }
  }

  lemma EnoughWrites(c: Cluster, in_: Input)
    requires !Blocked(c)
    ensures WritesConf(c, in_, |PassWrites(c, in_)|)
  {
    hide PassWrites;
  }

  // Over any run with edits between and during passes, the foreign routes at the end are those at the start and
  // those whose edits landed.
  lemma {:induction false} RaceRunForeign(c: Cluster, events: seq<RaceEvent>)
    requires RaceRunOk(c, events) && JskFree(c) && Tidy(c)
    ensures var d := RaceRun(c, events);
      JskFree(d) && Tidy(d) && Foreign(StoredConf(d)) == Foreign(StoredConf(c)) + AllLanded(c, events)
  {
    hide RaceStep, RaceEventOk, Landed, Foreign, JskFree, Tidy;
    if events != [] {
      var front := events[..|events| - 1];
      assert forall i :: 0 <= i <= |front| ==> front[..i] == events[..i];
      RaceRunForeign(c, front);
      RaceStepForeign(RaceRun(c, front), events[|events| - 1]);
    }
  }

  lemma ConfStays(c: Cluster, e: RaceEvent)
    requires c.conf.Some?
    ensures RaceStep(c, e).conf.Some?
  {
    hide LeftText, AfterTls, NewSts, NewConf, RunPass, WritesConf, Completes;
    if e.Alone? && e.event.Pass? { PassFields(c, e.event.in_, e.event.budget); }
  }

  // So once there is a ConfigMap, every route added at any moment but between the two reads of a pass is there at the
  // end of the run.
  lemma {:induction false} AddedAnywhereStays(c: Cluster, events: seq<RaceEvent>, i: nat)
    requires RaceRunOk(c, events) && JskFree(c) && Tidy(c) && c.conf.Some? && i < |events|
    requires events[i].During? && events[i].at != BetweenReads
    ensures events[i].route in RoutesOf(StoredConf(RaceRun(c, events)))
  {
    hide RaceRunOk, JskFree, Tidy, RoutesOf;
    RaceRunForeign(c, events);
    LandedAt(c, events, i);
  }

  lemma {:induction false} LandedAt(c: Cluster, events: seq<RaceEvent>, i: nat)
    requires c.conf.Some? && i < |events| && events[i].During? && events[i].at != BetweenReads
    ensures events[i].route in AllLanded(c, events)
  {
    hide RaceStep;
    var front := events[..|events| - 1];
    if i < |front| {
      LandedAt(c, front, i);
    } else {
      ConfStaysInRun(c, front);
    }
  }

  lemma {:induction false} ConfStaysInRun(c: Cluster, events: seq<RaceEvent>)
    requires c.conf.Some?
    ensures RaceRun(c, events).conf.Some?
  {
    hide RaceStep;
    if events != [] {
      ConfStaysInRun(c, events[..|events| - 1]);
      ConfStays(RaceRun(c, events[..|events| - 1]), events[|events| - 1]);
    }
  }

  /* ----- such edits and runs exist ----- */

  // Prints the routes of the file again with r at the end, and nothing else.
  function Reprint(text: string, r: string): string { Framed("", RoutesOf(text) + [r], "") }

  lemma ReprintRoutes(text: string, r: string)
    requires AllClean(RoutesOf(text)) && Clean(r)
    ensures RoutesOf(Reprint(text, r)) == RoutesOf(text) + [r] && AllClean(RoutesOf(text) + [r])
  {
    hide ParsedRoutes, PrintRoutes, IndexFrom, Clean;
    var routes := RoutesOf(text) + [r];
    var conf := Framed("", routes, "");
    assert conf == ROUTES_KEY + (" " + PrintRoutes(routes));
    assert conf[0..|ROUTES_KEY|] == ROUTES_KEY;
    IndexFound(conf, ROUTES_KEY, 0);
    PrintParseRoundTrip("", routes, "");
  }

  lemma ReprintAdds(r: string)
    requires Clean(r) && !Ordinal(r)
    ensures Adds(text => Reprint(text, r), r)
  {
    hide RoutesOf, Reprint, Clean, Ordinal;
    forall text | AllClean(RoutesOf(text))
      ensures AllClean(RoutesOf(Reprint(text, r))) && Foreign(Reprint(text, r)) == Foreign(text) + {r}
    {
      ReprintRoutes(text, r);
    }
  }

  // From nothing: the Controller adds a route, and a pass follows.
  lemma TidyRunExists(r: string, in_: Input, budget: nat)
    requires Clean(r) && !Ordinal(r) && InputOk(in_)
    ensures TidyRun(EMPTY, [ControllerAdds(r, Reprint("", r)), Pass(in_, budget)])
  {
    hide Clean, Ordinal, InputOk, RunPass, Reprint, RoutesOf;
    var events := [ControllerAdds(r, Reprint("", r)), Pass(in_, budget)];
    EmptyIsTidy();
    ReprintRoutes("", r);
    assert events[..0] == [] && events[..1][..0] == [];
    assert StoredConf(EMPTY) == "";
    assert TidyEvent(EMPTY, events[0]) by { FirstAdd(r); }
  }

  lemma FirstAdd(r: string)
    requires Clean(r) && !Ordinal(r)
    ensures TidyEvent(EMPTY, ControllerAdds(r, Reprint("", r)))
  {
    hide Clean, Ordinal, Reprint, RoutesOf;
    EmptyIsTidy();
    ReprintRoutes("", r);
    var conf := Reprint("", r);
    assert r in RoutesOf(conf);
    assert Foreign(conf) == Foreign("") + {r};
  }
}
