/** The reconcile loop of a ControlPlane as steps against an API server with optimistic locking. Between any
    two operator steps others may edit the spec, touch metadata, delete or re-create the object, any write may
    fail, and the operator may crash. */
module ControlPlaneMachine {
  import opened Wrappers
  import opened Conditions
  import opened FanIn

  // canonical: the stored spec is written as the operator encodes it. One that leaves out a struct field is not,
  // because the operator always encodes those.
  datatype Object = Object(uid: nat, version: nat, generation: int, canonical: bool, conditions: seq<Condition>)

  // Where a pass stands; cp is the operator's copy of the object.
  datatype Phase =
    | Idle
    | Fetched(cp: Object)
    | Reconciling(cp: Object, mode: string)
    | Settled(cp: Object)
    | StatusWritten(cp: Object)

  datatype State = State(stored: Option<Object>, nextVersion: nat, nextUid: nat, phase: Phase)

  datatype Label =
    | Create(canonical: bool) | SpecEdit(canonical: bool) | Touch | Delete | Crash
    | Fetch
    | Dispatch(accepted: bool, now: int)
    | Results(arrivals: seq<Reconciliation>)
    | WriteStatus(accepted: bool, now: int)
    | WriteObject(accepted: bool)

  const SUBRECONCILERS := 3

  function ObjectState(o: Object): string { StateOf(o.conditions, o.generation) }

  predicate IsReady(s: State) { s.stored.Some? && ObjectState(s.stored.value) == READY }

  // A write carrying cp is accepted only if nothing was written since cp was read.
  predicate Accepts(s: State, cp: Object, accepted: bool) {
    accepted && s.stored.Some? && s.stored.value.version == cp.version
  }

  // The status part of cp with the given condition set, stored under a new version.
  function StatusStored(s: State, cp: Object, kind: string, now: int): Object
    requires s.stored.Some?
  {
    s.stored.value.(conditions := WithCondition(cp.conditions, kind, cp.generation, now), version := s.nextVersion)
  }

  function Dispatched(s: State, cp: Object, accepted: bool, now: int): State {
    var state := ObjectState(cp);
    if state == READY then s.(phase := Idle)
    else if state == DEPLOYING || state == UPDATING then s.(phase := Reconciling(cp, state))
    else if Accepts(s, cp, accepted) then
      var o := StatusStored(s, cp, DEPLOYING, now);
      s.(stored := Some(o), nextVersion := s.nextVersion + 1, phase := Reconciling(o, DEPLOYING))
    else s.(phase := Idle)
  }

  function Collected(s: State, cp: Object, mode: string, arrivals: seq<Reconciliation>): State {
    if IsFinal(Folded(arrivals)) then s.(phase := Idle)
    else if ObjectState(cp) == mode then s.(phase := Settled(cp))
    else s.(phase := Idle)  // the trailing op.Continue
  }

  function MarkedReady(s: State, cp: Object, accepted: bool, now: int): State {
    if Accepts(s, cp, accepted) then
      var o := StatusStored(s, cp, READY, now);
      s.(stored := Some(o), nextVersion := s.nextVersion + 1, phase := StatusWritten(o))
    else s.(phase := Idle)
  }

  // The object update sends back the whole object. A spec in the operator's encoding stays as it is; any other one
  // is thereby changed, which raises the generation.
  function ObjectWritten(s: State, cp: Object, accepted: bool): State {
    if Accepts(s, cp, accepted) && !s.stored.value.canonical then
      var o := s.stored.value;
      s.(stored := Some(o.(generation := o.generation + 1, version := s.nextVersion, canonical := true)),
         nextVersion := s.nextVersion + 1, phase := Idle)
    else s.(phase := Idle)
  }

  // A label that does not fit the phase changes nothing.
  function Step(s: State, l: Label): State {
    match l
    case Create(canonical) =>
      if s.stored.Some? then s
      else
        s.(stored := Some(Object(s.nextUid, s.nextVersion, 1, canonical, [])),
           nextUid := s.nextUid + 1, nextVersion := s.nextVersion + 1)
    case SpecEdit(canonical) =>
      if s.stored.None? then s
      else
        var o := s.stored.value;
        s.(stored := Some(o.(generation := o.generation + 1, version := s.nextVersion, canonical := canonical)),
           nextVersion := s.nextVersion + 1)
    case Touch =>
      if s.stored.None? then s
      else s.(stored := Some(s.stored.value.(version := s.nextVersion)), nextVersion := s.nextVersion + 1)
    case Delete => s.(stored := None)
    case Crash => s.(phase := Idle)
    case Fetch => if s.phase.Idle? && s.stored.Some? then s.(phase := Fetched(s.stored.value)) else s
    case Dispatch(accepted, now) => if s.phase.Fetched? then Dispatched(s, s.phase.cp, accepted, now) else s
    case Results(arrivals) =>
      if s.phase.Reconciling? && |arrivals| == SUBRECONCILERS then Collected(s, s.phase.cp, s.phase.mode, arrivals) else s
    case WriteStatus(accepted, now) => if s.phase.Settled? then MarkedReady(s, s.phase.cp, accepted, now) else s
    case WriteObject(accepted) => if s.phase.StatusWritten? then ObjectWritten(s, s.phase.cp, accepted) else s
  }

  function Run(s: State, labels: seq<Label>): State {
    if labels == [] then s else Step(Run(s, labels[..|labels| - 1]), labels[|labels| - 1])
  }

  /* ----- invariant ----- */

  // No condition was observed at a generation that the object has not reached.
  predicate Sane(o: Object) {
    forall i :: 0 <= i < |o.conditions| && o.conditions[i].status == IsTrue ==> o.conditions[i].observedGeneration <= o.generation
  }

  predicate PhaseOk(s: State) {
    s.phase != Idle ==>
      && s.phase.cp.version < s.nextVersion
      && (s.stored.Some? && s.stored.value.version == s.phase.cp.version ==> s.stored.value == s.phase.cp)
      && (s.phase.Reconciling? ==> ObjectState(s.phase.cp) == s.phase.mode && s.phase.mode != READY)
      && (s.phase.Settled? ==> ObjectState(s.phase.cp) != READY)
      && (s.phase.StatusWritten? ==> ObjectState(s.phase.cp) == READY)
  }

  predicate Inv(s: State) {
    && (s.stored.Some? ==> s.stored.value.version < s.nextVersion && Sane(s.stored.value))
    && PhaseOk(s)
  }

  lemma SetKeepsSane(o: Object, kind: string, now: int, version: nat)
    requires Sane(o)
    ensures var d := o.(conditions := WithCondition(o.conditions, kind, o.generation, now), version := version);
      Sane(d) && ObjectState(d) == kind
  {
    hide WithCondition;
    WithConditionTrue(o.conditions, kind, o.generation, now);
    SetThenGet(o.conditions, kind, o.generation, now, o.generation);
  }

  lemma InvStep(s: State, l: Label)
    requires Inv(s)
    ensures Inv(Step(s, l))
  {
    hide WithCondition, StateOf, Folded;
    if (l.Dispatch? && s.phase.Fetched?) || (l.WriteStatus? && s.phase.Settled?) {
      if Accepts(s, s.phase.cp, l.accepted) {
        SetKeepsSane(s.phase.cp, DEPLOYING, l.now, s.nextVersion);
        SetKeepsSane(s.phase.cp, READY, l.now, s.nextVersion);
      }
    }
  }

  lemma {:induction false} InvRun(s: State, labels: seq<Label>)
    requires Inv(s)
    ensures Inv(Run(s, labels))
  {
    hide Inv, Step;
    if labels != [] {
      InvRun(s, labels[..|labels| - 1]);
      InvStep(Run(s, labels[..|labels| - 1]), labels[|labels| - 1]);
    }
  }

  // When three non-final results arrive, the operator's copy is still in the state it was dispatched in, so the
  // pass goes on to mark it ready: the trailing op.Continue is unreachable.
  lemma TrailingContinueUnreachable(s: State, labels: seq<Label>, arrivals: seq<Reconciliation>)
    requires Inv(s) && |arrivals| == SUBRECONCILERS && !IsFinal(Folded(arrivals))
    requires Run(s, labels).phase.Reconciling?
    ensures Step(Run(s, labels), Results(arrivals)).phase == Settled(Run(s, labels).phase.cp)
  {
    hide Run, StateOf, Folded;
    InvRun(s, labels);
  }

  // The choice by state of the copy read: nothing for "ready"; a pass for "deploying" and for "updating", with nothing
  // written; and an object in any other state is first stored as "deploying", or left as it is when the write fails.
  lemma ChoiceByState(s: State, l: Label)
    requires Inv(s) && s.phase.Fetched? && l.Dispatch?
    ensures var t, state := Step(s, l), StateOf(s.phase.cp.conditions, s.phase.cp.generation);
      && (state == "ready" ==> t == s.(phase := Idle))
      && (state == "deploying" || state == "updating" ==> t == s.(phase := Reconciling(s.phase.cp, state)))
      && (state !in ["ready", "deploying", "updating"] ==>
            if Accepts(s, s.phase.cp, l.accepted)
            then t.phase == Reconciling(t.stored.value, "deploying") && ObjectState(t.stored.value) == "deploying"
                 && SetEffect(s.phase.cp.conditions, t.stored.value.conditions,
                      FirstOfKind(s.phase.cp.conditions, "deploying"), "deploying", s.phase.cp.generation, l.now)
            else t == s.(phase := Idle))
  {
    hide StateOf, WithCondition, SetEffect;
    WithConditionEffects(s.phase.cp.conditions, "deploying", s.phase.cp.generation, l.now);
    if Accepts(s, s.phase.cp, l.accepted) { SetKeepsSane(s.phase.cp, "deploying", l.now, s.nextVersion); }
  }

  // The status write of a pass whose results were all non-final stores the copy as "ready".
  lemma MarkedAsReady(s: State, l: Label)
    requires Inv(s) && s.phase.Settled? && l.WriteStatus? && Accepts(s, s.phase.cp, l.accepted)
    ensures var t := Step(s, l);
      && t.stored.Some? && t.stored.value.generation == s.stored.value.generation && ObjectState(t.stored.value) == "ready"
      && SetEffect(s.phase.cp.conditions, t.stored.value.conditions,
           FirstOfKind(s.phase.cp.conditions, "ready"), "ready", s.phase.cp.generation, l.now)
  {
    hide StateOf, WithCondition, SetEffect;
    WithConditionEffects(s.phase.cp.conditions, "ready", s.phase.cp.generation, l.now);
    SetKeepsSane(s.phase.cp, "ready", l.now, s.nextVersion);
  }

  /* ----- ready means reconciled ----- */

  // At step i all three sub-reconcilers of a pass over generation g of object uid came back non-final.
  ghost predicate ReconciledAt(s: State, labels: seq<Label>, i: int, uid: nat, g: int) {
    && 0 <= i < |labels| && labels[i].Results? && |labels[i].arrivals| == SUBRECONCILERS
    && (forall r :: r in labels[i].arrivals ==> !IsFinal(r))
    && var phase := Run(s, labels[..i]).phase;
       phase.Reconciling? && phase.cp.uid == uid && phase.cp.generation == g
  }

  ghost predicate Reconciled(s: State, labels: seq<Label>, uid: nat, g: int) {
    exists i :: ReconciledAt(s, labels, i, uid, g)
  }

  lemma ReconciledExtends(s: State, labels: seq<Label>, l: Label, uid: nat, g: int)
    requires Reconciled(s, labels, uid, g)
    ensures Reconciled(s, labels + [l], uid, g)
  {
    hide Run;
    var i :| ReconciledAt(s, labels, i, uid, g);
    assert (labels + [l])[..i] == labels[..i];
    assert ReconciledAt(s, labels + [l], i, uid, g);
  }

  // Invariant along a run from s: what is settled was reconciled, and what is ready was reconciled at its
  // generation, unless it was that object, ready at that generation, from the start.
  ghost predicate Justified(s: State, labels: seq<Label>, t: State) {
    && (t.phase.Settled? ==> Reconciled(s, labels, t.phase.cp.uid, t.phase.cp.generation))
    && (IsReady(t) ==>
          || Reconciled(s, labels, t.stored.value.uid, t.stored.value.generation)
          || (IsReady(s) && t.stored.value.uid == s.stored.value.uid && t.stored.value.generation == s.stored.value.generation))
  }

  lemma {:induction false} StaleReads(cs: seq<Condition>, generation: int)
    requires forall i :: 0 <= i < |cs| && cs[i].status == IsTrue ==> cs[i].observedGeneration < generation
    ensures StateOf(cs, generation) == DEPLOYING || StateOf(cs, generation) == UPDATING
  {
    if cs != [] {
      StaleReads(cs[1..], generation);
    }
  }

  // No step other than a status write makes an object ready.
  lemma ReadyOnlyByWriting(t: State, l: Label)
    requires Inv(t) && IsReady(Step(t, l))
    requires !(l.WriteStatus? && t.phase.Settled? && Accepts(t, t.phase.cp, l.accepted))
    ensures IsReady(t) && Step(t, l).stored.value.uid == t.stored.value.uid
    ensures Step(t, l).stored.value.generation == t.stored.value.generation
  {
    hide WithCondition, Folded;
    if (l.SpecEdit? || l.WriteObject?) && t.stored.Some? {
      StaleReads(t.stored.value.conditions, t.stored.value.generation + 1);
    }
    if l.Dispatch? && t.phase.Fetched? && Accepts(t, t.phase.cp, l.accepted) {
      SetKeepsSane(t.phase.cp, DEPLOYING, l.now, t.nextVersion);
    }
  }

  lemma JustifiedStep(s: State, labels: seq<Label>, l: Label)
    requires Inv(Run(s, labels)) && Justified(s, labels, Run(s, labels))
    ensures Justified(s, labels + [l], Step(Run(s, labels), l))
  {
    hide Run, StateOf, WithCondition, Folded, Reconciled, ReconciledAt;
    var t := Run(s, labels);
    var u := Step(t, l);
    forall uid, g | Reconciled(s, labels, uid, g)
      ensures Reconciled(s, labels + [l], uid, g)
    {
      ReconciledExtends(s, labels, l, uid, g);
    }
    if l.Results? && t.phase.Reconciling? && u.phase.Settled? {
      ResultsReconcile(s, labels, l);
    }
    if IsReady(u) && !(l.WriteStatus? && t.phase.Settled? && Accepts(t, t.phase.cp, l.accepted)) {
      ReadyOnlyByWriting(t, l);
    }
  }

  lemma ResultsReconcile(s: State, labels: seq<Label>, l: Label)
    requires l.Results? && |l.arrivals| == SUBRECONCILERS && !IsFinal(Folded(l.arrivals))
    requires Run(s, labels).phase.Reconciling?
    ensures var cp := Run(s, labels).phase.cp; Reconciled(s, labels + [l], cp.uid, cp.generation)
  {
    hide Run, Folded, Carries;
    var all, cp := labels + [l], Run(s, labels).phase.cp;
    FoldMeaning(l.arrivals);
    assert all[..|labels|] == labels;
    assert ReconciledAt(s, all, |labels|, cp.uid, cp.generation);
  }

  lemma {:induction false} JustifiedRun(s: State, labels: seq<Label>)
    requires Inv(s) && s.phase == Idle
    ensures Justified(s, labels, Run(s, labels))
  {
    hide Justified, Step, Inv;
    if labels != [] {
      var front, l := labels[..|labels| - 1], labels[|labels| - 1];
      JustifiedRun(s, front);
      InvRun(s, front);
      JustifiedStep(s, front, l);
      assert front + [l] == labels;
    } else {
      JustifiedStart(s);
    }
  }

  lemma JustifiedStart(s: State)
    requires s.phase == Idle
    ensures Justified(s, [], s)
  {
    hide StateOf;
  }

  // Ready at generation g means that all three sub-reconcilers succeeded in a pass over generation g of this very
  // object, whatever was edited, deleted, re-created, failed or crashed in between.
  lemma ReadyMeansReconciled(s: State, labels: seq<Label>)
    requires Inv(s) && s.phase == Idle && !IsReady(s)
    requires IsReady(Run(s, labels))
    ensures var o := Run(s, labels).stored.value; Reconciled(s, labels, o.uid, o.generation)
  {
    hide Run, StateOf;
    JustifiedRun(s, labels);
  }

  /* ----- when ready is left ----- */

  // The pass that made the object ready has yet to send it back, and that will change the spec.
  predicate RewritePending(s: State) {
    && s.phase.StatusWritten? && s.stored.Some? && s.stored.value.version == s.phase.cp.version
    && !s.stored.value.canonical
  }

  // Without an edit or a deletion, ready is left exactly when the pending object update changes the spec.
  lemma ReadyLeftIff(s: State, l: Label)
    requires Inv(s) && IsReady(s) && !l.SpecEdit? && !l.Delete?
    ensures IsReady(Step(s, l)) <==> !(RewritePending(s) && l == WriteObject(true))
    ensures IsReady(Step(s, l)) ==> Step(s, l).stored.value.generation == s.stored.value.generation
  {
    hide StateOf, WithCondition, Folded;
    if l.WriteObject? {
      StaleReads(s.stored.value.conditions, s.stored.value.generation + 1);
    }
  }

  // Ready, and no update pending that would end it.
  predicate Steady(s: State) { IsReady(s) && !RewritePending(s) }

  lemma SteadyStep(s: State, l: Label)
    requires Inv(s) && Steady(s) && !l.SpecEdit? && !l.Delete?
    ensures Steady(Step(s, l)) && Step(s, l).stored.value.generation == s.stored.value.generation
  {
    hide StateOf, WithCondition, Folded;
  }

  // From then on the object stays ready without a new generation, through failures, crashes, metadata edits and
  // late writes of passes begun before.
  lemma {:induction false} ReadyStable(s: State, labels: seq<Label>)
    requires Inv(s) && Steady(s)
    requires forall i :: 0 <= i < |labels| ==> !labels[i].SpecEdit? && !labels[i].Delete?
    ensures Steady(Run(s, labels))
    ensures Run(s, labels).stored.value.generation == s.stored.value.generation
  {
    hide Steady, Step, Inv;
    if labels != [] {
      var front := labels[..|labels| - 1];
      ReadyStable(s, front);
      InvRun(s, front);
      SteadyStep(Run(s, front), labels[|labels| - 1]);
    }
  }

  /* ----- convergence ----- */

  // Edits, deletions, metadata edits, crashes, refused status writes, and passes some of whose results are final.
  predicate Disturbing(l: Label) {
    match l
    case Create(_) => true
    case SpecEdit(_) => true
    case Touch => true
    case Delete => true
    case Crash => true
    case Dispatch(accepted, _) => !accepted
    case WriteStatus(accepted, _) => !accepted
    case Results(arrivals) => exists r :: r in arrivals && IsFinal(r)
    case _ => false
  }

  // l is the operator's next step.
  predicate Fitting(s: State, l: Label) {
    match l
    case Fetch => s.phase.Idle? && s.stored.Some?
    case Dispatch(_, _) => s.phase.Fetched?
    case Results(arrivals) => s.phase.Reconciling? && |arrivals| == SUBRECONCILERS
    case WriteStatus(_, _) => s.phase.Settled?
    case WriteObject(_) => s.phase.StatusWritten?
    case _ => false
  }

  // There is nothing left to do: the object is ready for good, or gone with no pass under way.
  predicate AtRest(s: State) { Steady(s) || (s.stored.None? && s.phase.Idle?) }

  const WORST := 12

  // A bound on the undisturbed operator steps before rest. A spec not in the operator's encoding costs a second
  // pass; a pass over a copy that is out of date is wasted.
  function Distance(s: State): (d: nat)
    ensures d <= WORST
  {
    var left := match s.phase case Idle => 0 case Fetched(_) => 3 case Reconciling(_, _) => 2 case _ => 1;
    if AtRest(s) then 0
    else if s.stored.None? then left
    else
      var again := if s.stored.value.canonical then 0 else 5;
      if s.phase.Idle? then 4 + again
      else if s.stored.value.version != s.phase.cp.version then left + 4 + again
      else if s.phase.StatusWritten? then 5
      else left + again
  }

  lemma RestIff(s: State)
    requires Inv(s)
    ensures Distance(s) == 0 <==> AtRest(s)
  {
    hide StateOf;
  }

  lemma CollectsIff(arrivals: seq<Reconciliation>)
    ensures IsFinal(Folded(arrivals)) <==> exists r :: r in arrivals && IsFinal(r)
  {
    hide Folded;
    FoldMeaning(arrivals);
  }

  // An undisturbed step of the operator away from rest brings it closer; rest is kept.
  lemma StepCloser(s: State, l: Label)
    requires Inv(s) && !Disturbing(l) && Fitting(s, l)
    ensures AtRest(s) ==> AtRest(Step(s, l))
    ensures !AtRest(s) ==> Distance(Step(s, l)) < Distance(s)
  {
    hide StateOf, WithCondition, Folded;
    if l.Results? { CollectsIff(l.arrivals); }
    if l.Dispatch? && Accepts(s, s.phase.cp, true) {
      SetKeepsSane(s.phase.cp, DEPLOYING, l.now, s.nextVersion);
    }
    if l.WriteStatus? && Accepts(s, s.phase.cp, true) {
      SetKeepsSane(s.phase.cp, READY, l.now, s.nextVersion);
    }
  }

  lemma MisfitStays(s: State, l: Label)
    requires !Disturbing(l) && !Fitting(s, l)
    ensures Step(s, l) == s
  {
  }

  function Disturbances(labels: seq<Label>): nat {
    if labels == [] then 0
    else Disturbances(labels[..|labels| - 1]) + if Disturbing(labels[|labels| - 1]) then 1 else 0
  }

  // The undisturbed operator steps along a run: all of them, and those taken away from rest.
  function Steps(s: State, labels: seq<Label>): nat {
    if labels == [] then 0
    else
      var front, l := labels[..|labels| - 1], labels[|labels| - 1];
      Steps(s, front) + if !Disturbing(l) && Fitting(Run(s, front), l) then 1 else 0
  }

  function Work(s: State, labels: seq<Label>): nat {
    if labels == [] then 0
    else
      var front, l := labels[..|labels| - 1], labels[|labels| - 1];
      Work(s, front) + if !Disturbing(l) && Fitting(Run(s, front), l) && !AtRest(Run(s, front)) then 1 else 0
  }

  // Over any run whatever, the work done and still to do is bounded by the work at the start and the number of
  // disturbances: each of them costs at most one more round.
  lemma {:induction false} WorkBounded(s: State, labels: seq<Label>)
    requires Inv(s)
    ensures Work(s, labels) + Distance(Run(s, labels)) <= Distance(s) + WORST * Disturbances(labels)
  {
    hide Step, Inv, Distance, AtRest, Disturbing, Fitting;
    if labels != [] {
      var front, l := labels[..|labels| - 1], labels[|labels| - 1];
      var t := Run(s, front);
      WorkBounded(s, front);
      InvRun(s, front);
      DistanceStep(t, l);
    }
  }

  lemma DistanceStep(s: State, l: Label)
    requires Inv(s)
    ensures Distance(Step(s, l)) <= WORST
    ensures !Disturbing(l) ==>
      Distance(Step(s, l)) + (if Fitting(s, l) && !AtRest(s) then 1 else 0) <= Distance(s)
  {
    hide Step, Inv, Distance, AtRest, Disturbing, Fitting;
    DistanceBound(Step(s, l));
    InvStep(s, l);
    RestIff(s);
    RestIff(Step(s, l));
    if !Disturbing(l) {
      if Fitting(s, l) { StepCloser(s, l); } else { MisfitStays(s, l); }
    }
  }

  lemma DistanceBound(s: State)
    ensures Distance(s) <= WORST
  {
  }

  lemma {:induction false} AllStepsAreWork(s: State, labels: seq<Label>)
    requires forall i :: 0 <= i < |labels| ==> !AtRest(Run(s, labels[..i]))
    ensures Steps(s, labels) == Work(s, labels)
  {
    hide AtRest, Run, Step, Disturbing, Fitting;
    if labels != [] {
      var front := labels[..|labels| - 1];
      assert forall i :: 0 <= i <= |front| ==> front[..i] == labels[..i];
      AllStepsAreWork(s, front);
    }
  }

  // A fair run, one in which the operator keeps taking steps, comes to rest after finitely many disturbances.
  lemma FairRunRests(s: State, labels: seq<Label>)
    requires Inv(s) && Steps(s, labels) > WORST * (Disturbances(labels) + 1)
    ensures exists i :: 0 <= i < |labels| && AtRest(Run(s, labels[..i]))
  {
    hide AtRest, Run, Inv, Distance, Steps, Work, Disturbances;
    if forall i :: 0 <= i < |labels| ==> !AtRest(Run(s, labels[..i])) {
      AllStepsAreWork(s, labels);
      WorkBounded(s, labels);
      DistanceBound(s);
    }
  }

  // Undisturbed, in whatever order steps are offered: after Distance(s) of them there is rest, for good.
  lemma {:induction false} UndisturbedRests(s: State, labels: seq<Label>)
    requires Inv(s) && Disturbances(labels) == 0 && Steps(s, labels) >= Distance(s)
    ensures AtRest(Run(s, labels))
  {
    hide Inv, Step, AtRest, Distance, Disturbing, Fitting;
    RestIff(Run(s, labels)) by { InvRun(s, labels); }
    RestOrWork(s, labels);
    WorkBounded(s, labels);
  }

  lemma {:induction false} RestOrWork(s: State, labels: seq<Label>)
    requires Inv(s) && Disturbances(labels) == 0
    ensures AtRest(Run(s, labels)) || Steps(s, labels) == Work(s, labels)
  {
    hide Inv, Step, AtRest, Distance, Disturbing, Fitting;
    if labels != [] {
      var front, l := labels[..|labels| - 1], labels[|labels| - 1];
      RestOrWork(s, front);
      InvRun(s, front);
      if Fitting(Run(s, front), l) { StepCloser(Run(s, front), l); } else { MisfitStays(Run(s, front), l); }
    }
  }

  // While the object exists or a pass is under way, there is always a next step that nothing disturbs.
  lemma NeverStuck(s: State)
    requires s.stored.Some? || !s.phase.Idle?
    ensures exists l :: !Disturbing(l) && Fitting(s, l)
  {
    var l := match s.phase
      case Idle => Fetch
      case Fetched(_) => Dispatch(true, 0)
      case Reconciling(_, _) => Results([NOTHING, NOTHING, NOTHING])
      case Settled(_) => WriteStatus(true, 0)
      case StatusWritten(_) => WriteObject(true);
    assert !Disturbing(l) && Fitting(s, l);
  }

  lemma {:induction false} UndisturbedKeepsObject(s: State, labels: seq<Label>)
    requires Disturbances(labels) == 0 && s.stored.Some?
    ensures Run(s, labels).stored.Some?
  {
    hide StateOf, WithCondition, Folded;
    if labels != [] {
      UndisturbedKeepsObject(s, labels[..|labels| - 1]);
    }
  }

  // After any finite history of edits, failures and crashes, whatever the conditions list holds: once nothing
  // disturbs the operator any more and it takes WORST steps, an existing object is ready and stays so.
  lemma Converges(s: State, history: seq<Label>, labels: seq<Label>)
    requires Inv(s) && Run(s, history).stored.Some?
    requires Disturbances(labels) == 0 && Steps(Run(s, history), labels) >= WORST
    ensures Steady(Run(Run(s, history), labels))
  {
    hide Run, Inv, Distance, Steady, Steps, Disturbances;
    InvRun(s, history);
    DistanceBound(Run(s, history));
    UndisturbedRests(Run(s, history), labels);
    UndisturbedKeepsObject(Run(s, history), labels);
  }
}
