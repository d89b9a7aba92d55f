/** One call of Reconcile on the operator's own fields, with others acting on the object between its steps: it takes
    exactly the steps of the state machine. */
module ControlPlaneReconciler {
  import opened Wrappers
  import opened Conditions
  import opened FanIn
  import opened ControlPlaneMachine

  datatype ReconcileFunc = ReconcileReady | ReconcileDeploying | ReconcileUpdating

  const END := Reconciliation(None, true, false, 0)

  function WithError(text: string): Reconciliation { Reconciliation(Some(text), false, false, 0) }

  // What the environment decides during one pass: what others do before each of the operator's five steps, the
  // results in arrival order, the writes it accepts, the clock.
  datatype Answers = Answers(
    others: seq<seq<Label>>,
    arrivals: seq<Reconciliation>,
    migrationAccepted: bool, migrationTime: int,
    statusAccepted: bool, statusTime: int,
    objectAccepted: bool
  )
  {
    predicate Ok() {
      && |arrivals| == SUBRECONCILERS && |others| == 5
      && forall i, j :: 0 <= i < 5 && 0 <= j < |others[i]| ==> ByOthers(others[i][j])
    }
  }

  predicate ByOthers(l: Label) { l.Create? || l.SpecEdit? || l.Touch? || l.Delete? }

  function PassLabels(a: Answers): seq<Label>
    requires a.Ok()
  {
    a.others[0] + [Fetch] +
    (a.others[1] + [Dispatch(a.migrationAccepted, a.migrationTime)] +
     (a.others[2] + [Results(a.arrivals)] +
      (a.others[3] + [WriteStatus(a.statusAccepted, a.statusTime)] +
       (a.others[4] + [WriteObject(a.objectAccepted)]))))
  }

  // What others do, and then one step.
  function Slot(s: State, others: seq<Label>, l: Label): State { Step(Run(s, others), l) }

  class Reconciler {
    var stored: Option<Object>
    var nextVersion: nat
    var nextUid: nat
    var cp: Object

    function Snapshot(phase: Phase): State
      reads this
    {
      State(stored, nextVersion, nextUid, phase)
    }

    constructor (s: State, cp: Object)
      ensures Snapshot(Idle) == s.(phase := Idle) && this.cp == cp
    {
      stored, nextVersion, nextUid := s.stored, s.nextVersion, s.nextUid;
      this.cp := cp;
    }

    /* ----- others ----- */

    method Others(labels: seq<Label>, ghost phase: Phase)
      requires forall j :: 0 <= j < |labels| ==> ByOthers(labels[j])
      modifies this
      ensures cp == old(cp) && Snapshot(phase) == Run(old(Snapshot(phase)), labels)
    {
      hide Run;
      RunNothing(Snapshot(phase));
      assert labels[..0] == [];
      for i := 0 to |labels|
        invariant cp == old(cp) && Snapshot(phase) == Run(old(Snapshot(phase)), labels[..i])
      {
        assert labels[..i + 1][..i] == labels[..i];
        RunLast(old(Snapshot(phase)), labels[..i + 1]);
        match labels[i]
        case Create(canonical) =>
          if stored.None? {
            stored := Some(Object(nextUid, nextVersion, 1, canonical, []));
            nextUid, nextVersion := nextUid + 1, nextVersion + 1;
          }
        case SpecEdit(canonical) =>
          if stored.Some? {
            var o := stored.value;
            stored := Some(o.(generation := o.generation + 1, version := nextVersion, canonical := canonical));
            nextVersion := nextVersion + 1;
          }
        case Touch =>
          if stored.Some? {
            stored := Some(stored.value.(version := nextVersion));
            nextVersion := nextVersion + 1;
          }
        case _ =>
          stored := None;
      }
      assert labels[..|labels|] == labels;
    }

    // A pass that is over early: others act on, and the steps left out would find no pass under way.
    method Over(a: Answers, from: nat)
      requires a.Ok() && 2 <= from <= 5
      modifies this
      ensures from == 2 ==> Snapshot(Idle) == LastSlots(old(Snapshot(Idle)), a)
      ensures from == 3 ==> Snapshot(Idle) == WritingSlots(old(Snapshot(Idle)), a)
      ensures from == 4 ==> Snapshot(Idle) == Slot(old(Snapshot(Idle)), a.others[4], WriteObject(a.objectAccepted))
      ensures from == 5 ==> Snapshot(Idle) == old(Snapshot(Idle))
    {
      hide Run, Step;
      if from <= 2 {
        IdleSlot(Snapshot(Idle), a.others[2], Results(a.arrivals));
        Others(a.others[2], Idle);
      }
      if from <= 3 {
        IdleSlot(Snapshot(Idle), a.others[3], WriteStatus(a.statusAccepted, a.statusTime));
        Others(a.others[3], Idle);
      }
      if from <= 4 {
        IdleSlot(Snapshot(Idle), a.others[4], WriteObject(a.objectAccepted));
        Others(a.others[4], Idle);
      }
    }

    /* ----- the operator ----- */

    // Stores the status of cp unless something was written since cp was read; cp becomes what was stored.
    method StatusUpdate(accepted: bool) returns (ok: bool)
      modifies this
      ensures nextUid == old(nextUid)
      ensures ok <==> Accepts(old(Snapshot(Idle)), old(cp), accepted)
      ensures ok ==> cp == old(stored).value.(conditions := old(cp).conditions, version := old(nextVersion))
      ensures ok ==> stored == Some(cp) && nextVersion == old(nextVersion) + 1
      ensures !ok ==> cp == old(cp) && stored == old(stored) && nextVersion == old(nextVersion)
    {
      ok := accepted && stored.Some? && stored.value.version == cp.version;
      if ok {
        cp := stored.value.(conditions := cp.conditions, version := nextVersion);
        stored, nextVersion := Some(cp), nextVersion + 1;
      }
    }

    // Sends the whole object back in the operator's encoding.
    method ObjectUpdate(accepted: bool) returns (ok: bool)
      modifies this
      ensures Snapshot(Idle) == ObjectWritten(old(Snapshot(Idle)), old(cp), accepted)
      ensures ok <==> Accepts(old(Snapshot(Idle)), old(cp), accepted)
    {
      ok := accepted && stored.Some? && stored.value.version == cp.version;
      if ok && !stored.value.canonical {
        cp := stored.value.(generation := stored.value.generation + 1, version := nextVersion, canonical := true);
        stored, nextVersion := Some(cp), nextVersion + 1;
      }
    }

    // None is the error of the status write that migrates an unknown state.
    method GetReconcileFunc(accepted: bool, now: int) returns (f: Option<ReconcileFunc>)
      modifies this
      ensures var t := Dispatched(old(Snapshot(Idle)), old(cp), accepted, now);
        && (f.Some? && f.value != ReconcileReady <==> t.phase.Reconciling?)
        && (t.phase.Reconciling? ==> t.phase.cp == cp)
        && (t.phase.Reconciling? ==> t.phase.mode == if f == Some(ReconcileDeploying) then DEPLOYING else UPDATING)
        && (!t.phase.Reconciling? ==> t.phase == Idle)
        && Snapshot(t.phase) == t
      ensures f == Some(ReconcileReady) <==> ObjectState(old(cp)) == READY
    {
      hide StateOf, WithCondition;
      if ObjectState(cp) == READY { return Some(ReconcileReady); }
      if ObjectState(cp) == DEPLOYING { return Some(ReconcileDeploying); }
      if ObjectState(cp) == UPDATING { return Some(ReconcileUpdating); }
      cp := cp.(conditions := WithCondition(cp.conditions, DEPLOYING, cp.generation, now));
      var ok := StatusUpdate(accepted);
      return if ok then Some(ReconcileDeploying) else None;
    }

    // The writes that end a pass whose results were all non-final.
    method MarkReady(a: Answers) returns (recon: Reconciliation)
      requires a.Ok() && Inv(Snapshot(Settled(cp)))
      modifies this
      ensures Snapshot(Idle) == WritingSlots(old(Snapshot(Settled(cp))), a)
      ensures var marked := Slot(old(Snapshot(Settled(cp))), a.others[3], WriteStatus(a.statusAccepted, a.statusTime));
        && (recon == END <==> BothWritten(marked, a))
        && (recon != END ==> recon.err.Some?)
        && (recon == END ==> IsReady(marked))
      ensures IsFinal(recon)
    {
      hide StateOf, WithCondition, Run;
      InvRun(Snapshot(Settled(cp)), a.others[3]);
      OthersKeepPhase(Snapshot(Settled(cp)), a.others[3]);
      Others(a.others[3], Settled(cp));
      MarkedReads(Snapshot(Settled(cp)), cp, a.statusAccepted, a.statusTime);
      cp := cp.(conditions := WithCondition(cp.conditions, READY, cp.generation, a.statusTime));
      var ok := StatusUpdate(a.statusAccepted);
      if !ok {
        Over(a, 4);
        return WithError("status update failed");
      }
      Others(a.others[4], StatusWritten(cp));
      ok := ObjectUpdate(a.objectAccepted);
      if !ok {
        return WithError("object update failed");
      }
      return END;
    }

    // reconcileDeploying and reconcileUpdating are the same code for two states.
    method ReconcileIn(mode: string, a: Answers) returns (recon: Reconciliation)
      requires a.Ok() && Inv(Snapshot(Reconciling(cp, mode)))
      modifies this
      ensures Snapshot(Idle) == LastSlots(old(Snapshot(Reconciling(cp, mode))), a)
      ensures IsFinal(recon)
      ensures (exists r :: r in a.arrivals && (r.err.Some? || r.end || r.requeue)) ==> Carries(recon, a.arrivals)
      ensures (forall r :: r in a.arrivals ==> r.err.None? && !r.end && !r.requeue) ==>
        var marked := Marked(old(Snapshot(Reconciling(cp, mode))), a);
        && (recon == END <==> BothWritten(marked, a))
        && (recon != END ==> recon.err.Some?)
        && (recon == END ==> IsReady(marked))
    {
      hide StateOf, WithCondition, Folded, Run;
      InvRun(Snapshot(Reconciling(cp, mode)), a.others[2]);
      OthersKeepPhase(Snapshot(Reconciling(cp, mode)), a.others[2]);
      Others(a.others[2], Reconciling(cp, mode));
      var finRecon := Collect(a.arrivals);
      if IsFinal(finRecon) {
        Over(a, 3);
        FoldMeaning(a.arrivals);
        return finRecon;
      }
      FoldMeaning(a.arrivals);
      recon := MarkReady(a);
    }

    // Fetch, choose by state, reconcile.
    method Reconcile(a: Answers) returns (recon: Reconciliation)
      requires a.Ok() && Inv(Snapshot(Idle))
      modifies this
      ensures Snapshot(Idle) == Run(old(Snapshot(Idle)), PassLabels(a))
      ensures Reported(old(Snapshot(Idle)), a, recon)
    {
      hide StateOf, WithCondition, Folded, Run, Dispatched, LastSlots, Inv;
      PassSlots(Snapshot(Idle), a);
      Others(a.others[0], Idle);
      InvRun(old(Snapshot(Idle)), a.others[0]);
      if stored.None? {
        IdleSlot(Snapshot(Idle), a.others[1], Dispatch(a.migrationAccepted, a.migrationTime));
        Others(a.others[1], Idle);
        Over(a, 2);
        return END;
      }
      cp := stored.value;
      ghost var fetched := Snapshot(Fetched(cp));
      InvStep(Snapshot(Idle), Fetch);
      Others(a.others[1], Fetched(cp));
      InvRun(fetched, a.others[1]);
      ghost var before := Snapshot(Fetched(cp));
      InvStep(before, Dispatch(a.migrationAccepted, a.migrationTime));
      OthersKeepPhase(fetched, a.others[1]);
      PhaseForgotten(Snapshot(Idle), cp, a.migrationAccepted, a.migrationTime);
      var f := GetReconcileFunc(a.migrationAccepted, a.migrationTime);
      if f.None? {
        Over(a, 2);
        return WithError("status migration failed");
      }
      if f.value == ReconcileReady {
        Over(a, 2);
        return END;
      }
      var mode := if f.value == ReconcileDeploying then DEPLOYING else UPDATING;
      recon := ReconcileIn(mode, a);
    }
  }

  /* ----- the parts of a pass ----- */

  // Up to the choice by state.
  function Chosen(s: State, a: Answers): State
    requires a.Ok()
  {
    Slot(Slot(s, a.others[0], Fetch), a.others[1], Dispatch(a.migrationAccepted, a.migrationTime))
  }

  // From there to the status write.
  function Marked(s: State, a: Answers): State
    requires a.Ok()
  {
    Slot(Slot(s, a.others[2], Results(a.arrivals)), a.others[3], WriteStatus(a.statusAccepted, a.statusTime))
  }

  // The status write went through, and so will the object write.
  predicate BothWritten(marked: State, a: Answers)
    requires a.Ok()
  {
    marked.phase.StatusWritten? && Accepts(Run(marked, a.others[4]), marked.phase.cp, a.objectAccepted)
  }

  // What Reconcile reports: the end for an object that is gone or ready; an error when the migrating write fails; what
  // the results carry when some result is final; otherwise the end if both writes go through, and an error if not.
  ghost predicate Reported(s: State, a: Answers, recon: Reconciliation)
    requires a.Ok()
  {
    var fetched, chosen := Run(s, a.others[0]), Chosen(s, a);
    if fetched.stored.None? || IsReady(fetched) then recon == Reconciliation(None, true, false, 0)
    else if !chosen.phase.Reconciling? then recon.err.Some?
    else if exists r :: r in a.arrivals && (r.err.Some? || r.end || r.requeue) then Carries(recon, a.arrivals)
    else
      && (BothWritten(Marked(chosen, a), a) ==>
            recon == Reconciliation(None, true, false, 0) && IsReady(Marked(chosen, a)))
      && (!BothWritten(Marked(chosen, a), a) ==> recon.err.Some?)
  }

  // Both writes.
  function WritingSlots(s: State, a: Answers): State
    requires a.Ok()
  {
    Slot(Slot(s, a.others[3], WriteStatus(a.statusAccepted, a.statusTime)), a.others[4], WriteObject(a.objectAccepted))
  }

  // From the results to the end.
  function LastSlots(s: State, a: Answers): State
    requires a.Ok()
  {
    WritingSlots(Slot(s, a.others[2], Results(a.arrivals)), a)
  }

  lemma PhaseForgotten(s: State, cp: Object, accepted: bool, now: int)
    ensures Dispatched(s.(phase := Fetched(cp)), cp, accepted, now) == Dispatched(s, cp, accepted, now)
  {
    hide StateOf, WithCondition;
  }

  lemma MarkedReads(s: State, cp: Object, accepted: bool, now: int)
    ensures Accepts(s, cp, accepted) ==> StatusStored(s, cp, READY, now).version == s.nextVersion
    ensures Accepts(s, cp, accepted) && s.stored.value.generation == cp.generation ==>
      IsReady(MarkedReady(s, cp, accepted, now))
  {
    hide WithCondition;
    SetThenGet(cp.conditions, READY, cp.generation, now, cp.generation);
  }

  lemma {:induction false} OthersKeepPhase(s: State, labels: seq<Label>)
    requires forall j :: 0 <= j < |labels| ==> ByOthers(labels[j])
    ensures Run(s, labels).phase == s.phase
  {
    if labels != [] {
      OthersKeepPhase(s, labels[..|labels| - 1]);
    }
  }

  // With no pass under way, only what others do happens.
  lemma IdleSlot(s: State, others: seq<Label>, l: Label)
    requires s.phase.Idle? && forall j :: 0 <= j < |others| ==> ByOthers(others[j])
    requires l.Dispatch? || l.Results? || l.WriteStatus? || l.WriteObject?
    ensures Slot(s, others, l) == Run(s, others) && Run(s, others).phase.Idle?
  {
    hide Run;
    OthersKeepPhase(s, others);
  }

  lemma {:induction false} RunConcat(s: State, a: seq<Label>, b: seq<Label>)
    ensures Run(s, a + b) == Run(Run(s, a), b)
  {
    hide Step;
    if b == [] {
      assert a + b == a;
    } else {
      RunConcat(s, a, b[..|b| - 1]);
      assert (a + b)[..|a + b| - 1] == a + b[..|b| - 1];
    }
  }

  lemma RunLast(s: State, labels: seq<Label>)
    requires labels != []
    ensures Run(s, labels) == Step(Run(s, labels[..|labels| - 1]), labels[|labels| - 1])
  {
  }

  lemma RunNothing(s: State)
    ensures Run(s, []) == s
  {
  }

  lemma RunSlot(s: State, others: seq<Label>, l: Label, rest: seq<Label>)
    ensures Run(s, others + [l] + rest) == Run(Slot(s, others, l), rest)
  {
    hide Run, Step;
    RunConcat(s, others + [l], rest);
    RunLast(s, others + [l]);
    assert (others + [l])[..|others + [l]| - 1] == others;
  }

  lemma PassSlots(s: State, a: Answers)
    requires a.Ok()
    ensures Run(s, PassLabels(a)) == LastSlots(Chosen(s, a), a)
  {
    hide Run, Step, Slot;
    var r4 := a.others[4] + [WriteObject(a.objectAccepted)];
    var r3 := a.others[3] + [WriteStatus(a.statusAccepted, a.statusTime)] + r4;
    var r2 := a.others[2] + [Results(a.arrivals)] + r3;
    var r1 := a.others[1] + [Dispatch(a.migrationAccepted, a.migrationTime)] + r2;
    var s1 := Slot(s, a.others[0], Fetch);
    var s2 := Slot(s1, a.others[1], Dispatch(a.migrationAccepted, a.migrationTime));
    var s3 := Slot(s2, a.others[2], Results(a.arrivals));
    var s4 := Slot(s3, a.others[3], WriteStatus(a.statusAccepted, a.statusTime));
    RunSlot(s, a.others[0], Fetch, r1);
    RunSlot(s1, a.others[1], Dispatch(a.migrationAccepted, a.migrationTime), r2);
    RunSlot(s2, a.others[2], Results(a.arrivals), r3);
    RunSlot(s3, a.others[3], WriteStatus(a.statusAccepted, a.statusTime), r4);
    RunSlot(s4, a.others[4], WriteObject(a.objectAccepted), []);
    RunNothing(Slot(s4, a.others[4], WriteObject(a.objectAccepted)));
    assert r4 + [] == r4;
  }
}
