/** Collecting the results of the concurrent sub-reconcilers, in whatever order they arrive. */
module FanIn {
  import opened Wrappers
  import opened GoStrings

  datatype Reconciliation = Reconciliation(err: Option<string>, end: bool, requeue: bool, delay: int)

  const NOTHING := Reconciliation(None, false, false, 0)

  predicate IsFinal(r: Reconciliation) { r.err.Some? || r.end || r.requeue }

  function Merged(fin: Reconciliation, r: Reconciliation): Reconciliation {
    Reconciliation(
      if r.err.None? then fin.err
      else if fin.err.None? then r.err
      else Some(fin.err.value + "\n" + r.err.value),
      fin.end || r.end,
      fin.requeue || r.requeue,
      if r.requeue && r.delay > fin.delay then r.delay else fin.delay)
  }

  function Folded(rs: seq<Reconciliation>): Reconciliation {
    if rs == [] then NOTHING else Merged(Folded(rs[..|rs| - 1]), rs[|rs| - 1])
  }

  // The loop over the channel; arrivals are the results in the order received.
  method Collect(arrivals: seq<Reconciliation>) returns (fin: Reconciliation)
    ensures fin == Folded(arrivals)
  {
    fin := NOTHING;
    for i := 0 to |arrivals|
      invariant fin == Folded(arrivals[..i])
    {
      assert arrivals[..i + 1][..i] == arrivals[..i];
      var recon := arrivals[i];
      if recon.err.Some? {
        if fin.err.None? {
          fin := fin.(err := recon.err);
        } else {
          fin := fin.(err := Some(fin.err.value + "\n" + recon.err.value));
        }
      }
      if recon.end {
        fin := fin.(end := true);
      }
      if recon.requeue {
        fin := fin.(requeue := true);
        if recon.delay > fin.delay {
          fin := fin.(delay := recon.delay);
        }
      }
    }
    assert arrivals[..|arrivals|] == arrivals;
  }

  // The error texts of the results that failed, in order.
  function Errors(rs: seq<Reconciliation>): seq<string> {
    if rs == [] then []
    else
      var last := rs[|rs| - 1];
      Errors(rs[..|rs| - 1]) + if last.err.Some? then [last.err.value] else []
  }

  lemma {:induction false} FoldFlags(rs: seq<Reconciliation>)
    ensures Folded(rs).end <==> exists r :: r in rs && r.end
    ensures Folded(rs).requeue <==> exists r :: r in rs && r.requeue
  {
    if rs != [] {
      var front, last := rs[..|rs| - 1], rs[|rs| - 1];
      FoldFlags(front);
      assert rs == front + [last];
    }
  }

  lemma {:induction false} FoldErrors(rs: seq<Reconciliation>)
    ensures Folded(rs).err == if Errors(rs) == [] then None else Some(Join(Errors(rs), "\n"))
  {
    if rs != [] {
      var front, last := rs[..|rs| - 1], rs[|rs| - 1];
      FoldErrors(front);
      if last.err.Some? {
        if Errors(front) != [] {
          JoinAppend(Errors(front), last.err.value, "\n");
        } else {
          assert Errors(rs) == [last.err.value];
        }
      } else {
        assert Errors(rs) == Errors(front);
      }
    }
  }

  lemma {:induction false} FoldDelay(rs: seq<Reconciliation>)
    ensures var d := Folded(rs).delay;
      && d >= 0
      && (forall r :: r in rs && r.requeue ==> r.delay <= d)
      && (d == 0 || exists r :: r in rs && r.requeue && r.delay == d)
  {
    if rs != [] {
      var front, last := rs[..|rs| - 1], rs[|rs| - 1];
      FoldDelay(front);
      assert rs == front + [last];
    }
  }

  lemma {:induction false} ErrorsIff(rs: seq<Reconciliation>)
    ensures Errors(rs) != [] <==> exists r :: r in rs && r.err.Some?
  {
    if rs != [] {
      var front, last := rs[..|rs| - 1], rs[|rs| - 1];
      ErrorsIff(front);
      assert rs == front + [last];
    }
  }

  // fin carries exactly what the results rs do: each flag is set iff some result set it, the delay is the largest among
  // the requeuing results (and not below zero), and every error text appears once, in order of arrival.
  ghost predicate Carries(fin: Reconciliation, rs: seq<Reconciliation>) {
    && (fin.end <==> exists r :: r in rs && r.end)
    && (fin.requeue <==> exists r :: r in rs && r.requeue)
    && (fin.err.Some? <==> exists r :: r in rs && r.err.Some?)
    && (fin.err.Some? ==> fin.err.value == Join(Errors(rs), "\n"))
    && fin.delay >= 0
    && (forall r :: r in rs && r.requeue ==> r.delay <= fin.delay)
    && (fin.delay == 0 || exists r :: r in rs && r.requeue && r.delay == fin.delay)
  }

  lemma FoldMeaning(rs: seq<Reconciliation>)
    ensures Carries(Folded(rs), rs)
    ensures IsFinal(Folded(rs)) <==> exists r :: r in rs && (r.err.Some? || r.end || r.requeue)
  {
    hide Folded, Errors, Join;
    FoldFlags(rs);
    FoldErrors(rs);
    FoldDelay(rs);
    ErrorsIff(rs);
  }

  lemma {:induction false} ErrorsAppend(a: seq<Reconciliation>, b: seq<Reconciliation>)
    ensures Errors(a + b) == Errors(a) + Errors(b)
  {
    if b == [] {
      assert a + b == a;
    } else {
      ErrorsAppend(a, b[..|b| - 1]);
      assert (a + b)[..|a + b| - 1] == a + b[..|b| - 1];
    }
  }

  // Taking one result out takes out its error text and no other.
  lemma ErrorsWithout(a: seq<Reconciliation>, r: Reconciliation, b: seq<Reconciliation>)
    ensures multiset(Errors(a + [r] + b)) == multiset(Errors(a + b)) + multiset(Errors([r]))
  {
    hide Errors;
    ErrorsAppend(a + [r], b);
    ErrorsAppend(a, [r]);
    ErrorsAppend(a, b);
  }

  lemma CancelOne(x: multiset<Reconciliation>, y: multiset<Reconciliation>, r: Reconciliation)
    requires x + multiset{r} == y + multiset{r}
    ensures x == y
  {
    assert x == x + multiset{r} - multiset{r};
    assert y == y + multiset{r} - multiset{r};
  }

  lemma {:induction false} ErrorsPermute(a: seq<Reconciliation>, b: seq<Reconciliation>)
    requires multiset(a) == multiset(b)
    ensures multiset(Errors(a)) == multiset(Errors(b))
    decreases |a|
  {
    hide Errors;
    if a == [] {
      assert |multiset(b)| == 0 && b == [];
    } else {
      var front, last := a[..|a| - 1], a[|a| - 1];
      assert a == front + [last] + [];
      assert last in multiset(b);
      var j :| 0 <= j < |b| && b[j] == last;
      assert b == b[..j] + [last] + b[j + 1..];
      assert multiset(a) == multiset(front) + multiset{last};
      assert multiset(b) == multiset(b[..j] + b[j + 1..]) + multiset{last};
      CancelOne(multiset(front), multiset(b[..j] + b[j + 1..]), last);
      ErrorsPermute(front, b[..j] + b[j + 1..]);
      ErrorsWithout(front, last, []);
      assert front + [] == front;
      ErrorsWithout(b[..j], last, b[j + 1..]);
    }
  }

  lemma SameMembers(a: seq<Reconciliation>, b: seq<Reconciliation>, r: Reconciliation)
    requires multiset(a) == multiset(b)
    ensures r in a <==> r in b
  {
    assert r in a <==> r in multiset(a);
    assert r in b <==> r in multiset(b);
  }

  // Every arrival order gives the same flags and delay and the same error texts up to their order.
  lemma ArrivalOrderIrrelevant(a: seq<Reconciliation>, b: seq<Reconciliation>)
    requires multiset(a) == multiset(b)
    ensures var x, y := Folded(a), Folded(b);
      && x.end == y.end && x.requeue == y.requeue && x.delay == y.delay
      && (x.err.Some? <==> y.err.Some?) && (IsFinal(x) <==> IsFinal(y))
    ensures multiset(Errors(a)) == multiset(Errors(b))
  {
    hide Folded, Errors, Join, IsFinal;
    ErrorsPermute(a, b);
    forall r
      ensures r in a <==> r in b
    {
      SameMembers(a, b, r);
    }
    FoldMeaning(a);
    FoldMeaning(b);
    assert Errors(a) == [] <==> Errors(b) == [] by {
      assert |multiset(Errors(a))| == |Errors(a)| && |multiset(Errors(b))| == |Errors(b)|;
    }
  }
}
