/** The order of completion that the engine keeps: nothing leaves `pending` before its upstreams finish. */
module Settlement {
  import opened ConductionGraph
  import opened CorrelationPlan
  import opened Conveyance
  import opened Conduct
  import opened Confluence

  /** Every process past pending has all its direct upstreams finished. */
  ghost predicate SettledCores(plan: Plan, c: Cores) {
    forall i :: 0 <= i < |plan.processes| && plan.processes[i].id in c && !c[plan.processes[i].id].status.Pending?
      ==> UpstreamsFinished(plan, c, i)
  }

  ghost predicate UpstreamsFinished(plan: Plan, c: Cores, i: nat)
    requires i < |plan.processes|
  {
    forall u :: u in plan.processes[i].conduction ==> Settles(plan, c, u)
  }

  ghost predicate Settled(plan: Plan, rows: Rows) {
    SettledCores(plan, CoresOf(rows))
  }

  /** Then all its transitive upstreams are finished too. */
  lemma {:induction false} AncestorsFinished(plan: Plan, c: Cores, i: nat, p: seq<string>)
    requires Distinct(plan) && SettledCores(plan, c) && i < |plan.processes| && UpstreamsFinished(plan, c, i)
    requires |p| >= 2 && p[0] == plan.processes[i].effectorId && Walk(NodesOf(plan), p)
    ensures Settles(plan, c, p[|p| - 1])
    decreases |p|
  {
    var item := plan.processes[i];
    assert item in plan.processes;
    PlanUpstreams(plan, item);
    assert p[0 + 1] in Upstreams(NodesOf(plan), p[0]);
    assert Settles(plan, c, p[1]);
    if |p| > 2 {
      var q, k := p[1..], ProcessIndex(plan, p[1]);
      forall j | 0 <= j < |q| - 1 ensures q[j + 1] in Upstreams(NodesOf(plan), q[j]) {
        assert p[j + 1 + 1] in Upstreams(NodesOf(plan), p[j + 1]);
      }
      AncestorsFinished(plan, c, k, q);
    }
  }

  lemma FinishedUpstreamsReachUp(plan: Plan, c: Cores, i: nat, u: string)
    requires Distinct(plan) && SettledCores(plan, c) && i < |plan.processes| && UpstreamsFinished(plan, c, i)
    requires Reaches(NodesOf(plan), plan.processes[i].effectorId, u)
    ensures Settles(plan, c, u)
  {
    var p :| WalkFromTo(NodesOf(plan), p, plan.processes[i].effectorId, u);
    AncestorsFinished(plan, c, i, p);
  }

  /** In a settled run, every process past pending has all its transitive upstreams finished. */
  lemma PastPendingMeansAncestorsFinished(plan: Plan, c: Cores, i: nat, u: string)
    requires Distinct(plan) && SettledCores(plan, c)
    requires i < |plan.processes| && plan.processes[i].id in c && !c[plan.processes[i].id].status.Pending?
    requires Reaches(NodesOf(plan), plan.processes[i].effectorId, u)
    ensures Settles(plan, c, u)
  {
    FinishedUpstreamsReachUp(plan, c, i, u);
  }

  lemma StepKeepsSettled(b: Boundary, plan: Plan, c: Cores, d: Cores, i: nat)
    requires SettledCores(plan, c) && Step(b, plan, c, d, i) && Distinct(plan)
    ensures SettledCores(plan, d)
  {
    forall k | 0 <= k < |plan.processes| && plan.processes[k].id in d && !d[plan.processes[k].id].status.Pending?
      ensures UpstreamsFinished(plan, d, k)
    {
      forall u | u in plan.processes[k].conduction ensures Settles(plan, d, u) {
        if k != i { assert UpstreamsFinished(plan, c, k); }
        assert Settles(plan, c, u);
      }
    }
  }

  lemma {:induction false} TraceKeepsSettled(b: Boundary, plan: Plan, tr: seq<Cores>)
    requires Trace(b, plan, tr) && SettledCores(plan, tr[0]) && Distinct(plan)
    ensures SettledCores(plan, tr[|tr| - 1])
    decreases |tr|
  {
    if |tr| > 1 {
      var i := LastStep(b, plan, tr);
      TraceKeepsSettled(b, plan, tr[..|tr| - 1]);
      StepKeepsSettled(b, plan, tr[|tr| - 2], tr[|tr| - 1], i);
    }
  }

  lemma ReachedKeepsSettled(b: Boundary, plan: Plan, c: Cores, d: Cores)
    requires Reached(b, plan, c, d) && SettledCores(plan, c) && Distinct(plan)
    ensures SettledCores(plan, d)
  {
    var tr :| TraceFromTo(b, plan, tr, c, d);
    TraceKeepsSettled(b, plan, tr);
  }
}
