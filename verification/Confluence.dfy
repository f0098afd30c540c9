/** Readying and skipping as a transition system on what decides it: each row's status, output and error.

    `advance_correlation` works in rounds over snapshots; here one eligible process moves at a time, in
    any order.  All such orders end in the same place. */
module Confluence {
  import opened Wrappers
  import opened JsonValue
  import opened ProcessStatus
  import opened ConductionGraph
  import opened Readiness
  import opened CorrelationPlan
  import opened Conveyance
  import opened Conduct

  datatype Core = Core(status: Status, output: Json, error: Json)

  type Cores = map<string, Core>

  function CoreOf(row: Row): Core {
    Core(row.status, row.output, row.error)
  }

  function CoresOf(rows: Rows): Cores {
    map id | id in rows :: CoreOf(rows[id])
  }

  function ProcessIndex(plan: Plan, effector: string): int {
    IndexOf(NodesOf(plan), effector)
  }

  /** The upstream's row has finished. */
  ghost predicate Settles(plan: Plan, c: Cores, upstream: string) {
    var p := ProcessIndex(plan, upstream);
    p >= 0 && plan.processes[p].id in c && Terminal(c[plan.processes[p].id].status)
  }

  /** Pending, with every upstream finished. */
  ghost predicate Released(plan: Plan, c: Cores, i: nat)
    requires i < |plan.processes|
  {
    var item := plan.processes[i];
    item.id in c && c[item.id].status.Pending? && forall u :: u in item.conduction ==> Settles(plan, c, u)
  }

  /** Whether a released process is readied or skipped. */
  ghost function Decision(b: Boundary, plan: Plan, c: Cores, i: nat): Outcome<bool>
    requires i < |plan.processes|
  {
    var item := plan.processes[i];
    if item.when.None? then Ok(true)
    else if !ConditionShape(item.when.value) then Raise("invalid_condition")
    else
      var upstream := item.when.value.fields["upstream"].text;
      var p := ProcessIndex(plan, upstream);
      if upstream !in item.conduction || p < 0 || plan.processes[p].id !in c then Raise("invalid_condition")
      else
        var core := c[plan.processes[p].id];
        Verdict(b, item.when.value, plan.processes[p].outputSchema, core.status, StateOutput(core.status, core.output, core.error))
  }

  function SkippedOutput(item: ProcessPlan): Json {
    Obj(map["reason" := Str("condition_not_met"), "when" := if item.when.Some? then item.when.value else Null])
  }

  function Applied(item: ProcessPlan, core: Core, ready: bool): Core {
    if ready then core.(status := Ready) else Core(Skipped, SkippedOutput(item), core.error)
  }

  ghost predicate Step(b: Boundary, plan: Plan, c: Cores, d: Cores, i: nat) {
    && i < |plan.processes| && Released(plan, c, i) && Decision(b, plan, c, i).Ok?
    && d == c[plan.processes[i].id := Applied(plan.processes[i], c[plan.processes[i].id], Decision(b, plan, c, i).value)]
  }

  ghost predicate Linked(b: Boundary, plan: Plan, c: Cores, d: Cores) {
    exists i :: Step(b, plan, c, d, i)
  }

  ghost predicate Trace(b: Boundary, plan: Plan, tr: seq<Cores>) {
    |tr| > 0 && forall k {:trigger Linked(b, plan, tr[k], tr[k + 1])} :: 0 <= k < |tr| - 1 ==> Linked(b, plan, tr[k], tr[k + 1])
  }

  ghost predicate TraceFromTo(b: Boundary, plan: Plan, tr: seq<Cores>, c: Cores, d: Cores) {
    Trace(b, plan, tr) && tr[0] == c && tr[|tr| - 1] == d
  }

  /** `d` is reached from `c` by moving eligible processes one at a time. */
  ghost predicate Reached(b: Boundary, plan: Plan, c: Cores, d: Cores) {
    exists tr :: TraceFromTo(b, plan, tr, c, d)
  }

  lemma ReachedSelf(b: Boundary, plan: Plan, c: Cores)
    ensures Reached(b, plan, c, c)
  {
    assert TraceFromTo(b, plan, [c], c, c);
  }

  lemma ReachedThen(b: Boundary, plan: Plan, c: Cores, d: Cores, e: Cores, i: nat)
    requires Reached(b, plan, c, d) && Step(b, plan, d, e, i)
    ensures Reached(b, plan, c, e)
  {
    var tr :| TraceFromTo(b, plan, tr, c, d);
    var longer := tr + [e];
    forall k | 0 <= k < |longer| - 1 ensures Linked(b, plan, longer[k], longer[k + 1]) {
      if k < |tr| - 1 { assert Linked(b, plan, tr[k], tr[k + 1]); }
    }
    assert TraceFromTo(b, plan, longer, c, e);
  }

  lemma {:induction false} ReachedTransitive(b: Boundary, plan: Plan, c: Cores, d: Cores, e: Cores)
    requires Reached(b, plan, c, d) && Reached(b, plan, d, e)
    ensures Reached(b, plan, c, e)
  {
    var tr :| TraceFromTo(b, plan, tr, d, e);
    ReachedAlong(b, plan, c, tr);
  }

  lemma {:induction false} ReachedAlong(b: Boundary, plan: Plan, c: Cores, tr: seq<Cores>)
    requires Trace(b, plan, tr) && Reached(b, plan, c, tr[0])
    ensures Reached(b, plan, c, tr[|tr| - 1])
    decreases |tr|
  {
    if |tr| > 1 {
      var i := LastStep(b, plan, tr);
      ReachedAlong(b, plan, c, tr[..|tr| - 1]);
      ReachedThen(b, plan, c, tr[|tr| - 2], tr[|tr| - 1], i);
    }
  }

  lemma LastStep(b: Boundary, plan: Plan, tr: seq<Cores>) returns (i: nat)
    requires Trace(b, plan, tr) && |tr| > 1
    ensures Trace(b, plan, tr[..|tr| - 1])
    ensures Step(b, plan, tr[|tr| - 2], tr[|tr| - 1], i)
  {
    var q, last := tr[..|tr| - 1], |tr| - 2;
    forall k | 0 <= k < |q| - 1 ensures Linked(b, plan, q[k], q[k + 1]) {
      assert Linked(b, plan, tr[k], tr[k + 1]);
    }
    assert Linked(b, plan, tr[last], tr[last + 1]);
    i :| Step(b, plan, tr[last], tr[last + 1], i);
  }

  // ---------------------------------------------------------------- finished rows are frozen

  /** Everything finished in `c` is unchanged in `d`. */
  ghost predicate Frozen(c: Cores, d: Cores) {
    c.Keys == d.Keys && forall id :: id in c && Terminal(c[id].status) ==> d[id] == c[id]
  }

  /** A process that stays pending while finished rows stay put remains released, with the same decision. */
  lemma StillReleased(b: Boundary, plan: Plan, c: Cores, d: Cores, i: nat)
    requires i < |plan.processes| && Released(plan, c, i) && Frozen(c, d)
    requires d[plan.processes[i].id] == c[plan.processes[i].id]
    ensures Released(plan, d, i) && Decision(b, plan, d, i) == Decision(b, plan, c, i)
  {
    forall u | u in plan.processes[i].conduction ensures Settles(plan, d, u) {
      assert Settles(plan, c, u);
    }
    SameDecision(b, plan, c, d, i);
  }

  lemma SameDecision(b: Boundary, plan: Plan, c: Cores, d: Cores, i: nat)
    requires i < |plan.processes| && Frozen(c, d)
    requires forall u :: u in plan.processes[i].conduction ==> Settles(plan, c, u)
    ensures Decision(b, plan, d, i) == Decision(b, plan, c, i)
  {
    var item := plan.processes[i];
    if item.when.Some? && ConditionShape(item.when.value) && item.when.value.fields["upstream"].text in item.conduction {
      assert Settles(plan, c, item.when.value.fields["upstream"].text);
    }
  }

  lemma StepFreezes(b: Boundary, plan: Plan, c: Cores, d: Cores, i: nat)
    requires Step(b, plan, c, d, i)
    ensures Frozen(c, d)
  {
  }

  lemma FrozenTransitive(c: Cores, d: Cores, e: Cores)
    requires Frozen(c, d) && Frozen(d, e)
    ensures Frozen(c, e)
  {
  }

  // ---------------------------------------------------------------- confluence

  /** Every change from `start` is explained by the decision its finished upstreams dictate. */
  ghost predicate Explained(b: Boundary, plan: Plan, start: Cores, c: Cores) {
    && Frozen(start, c)
    && (forall id :: id in start && c[id] != start[id] ==>
          exists i :: 0 <= i < |plan.processes| && plan.processes[i].id == id && Moved(b, plan, start, c, i))
  }

  ghost predicate Moved(b: Boundary, plan: Plan, start: Cores, c: Cores, i: nat)
    requires i < |plan.processes|
  {
    var item := plan.processes[i];
    && item.id in start && item.id in c && start[item.id].status.Pending?
    && (forall u :: u in item.conduction ==> Settles(plan, c, u))
    && Decision(b, plan, c, i).Ok?
    && c[item.id] == Applied(item, start[item.id], Decision(b, plan, c, i).value)
  }

  lemma ExplainedStep(b: Boundary, plan: Plan, start: Cores, c: Cores, d: Cores, i: nat)
    requires Explained(b, plan, start, c) && Step(b, plan, c, d, i) && Distinct(plan)
    ensures Explained(b, plan, start, d)
  {
    var moved := plan.processes[i].id;
    StepFreezes(b, plan, c, d, i);
    FrozenTransitive(start, c, d);
    forall id | id in start && d[id] != start[id]
      ensures exists k :: 0 <= k < |plan.processes| && plan.processes[k].id == id && Moved(b, plan, start, d, k)
    {
      if id == moved {
        assert c[id] == start[id];
        forall u | u in plan.processes[i].conduction ensures Settles(plan, d, u) {
          assert Settles(plan, c, u);
        }
        SameDecision(b, plan, c, d, i);
        assert Moved(b, plan, start, d, i);
      } else {
        var k :| 0 <= k < |plan.processes| && plan.processes[k].id == id && Moved(b, plan, start, c, k);
        forall u | u in plan.processes[k].conduction ensures Settles(plan, d, u) {
          assert Settles(plan, c, u);
        }
        SameDecision(b, plan, c, d, k);
        assert Moved(b, plan, start, d, k);
      }
    }
  }

  lemma {:induction false} ReachedIsExplained(b: Boundary, plan: Plan, start: Cores, tr: seq<Cores>)
    requires Trace(b, plan, tr) && tr[0] == start && Distinct(plan)
    ensures Explained(b, plan, start, tr[|tr| - 1])
    decreases |tr|
  {
    if |tr| > 1 {
      var i := LastStep(b, plan, tr);
      ReachedIsExplained(b, plan, start, tr[..|tr| - 1]);
      ExplainedStep(b, plan, start, tr[|tr| - 2], tr[|tr| - 1], i);
    }
  }

  /** Nothing can move any more. */
  ghost predicate Quiescent(b: Boundary, plan: Plan, c: Cores) {
    forall i :: 0 <= i < |plan.processes| && Released(plan, c, i) ==> Decision(b, plan, c, i).Raise?
  }

  /** Whatever has left its starting core in `c` has the same core in `d`. */
  ghost predicate Within(start: Cores, c: Cores, d: Cores) {
    start.Keys == c.Keys == d.Keys && forall id :: id in start && c[id] != start[id] ==> c[id] == d[id]
  }

  /** What has finished in `c` has finished in `d`, identically. */
  lemma WithinSettles(plan: Plan, start: Cores, c: Cores, d: Cores, u: string)
    requires Within(start, c, d) && Frozen(start, d) && Settles(plan, c, u)
    ensures Settles(plan, d, u) && d[plan.processes[ProcessIndex(plan, u)].id] == c[plan.processes[ProcessIndex(plan, u)].id]
  {
    var id := plan.processes[ProcessIndex(plan, u)].id;
    if c[id] == start[id] { assert d[id] == start[id]; }
  }

  lemma WithinDecision(b: Boundary, plan: Plan, start: Cores, c: Cores, d: Cores, i: nat)
    requires Within(start, c, d) && Frozen(start, d) && i < |plan.processes|
    requires forall u :: u in plan.processes[i].conduction ==> Settles(plan, c, u)
    ensures Decision(b, plan, d, i) == Decision(b, plan, c, i)
    ensures forall u :: u in plan.processes[i].conduction ==> Settles(plan, d, u)
  {
    var item := plan.processes[i];
    forall u | u in item.conduction ensures Settles(plan, d, u) {
      WithinSettles(plan, start, c, d, u);
    }
    if item.when.Some? && ConditionShape(item.when.value) && item.when.value.fields["upstream"].text in item.conduction {
      WithinSettles(plan, start, c, d, item.when.value.fields["upstream"].text);
    }
  }

  /** A row moved from `start` is no longer pending. */
  lemma MovedIsNotPending(b: Boundary, plan: Plan, start: Cores, c: Cores, id: string)
    requires Explained(b, plan, start, c) && id in c && c[id].status.Pending?
    ensures c[id] == start[id]
  {
  }

  /** One more step of any order stays within every quiescent end of every other order. */
  lemma WithinStep(b: Boundary, plan: Plan, start: Cores, c: Cores, c': Cores, d: Cores, i: nat)
    requires Distinct(plan) && Step(b, plan, c, c', i)
    requires Within(start, c, d) && Frozen(start, d) && Explained(b, plan, start, c) && Explained(b, plan, start, d) && Quiescent(b, plan, d)
    ensures Within(start, c', d)
  {
    hide Decision, Settles;
    var item := plan.processes[i];
    WithinDecision(b, plan, start, c, d, i);
    MovedIsNotPending(b, plan, start, c, item.id);
    assert !Released(plan, d, i);
    var k :| 0 <= k < |plan.processes| && plan.processes[k].id == item.id && Moved(b, plan, start, d, k);
    assert k == i;
  }

  lemma {:induction false} WithinAlong(b: Boundary, plan: Plan, start: Cores, tr: seq<Cores>, d: Cores)
    requires Distinct(plan) && Trace(b, plan, tr) && tr[0] == start
    requires Frozen(start, d) && Explained(b, plan, start, d) && Quiescent(b, plan, d)
    ensures Within(start, tr[|tr| - 1], d)
    decreases |tr|
  {
    if |tr| > 1 {
      var i := LastStep(b, plan, tr);
      var q := tr[..|tr| - 1];
      WithinAlong(b, plan, start, q, d);
      ReachedIsExplained(b, plan, start, q);
      WithinStep(b, plan, start, tr[|tr| - 2], tr[|tr| - 1], d, i);
    }
  }

  /** Confluence: any two orders of moving eligible processes that can go no further end in the same
      statuses, outputs and errors. */
  lemma Confluent(b: Boundary, plan: Plan, start: Cores, c: Cores, d: Cores)
    requires Distinct(plan)
    requires Reached(b, plan, start, c) && Quiescent(b, plan, c)
    requires Reached(b, plan, start, d) && Quiescent(b, plan, d)
    ensures c == d
  {
    var trC :| TraceFromTo(b, plan, trC, start, c);
    var trD :| TraceFromTo(b, plan, trD, start, d);
    ReachedIsExplained(b, plan, start, trC);
    ReachedIsExplained(b, plan, start, trD);
    WithinAlong(b, plan, start, trC, d);
    WithinAlong(b, plan, start, trD, c);
    assert forall id :: id in c ==> c[id] == d[id];
  }

  // ---------------------------------------------------------------- the same notions on rows

  lemma DecisionIsCondition(b: Boundary, plan: Plan, rows: Rows, i: nat)
    requires i < |plan.processes| && Scheduled(plan, rows)
    ensures Decision(b, plan, CoresOf(rows), i) == Condition(b, plan.processes[i], plan, StatesOf(plan, rows))
  {
    StatesHavePlanNodes(plan, rows);
  }

  /** Eligibility over loaded states is release over cores. */
  lemma EligibleIsReleased(plan: Plan, rows: Rows, i: nat)
    requires Advanceable(plan) && i < |plan.processes| && Scheduled(plan, rows)
    ensures Eligible(StatesOf(plan, rows), StatesOf(plan, rows)[i]) <==> Released(plan, CoresOf(rows), i)
  {
    var states, item := StatesOf(plan, rows), plan.processes[i];
    assert item in plan.processes;
    StatesHavePlanNodes(plan, rows);
    UnmetMembers(states, item.conduction);
    forall u | u in item.conduction ensures Unfinished(states, u) <==> !Settles(plan, CoresOf(rows), u) {
      assert Declared(NodesOf(plan), u);
    }
    if Unmet(states, item.conduction) != [] {
      var u := Unmet(states, item.conduction)[0];
      assert u in Unmet(states, item.conduction);
    }
  }
}
