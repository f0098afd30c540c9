/** What any part of an advancement may do to a journal: single ready and skip steps, their commands, and the inputs
    of what is readied. */
module Movement {
  import opened Wrappers
  import opened JsonValue
  import opened ConductionGraph
  import opened CorrelationPlan
  import opened Conveyance
  import opened Conduct
  import opened RunJournals
  import opened Confluence
  import opened Settlement

  // ---------------------------------------------------------------- what may change

  /** Metadata may gain or lose the wait marker, nothing else. */
  ghost predicate SameButMarker(m: Json, n: Json) {
    m == n || (m.Obj? && n.Obj? && n.fields - {WAIT_MARKER} == m.fields - {WAIT_MARKER})
  }

  /** A row only ever goes from pending to ready (with a new input) or to skipped (with a new output). */
  ghost predicate KeptRow(r: Row, s: Row) {
    && s.runId == r.runId && s.processType == r.processType && s.priority == r.priority
    && s.attempt == r.attempt && s.maxAttempts == r.maxAttempts && s.error == r.error && s.outputSchema == r.outputSchema
    && SameButMarker(r.metadata, s.metadata)
    && (s.status == r.status || (r.status.Pending? && (s.status.Ready? || s.status.Skipped?)))
    && (s.input == r.input || (r.status.Pending? && s.status.Ready?))
    && (s.output == r.output || (r.status.Pending? && s.status.Skipped?))
  }

  ghost predicate KeptRows(s: Rows, t: Rows) {
    s.Keys == t.Keys && forall id :: id in s ==> KeptRow(s[id], t[id])
  }

  /** Every process readied between `s` and `t` carries, but for accumulated reactions, the input its direct upstreams
      determine in `t`. */
  ghost predicate InputsDirect(b: Boundary, plan: Plan, s: Rows, t: Rows)
    requires Scheduled(plan, t)
  {
    forall item :: item in plan.processes && item.id in s && s[item.id].status.Pending? && t[item.id].status.Ready?
      ==> DirectlyMerged(b, plan, t, item)
  }

  ghost predicate DirectlyMerged(b: Boundary, plan: Plan, t: Rows, item: ProcessPlan)
    requires Scheduled(plan, t) && item in plan.processes
  {
    var direct := DirectInput(b, item, plan, StatesOf(plan, t));
    direct.Ok? && SameDirect(item, t[item.id].input, direct.value)
  }

  /** Every process readied between `s` and `t` carries exactly the input its finished upstreams determine in `t`. */
  ghost predicate InputsMerged(b: Boundary, plan: Plan, s: Rows, t: Rows)
    requires Scheduled(plan, t)
  {
    forall item :: item in plan.processes && item.id in s && s[item.id].status.Pending? && t[item.id].status.Ready?
      ==> MergedInput(b, item, plan, StatesOf(plan, t)) == Ok(t[item.id].input)
  }

  ghost predicate CommandsKept(s: Store, t: Store) {
    forall key :: key in s.commands ==> key in t.commands && t.commands[key] == s.commands[key]
  }

  /** Rows moved only by single ready and skip steps, and commands only added. */
  ghost predicate Moves(b: Boundary, plan: Plan, s: Store, t: Store) {
    && KeptRows(s.rows, t.rows)
    && Reached(b, plan, CoresOf(s.rows), CoresOf(t.rows))
    && CommandsKept(s, t)
    && MovesRecorded(s, t)
    && (Coherent(s) ==> Coherent(t))
  }

  /** A pending row whose command was already recorded is not moved by it again, and new commands move their row. */
  ghost predicate MovesRecorded(s: Store, t: Store) {
    && (forall id :: id in s.rows && id in t.rows && s.rows[id].status.Pending? ==>
          && (t.rows[id].status.Ready? ==> ReadyCommand(id) !in s.commands)
          && (t.rows[id].status.Skipped? ==> SkipCommand(id) !in s.commands && AttemptsSound(s.rows[id])))
    && (forall key :: key in t.commands && key !in s.commands ==> key.id in t.rows && !t.rows[key.id].status.Pending?)
  }

  /** The effect of any part of an advancement, complete or interrupted by an error. */
  ghost predicate Progress(b: Boundary, plan: Plan, s: Store, t: Store)
    requires Scheduled(plan, s.rows)
  {
    && Moves(b, plan, s, t)
    && InputsDirect(b, plan, s.rows, t.rows)
    && (Settled(plan, s.rows) ==> InputsMerged(b, plan, s.rows, t.rows))
  }

  lemma ProgressSelf(b: Boundary, plan: Plan, s: Store)
    requires Scheduled(plan, s.rows)
    ensures Progress(b, plan, s, s)
  {
    ReachedSelf(b, plan, CoresOf(s.rows));
  }

  lemma ProgressScheduled(b: Boundary, plan: Plan, s: Store, t: Store)
    requires Scheduled(plan, s.rows) && Progress(b, plan, s, t)
    ensures Scheduled(plan, t.rows)
  {
  }

  /** A released row that advancement can only replay: the command it calls for is on record already. */
  ghost predicate Stuck(b: Boundary, plan: Plan, s: Store, i: nat) {
    && i < |plan.processes| && Released(plan, CoresOf(s.rows), i)
    && var id, decision := plan.processes[i].id, Decision(b, plan, CoresOf(s.rows), i);
       (decision == Ok(true) && ReadyCommand(id) in s.commands) || (decision == Ok(false) && SkipCommand(id) in s.commands)
  }

  ghost predicate SomeStuck(b: Boundary, plan: Plan, s: Store) {
    exists i :: 0 <= i < |plan.processes| && Stuck(b, plan, s, i)
  }

  /** A stuck row stays stuck whatever an advancement does. */
  lemma StuckStays(b: Boundary, plan: Plan, s: Store, t: Store, i: nat)
    requires Distinct(plan) && Moves(b, plan, s, t) && Stuck(b, plan, s, i)
    ensures Stuck(b, plan, t, i)
  {
    var c, d, id := CoresOf(s.rows), CoresOf(t.rows), plan.processes[i].id;
    var tr :| TraceFromTo(b, plan, tr, c, d);
    ReachedIsExplained(b, plan, c, tr);
    SameDecision(b, plan, c, d, i);
    assert t.rows[id].status == d[id].status;
    assert !Moved(b, plan, c, d, i);
    assert d[id] == c[id];
    StillReleased(b, plan, c, d, i);
  }

  lemma SomeStuckStays(b: Boundary, plan: Plan, s: Store, t: Store)
    requires Distinct(plan) && Scheduled(plan, s.rows) && Progress(b, plan, s, t) && SomeStuck(b, plan, s)
    ensures SomeStuck(b, plan, t)
  {
    hide Moves, Stuck;
    var i :| 0 <= i < |plan.processes| && Stuck(b, plan, s, i);
    StuckStays(b, plan, s, t, i);
  }

  /** A row stuck in the end was pending under a recorded command from the start. */
  lemma StuckFromTheStart(b: Boundary, plan: Plan, s: Store, t: Store, i: nat)
    requires Moves(b, plan, s, t) && Stuck(b, plan, t, i)
    ensures var id := plan.processes[i].id;
      id in s.rows && s.rows[id].status.Pending? && (ReadyCommand(id) in s.commands || SkipCommand(id) in s.commands)
  {
    assert KeptRow(s.rows[plan.processes[i].id], t.rows[plan.processes[i].id]);
  }

  /** Inputs merged earlier still are what the later rows determine. */
  lemma MergedStays(b: Boundary, plan: Plan, s: Rows, t: Rows, item: ProcessPlan, i: nat)
    requires Distinct(plan) && Scheduled(plan, s) && KeptRows(s, t)
    requires i < |plan.processes| && plan.processes[i] == item
    requires Settled(plan, s) && UpstreamsFinished(plan, CoresOf(s), i)
    ensures MergedInput(b, item, plan, StatesOf(plan, t)) == MergedInput(b, item, plan, StatesOf(plan, s))
  {
    StatesHavePlanNodes(plan, s);
    StatesHavePlanNodes(plan, t);
    assert item in plan.processes;
    forall u | Reaches(NodesOf(plan), item.effectorId, u) ensures AgreeOn(StatesOf(plan, s), StatesOf(plan, t), u) {
      FinishedUpstreamsReachUp(plan, CoresOf(s), i, u);
    }
    MergedInputFrame(b, item, plan, StatesOf(plan, s), StatesOf(plan, t));
  }

  lemma MovesTransitive(b: Boundary, plan: Plan, s: Store, t: Store, u: Store)
    requires Moves(b, plan, s, t) && Moves(b, plan, t, u)
    ensures Moves(b, plan, s, u)
  {
    ReachedTransitive(b, plan, CoresOf(s.rows), CoresOf(t.rows), CoresOf(u.rows));
    RecordedTransitive(s, t, u);
    hide Reached, MovesRecorded, CommandsKept, Coherent;
    KeptTransitive(s.rows, t.rows, u.rows);
  }

  lemma KeptTransitive(s: Rows, t: Rows, u: Rows)
    requires KeptRows(s, t) && KeptRows(t, u)
    ensures KeptRows(s, u)
  {
    forall id | id in s ensures KeptRow(s[id], u[id]) {
      assert KeptRow(s[id], t[id]) && KeptRow(t[id], u[id]);
    }
  }

  lemma RecordedTransitive(s: Store, t: Store, u: Store)
    requires KeptRows(s.rows, t.rows) && KeptRows(t.rows, u.rows)
    requires CommandsKept(s, t) && CommandsKept(t, u) && MovesRecorded(s, t) && MovesRecorded(t, u)
    ensures CommandsKept(s, u) && MovesRecorded(s, u)
  {
    forall id | id in s.rows ensures KeptRow(s.rows[id], t.rows[id]) && KeptRow(t.rows[id], u.rows[id]) {}
  }

  /** A process that left pending between `s` and `t` has finished upstreams in `t`. */
  lemma MovedUpstreams(b: Boundary, plan: Plan, s: Store, t: Store, i: nat)
    requires Distinct(plan) && Moves(b, plan, s, t) && i < |plan.processes| && plan.processes[i].id in s.rows
    requires s.rows[plan.processes[i].id].status.Pending? && !t.rows[plan.processes[i].id].status.Pending?
    ensures UpstreamsFinished(plan, CoresOf(t.rows), i)
  {
    var c, d, id := CoresOf(s.rows), CoresOf(t.rows), plan.processes[i].id;
    var tr :| TraceFromTo(b, plan, tr, c, d);
    ReachedIsExplained(b, plan, c, tr);
    assert id in c && d[id] != c[id];
    var k :| 0 <= k < |plan.processes| && plan.processes[k].id == id && Moved(b, plan, c, d, k);
    assert k == i;
  }

  /** What finished direct upstreams determine stays determined. */
  lemma DirectStays(b: Boundary, plan: Plan, s: Rows, t: Rows, i: nat)
    requires Scheduled(plan, s) && KeptRows(s, t) && i < |plan.processes| && UpstreamsFinished(plan, CoresOf(s), i)
    ensures DirectInput(b, plan.processes[i], plan, StatesOf(plan, t)) == DirectInput(b, plan.processes[i], plan, StatesOf(plan, s))
  {
    var item := plan.processes[i];
    StatesHavePlanNodes(plan, s);
    StatesHavePlanNodes(plan, t);
    forall u | u in item.conduction ensures AgreeOn(StatesOf(plan, s), StatesOf(plan, t), u) {
      assert Settles(plan, CoresOf(s), u);
      assert KeptRow(s[plan.processes[ProcessIndex(plan, u)].id], t[plan.processes[ProcessIndex(plan, u)].id]);
    }
    DirectInputFrame(b, item, plan, StatesOf(plan, s), StatesOf(plan, t));
  }

  /** Inputs written before `t` still are what the direct upstreams determine in `u`. */
  lemma DirectTransitive(b: Boundary, plan: Plan, s: Store, t: Store, u: Store)
    requires Distinct(plan) && Scheduled(plan, s.rows) && Moves(b, plan, s, t) && Moves(b, plan, t, u)
    requires InputsDirect(b, plan, s.rows, t.rows) && InputsDirect(b, plan, t.rows, u.rows)
    ensures InputsDirect(b, plan, s.rows, u.rows)
  {
    hide DirectInput, SameDirect, Reached;
    forall item | item in plan.processes && s.rows[item.id].status.Pending? && u.rows[item.id].status.Ready?
      ensures DirectlyMerged(b, plan, u.rows, item)
    {
      if !t.rows[item.id].status.Pending? {
        assert KeptRow(s.rows[item.id], t.rows[item.id]) && KeptRow(t.rows[item.id], u.rows[item.id]);
        var i :| 0 <= i < |plan.processes| && plan.processes[i] == item;
        MovedUpstreams(b, plan, s, t, i);
        DirectStays(b, plan, t.rows, u.rows, i);
        assert DirectlyMerged(b, plan, t.rows, item);
      }
    }
  }

  lemma ProgressTransitive(b: Boundary, plan: Plan, s: Store, t: Store, u: Store)
    requires Distinct(plan) && Scheduled(plan, s.rows) && Progress(b, plan, s, t) && Progress(b, plan, t, u)
    ensures Progress(b, plan, s, u)
  {
    MovesTransitive(b, plan, s, t, u);
    DirectTransitive(b, plan, s, t, u);
    hide InputsDirect;
    if Settled(plan, s.rows) {
      ReachedKeepsSettled(b, plan, CoresOf(s.rows), CoresOf(t.rows));
      forall item | item in plan.processes && s.rows[item.id].status.Pending? && u.rows[item.id].status.Ready?
        ensures MergedInput(b, item, plan, StatesOf(plan, u.rows)) == Ok(u.rows[item.id].input)
      {
        if !t.rows[item.id].status.Pending? {
          assert KeptRow(s.rows[item.id], t.rows[item.id]) && KeptRow(t.rows[item.id], u.rows[item.id]);
          var i :| 0 <= i < |plan.processes| && plan.processes[i] == item;
          assert UpstreamsFinished(plan, CoresOf(t.rows), i);
          MergedStays(b, plan, t.rows, u.rows, item, i);
        }
      }
    }
  }
}
