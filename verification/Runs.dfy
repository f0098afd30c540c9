/** Whole runs: scheduling, readiness, advancement and execution interleaved in any order, with any number
    of each.  What every step keeps, and what therefore holds of every reachable journal. */
module Runs {
  import opened Wrappers
  import opened JsonValue
  import opened Text
  import opened ProcessStatus
  import opened ConductionGraph
  import opened Readiness
  import opened CorrelationPlan
  import opened Conveyance
  import opened Conduct
  import opened RunJournals
  import opened Confluence
  import opened Settlement
  import opened Matching
  import opened Movement
  import opened RoundBound
  import opened Advance
  import opened Refresh

  // ---------------------------------------------------------------- execution outside the engine

  /** status.mojo's `can_transition_process`. */
  predicate CanTransition(from: Status, to: Status) {
    if Terminal(from) then false
    else if to.Cancelled? || to.TimedOut? || to.Skipped? then true
    else
      match from
      case Pending => to.Ready? || to.CancelRequested?
      case Ready => to.Running? || to.CancelRequested?
      case Running => to.Succeeded? || to.Failed? || to.Waiting? || to.RetryWait? || to.CancelRequested?
      case Waiting => to.Succeeded? || to.Failed? || to.CancelRequested?
      case RetryWait => to.Ready? || to.CancelRequested?
      case CancelRequested => to.Failed?
      case _ => false
  }

  /** A worker claims a ready, due or expired process. */
  predicate CanClaim(from: Status, to: Status) {
    (from.Ready? || from.RetryWait? || from.Running?) && to.Running?
  }

  /** One row that has left pending is claimed, completed, failed, parked, retried, cancelled or timed out. */
  ghost predicate Executes(b: Boundary, s: Store, t: Store) {
    && CommandsKept(s, t)
    && exists id :: id in s.rows && ExecutedRow(b, s, t, id)
  }

  ghost predicate ExecutedRow(b: Boundary, s: Store, t: Store, id: string)
    requires id in s.rows
  {
    && s.rows.Keys == t.rows.Keys && (forall k :: k in s.rows && k != id ==> t.rows[k] == s.rows[k])
    && !s.rows[id].status.Pending? && (CanTransition(s.rows[id].status, t.rows[id].status) || CanClaim(s.rows[id].status, t.rows[id].status))
    && t.rows[id].input == s.rows[id].input && t.rows[id].metadata == s.rows[id].metadata && Enriched(b, s.rows[id], t.rows[id])
    && (forall key :: key in t.commands && key !in s.commands ==> key == ReadyCommand(id) || key == SkipCommand(id))
  }

  /** Adapter bindings are written into metadata; nothing else moves. */
  ghost predicate BindsAdapters(b: Boundary, s: Store, t: Store) {
    && t.commands == s.commands && s.rows.Keys == t.rows.Keys
    && forall id :: id in s.rows ==>
      t.rows[id] == s.rows[id].(metadata := t.rows[id].metadata) && (t.rows[id] == s.rows[id] || Enriched(b, s.rows[id], t.rows[id]))
  }

  ghost predicate Schedules(b: Boundary, plan: Plan, s: Store, t: Store) {
    t.commands == s.commands && Authored(b, plan) && RowsMatch(b, plan, s.rows) && ScheduledRows(b, plan, s.rows, t.rows)
  }

  ghost predicate Refreshes(b: Boundary, plan: Plan, s: Store, t: Store) {
    t.commands == s.commands && Scheduled(plan, s.rows) && RefreshedRows(b, plan, s.rows, t.rows)
  }

  ghost predicate Advances(b: Boundary, plan: Plan, s: Store, t: Store) {
    Scheduled(plan, s.rows) && Progress(b, plan, s, t)
  }

  /** One step of the run. */
  ghost predicate Next(b: Boundary, plan: Plan, s: Store, t: Store) {
    Schedules(b, plan, s, t) || Refreshes(b, plan, s, t) || Advances(b, plan, s, t) || Executes(b, s, t) || BindsAdapters(b, s, t)
  }

  // ---------------------------------------------------------------- what every step keeps

  /** A conditional process past pending was decided by its finished source, and ran only if it matched. */
  ghost predicate Gated(b: Boundary, plan: Plan, c: Cores) {
    forall i :: 0 <= i < |plan.processes| && plan.processes[i].id in c && !c[plan.processes[i].id].status.Pending?
      ==> Decision(b, plan, c, i).Ok? && (!Decision(b, plan, c, i).value ==> c[plan.processes[i].id].status.Skipped?)
  }

  ghost predicate Invariant(b: Boundary, plan: Plan, s: Store) {
    && Settled(plan, s.rows)
    && Gated(b, plan, CoresOf(s.rows))
    && Coherent(s)
    && RowsMatch(b, plan, s.rows)
    && (Begun(plan, s.rows) ==> Authored(b, plan))
  }

  /** Some process of the plan has been scheduled. */
  ghost predicate Begun(plan: Plan, rows: Rows) {
    exists item :: item in plan.processes && item.id in rows
  }

  /** Rows only appear, never vanish or return to pending, and finished rows are frozen. */
  ghost predicate Forward(c: Cores, d: Cores) {
    && c.Keys <= d.Keys
    && (forall id :: id in c && Terminal(c[id].status) ==> d[id] == c[id])
    && (forall id :: id in c && !c[id].status.Pending? ==> !d[id].status.Pending?)
  }

  lemma ForwardTransitive(c: Cores, d: Cores, e: Cores)
    requires Forward(c, d) && Forward(d, e)
    ensures Forward(c, e)
  {
    forall id | id in c ensures id in e {}
  }

  lemma ForwardDecision(b: Boundary, plan: Plan, c: Cores, d: Cores, i: nat)
    requires i < |plan.processes| && Forward(c, d) && UpstreamsFinished(plan, c, i)
    ensures UpstreamsFinished(plan, d, i) && Decision(b, plan, d, i) == Decision(b, plan, c, i)
  {
    var item := plan.processes[i];
    forall u | u in item.conduction ensures Settles(plan, d, u) {
      assert Settles(plan, c, u);
      assert plan.processes[ProcessIndex(plan, u)].id in d;
    }
    if item.when.Some? && ConditionShape(item.when.value) && item.when.value.fields["upstream"].text in item.conduction {
      assert Settles(plan, c, item.when.value.fields["upstream"].text);
    }
  }

  /** The invariants over cores survive any forward step that moves pending rows only as decided. */
  ghost predicate MovesAsDecided(b: Boundary, plan: Plan, c: Cores, d: Cores) {
    forall i :: 0 <= i < |plan.processes| && plan.processes[i].id in d && !d[plan.processes[i].id].status.Pending?
                && (plan.processes[i].id in c ==> c[plan.processes[i].id].status.Pending?)
      ==> UpstreamsFinished(plan, d, i) && Decision(b, plan, d, i).Ok?
          && (!Decision(b, plan, d, i).value ==> d[plan.processes[i].id].status.Skipped?)
  }

  /** A skipped row is finished, so it stays skipped. */
  lemma ForwardKeeps(b: Boundary, plan: Plan, c: Cores, d: Cores)
    requires SettledCores(plan, c) && Gated(b, plan, c) && Forward(c, d) && MovesAsDecided(b, plan, c, d)
    ensures SettledCores(plan, d) && Gated(b, plan, d)
  {
    forall i | 0 <= i < |plan.processes| && plan.processes[i].id in d && !d[plan.processes[i].id].status.Pending?
      ensures UpstreamsFinished(plan, d, i) && Decision(b, plan, d, i).Ok?
           && (!Decision(b, plan, d, i).value ==> d[plan.processes[i].id].status.Skipped?)
    {
      var id := plan.processes[i].id;
      if id in c && !c[id].status.Pending? {
        ForwardDecision(b, plan, c, d, i);
      }
    }
  }

  lemma SchedulesKeeps(b: Boundary, plan: Plan, s: Store, t: Store)
    requires Persistable(plan) && Invariant(b, plan, s) && Schedules(b, plan, s, t)
    ensures Invariant(b, plan, t) && Forward(CoresOf(s.rows), CoresOf(t.rows))
  {
    ScheduledRowsMatch(b, plan, s.rows, t.rows);
    ScheduledAsDecided(b, plan, s.rows, t.rows);
    NewRowsKeepCoherence(b, plan, s, t);
    hide ScheduledRows, RowsMatch, Coherent, Forward, MovesAsDecided, SettledCores, Gated, Persistable;
    ForwardKeeps(b, plan, CoresOf(s.rows), CoresOf(t.rows));
  }

  /** Of the rows that are new only roots are past pending. */
  lemma ScheduledAsDecided(b: Boundary, plan: Plan, s: Rows, t: Rows)
    requires SoundConditions(plan) && ScheduledRows(b, plan, s, t)
    ensures Forward(CoresOf(s), CoresOf(t)) && MovesAsDecided(b, plan, CoresOf(s), CoresOf(t))
  {
    hide MetadataFor, InitialInput;
    var c, d := CoresOf(s), CoresOf(t);
    assert forall id :: id in s ==> t[id] == s[id];
    forall i | 0 <= i < |plan.processes| && plan.processes[i].id in d && !d[plan.processes[i].id].status.Pending?
               && (plan.processes[i].id in c ==> c[plan.processes[i].id].status.Pending?)
      ensures UpstreamsFinished(plan, d, i) && Decision(b, plan, d, i) == Ok(true)
    {
      var item := plan.processes[i];
      assert item in plan.processes && item.id !in s;
      assert item.conduction == [];
    }
  }

  ghost predicate SoundConditions(plan: Plan) {
    forall item :: item in plan.processes ==> SoundCondition(item)
  }

  lemma NewRowsKeepCoherence(b: Boundary, plan: Plan, s: Store, t: Store)
    requires Coherent(s) && Schedules(b, plan, s, t)
    ensures Coherent(t)
  {
  }

  /** Steps reached one at a time move pending rows only as decided. */
  lemma ReachedMovesAsDecided(b: Boundary, plan: Plan, c: Cores, d: Cores)
    requires Distinct(plan) && Reached(b, plan, c, d)
    ensures MovesAsDecided(b, plan, c, d) && Forward(c, d)
  {
    var tr :| TraceFromTo(b, plan, tr, c, d);
    ReachedIsExplained(b, plan, c, tr);
    forall i | 0 <= i < |plan.processes| && plan.processes[i].id in d && !d[plan.processes[i].id].status.Pending?
               && (plan.processes[i].id in c ==> c[plan.processes[i].id].status.Pending?)
      ensures Moved(b, plan, c, d, i)
    {
      var id := plan.processes[i].id;
      var k :| 0 <= k < |plan.processes| && plan.processes[k].id == id && Moved(b, plan, c, d, k);
      assert k == i;
    }
  }

  lemma RefreshesKeeps(b: Boundary, plan: Plan, s: Store, t: Store)
    requires Persistable(plan) && Invariant(b, plan, s) && Refreshes(b, plan, s, t)
    ensures Invariant(b, plan, t) && Forward(CoresOf(s.rows), CoresOf(t.rows))
  {
    RefreshIsQuiescent(b, plan, s.rows, t.rows);
    ReachedMovesAsDecided(b, plan, CoresOf(s.rows), CoresOf(t.rows));
    ForwardKeeps(b, plan, CoresOf(s.rows), CoresOf(t.rows));
    RefreshKeepsMatching(b, plan, s.rows, t.rows);
    ForwardCoherent(s, t);
  }

  lemma ForwardCoherent(s: Store, t: Store)
    requires Coherent(s) && t.commands == s.commands && Forward(CoresOf(s.rows), CoresOf(t.rows))
    ensures Coherent(t)
  {
    forall key | key in t.commands ensures key.id in t.rows && !t.rows[key.id].status.Pending? {
      assert key.id in CoresOf(s.rows) && key.id in CoresOf(t.rows);
    }
  }

  lemma AdvancesKeeps(b: Boundary, plan: Plan, s: Store, t: Store)
    requires Persistable(plan) && Invariant(b, plan, s) && Advances(b, plan, s, t)
    ensures Invariant(b, plan, t) && Forward(CoresOf(s.rows), CoresOf(t.rows))
  {
    ReachedMovesAsDecided(b, plan, CoresOf(s.rows), CoresOf(t.rows));
    ForwardKeeps(b, plan, CoresOf(s.rows), CoresOf(t.rows));
    AdvanceKeepsMatching(b, plan, s, t);
  }

  lemma ExecutedForward(b: Boundary, plan: Plan, s: Store, t: Store, id: string)
    requires id in s.rows && ExecutedRow(b, s, t, id)
    ensures Forward(CoresOf(s.rows), CoresOf(t.rows)) && MovesAsDecided(b, plan, CoresOf(s.rows), CoresOf(t.rows))
  {
    hide Decision, Enriched;
    var c, d := CoresOf(s.rows), CoresOf(t.rows);
    forall k | k in c ensures k in d && (k != id ==> d[k] == c[k]) {}
    assert !c[id].status.Pending? && !Terminal(c[id].status) && !d[id].status.Pending?;
  }

  lemma ExecutedMatches(b: Boundary, plan: Plan, s: Store, t: Store, id: string)
    requires id in s.rows && ExecutedRow(b, s, t, id) && RowsMatch(b, plan, s.rows)
    ensures RowsMatch(b, plan, t.rows)
  {
    hide SameRow, CanTransition;
    forall item | item in plan.processes && item.id in t.rows ensures SameRow(b, t.rows[item.id], item) == Ok(true) {
      assert SameRow(b, s.rows[item.id], item) == Ok(true);
      if item.id == id { MatchingIsStable(b, s.rows[id], t.rows[id], item); }
    }
  }

  lemma ExecutedCoherent(b: Boundary, s: Store, t: Store, id: string)
    requires id in s.rows && ExecutedRow(b, s, t, id) && Coherent(s)
    ensures Coherent(t)
  {
    hide Enriched;
  }

  lemma ExecutedBegun(b: Boundary, plan: Plan, s: Store, t: Store, id: string)
    requires id in s.rows && ExecutedRow(b, s, t, id) && Begun(plan, t.rows)
    ensures Begun(plan, s.rows)
  {
    hide Enriched;
  }

  lemma ExecutesKeeps(b: Boundary, plan: Plan, s: Store, t: Store)
    requires Persistable(plan) && Invariant(b, plan, s) && Executes(b, s, t)
    ensures Invariant(b, plan, t) && Forward(CoresOf(s.rows), CoresOf(t.rows))
  {
    hide Persistable, ExecutedRow, Coherent, RowsMatch, Gated, SettledCores, Forward, MovesAsDecided, Begun;
    var id :| id in s.rows && ExecutedRow(b, s, t, id);
    ExecutedForward(b, plan, s, t, id);
    ExecutedMatches(b, plan, s, t, id);
    ExecutedCoherent(b, s, t, id);
    if Begun(plan, t.rows) { ExecutedBegun(b, plan, s, t, id); }
    ForwardKeeps(b, plan, CoresOf(s.rows), CoresOf(t.rows));
  }

  lemma BindsKeeps(b: Boundary, plan: Plan, s: Store, t: Store)
    requires Persistable(plan) && Invariant(b, plan, s) && BindsAdapters(b, s, t)
    ensures Invariant(b, plan, t) && Forward(CoresOf(s.rows), CoresOf(t.rows))
  {
    assert CoresOf(t.rows) == CoresOf(s.rows);
    forall item | item in plan.processes && item.id in t.rows ensures SameRow(b, t.rows[item.id], item) == Ok(true) {
      assert SameRow(b, s.rows[item.id], item) == Ok(true);
      if t.rows[item.id] != s.rows[item.id] { MatchingIsStable(b, s.rows[item.id], t.rows[item.id], item); }
    }
  }

  lemma NextKeeps(b: Boundary, plan: Plan, s: Store, t: Store)
    requires Persistable(plan) && Invariant(b, plan, s) && Next(b, plan, s, t)
    ensures Invariant(b, plan, t) && Forward(CoresOf(s.rows), CoresOf(t.rows))
  {
    hide Invariant, Forward, Schedules, Refreshes, Advances, Executes, BindsAdapters;
    if Schedules(b, plan, s, t) { SchedulesKeeps(b, plan, s, t); }
    else if Refreshes(b, plan, s, t) { RefreshesKeeps(b, plan, s, t); }
    else if Advances(b, plan, s, t) { AdvancesKeeps(b, plan, s, t); }
    else if Executes(b, s, t) { ExecutesKeeps(b, plan, s, t); }
    else { BindsKeeps(b, plan, s, t); }
  }

  // ---------------------------------------------------------------- runs

  /** A run of the plan starts before any of its processes is scheduled. */
  ghost predicate Starts(plan: Plan, s: Store) {
    Coherent(s) && forall item :: item in plan.processes ==> item.id !in s.rows
  }

  ghost predicate Run(b: Boundary, plan: Plan, run: seq<Store>) {
    && |run| > 0 && Starts(plan, run[0])
    && forall k {:trigger Next(b, plan, run[k], run[k + 1])} :: 0 <= k < |run| - 1 ==> Next(b, plan, run[k], run[k + 1])
  }

  lemma RunStep(b: Boundary, plan: Plan, run: seq<Store>, k: nat)
    requires Run(b, plan, run) && 0 < k < |run|
    ensures Next(b, plan, run[k - 1], run[k])
  {
    var before := k - 1;
    assert Next(b, plan, run[before], run[before + 1]);
  }

  lemma StartsInvariant(b: Boundary, plan: Plan, s: Store)
    requires Starts(plan, s)
    ensures Invariant(b, plan, s)
  {
    forall i | 0 <= i < |plan.processes| ensures plan.processes[i].id !in CoresOf(s.rows) {
      assert plan.processes[i] in plan.processes;
    }
  }

  /** Every state of a run keeps the invariants. */
  lemma {:induction false} RunInvariant(b: Boundary, plan: Plan, run: seq<Store>, k: nat)
    requires Persistable(plan) && Run(b, plan, run) && k < |run|
    ensures Invariant(b, plan, run[k])
    decreases k
  {
    if k == 0 {
      StartsInvariant(b, plan, run[0]);
    } else {
      RunInvariant(b, plan, run, k - 1);
      RunStep(b, plan, run, k);
      NextKeeps(b, plan, run[k - 1], run[k]);
    }
  }

  lemma {:induction false} RunForward(b: Boundary, plan: Plan, run: seq<Store>, j: nat, k: nat)
    requires Persistable(plan) && Run(b, plan, run) && j <= k < |run|
    ensures Forward(CoresOf(run[j].rows), CoresOf(run[k].rows))
    decreases k
  {
    if j < k {
      RunForward(b, plan, run, j, k - 1);
      RunInvariant(b, plan, run, k - 1);
      RunStep(b, plan, run, k);
      NextKeeps(b, plan, run[k - 1], run[k]);
      ForwardTransitive(CoresOf(run[j].rows), CoresOf(run[k - 1].rows), CoresOf(run[k].rows));
    }
  }

  /** Order of completion: at every moment of every run a process past pending has all its transitive
      upstreams finished. */
  lemma NothingStartsEarly(b: Boundary, plan: Plan, run: seq<Store>, k: nat, i: nat, upstream: string)
    requires Persistable(plan) && Run(b, plan, run) && k < |run| && i < |plan.processes|
    requires plan.processes[i].id in run[k].rows && !run[k].rows[plan.processes[i].id].status.Pending?
    requires Reaches(NodesOf(plan), plan.processes[i].effectorId, upstream)
    ensures Settles(plan, CoresOf(run[k].rows), upstream)
  {
    RunInvariant(b, plan, run, k);
    PastPendingMeansAncestorsFinished(plan, CoresOf(run[k].rows), i, upstream);
  }

  // ---------------------------------------------------------------- cycles

  /** No order of single steps takes a cycle member out of pending: it would have to be finished first. */
  lemma {:induction false} CycleMemberStays(b: Boundary, plan: Plan, tr: seq<Cores>, p: nat)
    requires Distinct(plan) && Trace(b, plan, tr) && SettledCores(plan, tr[0]) && p < |plan.processes|
    requires Reaches(NodesOf(plan), plan.processes[p].effectorId, plan.processes[p].effectorId)
    requires plan.processes[p].id in tr[0] && tr[0][plan.processes[p].id].status.Pending?
    ensures plan.processes[p].id in tr[|tr| - 1] && tr[|tr| - 1][plan.processes[p].id].status.Pending?
    decreases |tr|
  {
    if |tr| > 1 {
      var i := LastStep(b, plan, tr);
      var q := tr[..|tr| - 1];
      CycleMemberStays(b, plan, q, p);
      TraceKeepsSettled(b, plan, q);
      PlanUpstreams(plan, plan.processes[p]);
      assert ProcessIndex(plan, plan.processes[p].effectorId) == p;
      if i == p {
        FinishedUpstreamsReachUp(plan, q[|q| - 1], p, plan.processes[p].effectorId);
      }
    }
  }

  lemma CycleMemberStaysReached(b: Boundary, plan: Plan, c: Cores, d: Cores, p: nat)
    requires Distinct(plan) && Reached(b, plan, c, d) && SettledCores(plan, c) && p < |plan.processes|
    requires Reaches(NodesOf(plan), plan.processes[p].effectorId, plan.processes[p].effectorId)
    requires plan.processes[p].id in c && c[plan.processes[p].id].status.Pending?
    ensures plan.processes[p].id in d && d[plan.processes[p].id].status.Pending?
  {
    var tr :| TraceFromTo(b, plan, tr, c, d);
    CycleMemberStays(b, plan, tr, p);
  }

  lemma CycleMemberHasUpstreams(plan: Plan, p: nat)
    requires Distinct(plan) && p < |plan.processes|
    requires Reaches(NodesOf(plan), plan.processes[p].effectorId, plan.processes[p].effectorId)
    ensures plan.processes[p].conduction != []
  {
    PlanUpstreams(plan, plan.processes[p]);
    var w :| WalkFromTo(NodesOf(plan), w, plan.processes[p].effectorId, plan.processes[p].effectorId);
    assert w[0 + 1] in Upstreams(NodesOf(plan), w[0]);
  }

  lemma CycleMemberStaysNext(b: Boundary, plan: Plan, s: Store, t: Store, p: nat)
    requires Persistable(plan) && Invariant(b, plan, s) && Next(b, plan, s, t) && p < |plan.processes|
    requires Reaches(NodesOf(plan), plan.processes[p].effectorId, plan.processes[p].effectorId)
    requires plan.processes[p].id in s.rows ==> s.rows[plan.processes[p].id].status.Pending?
    ensures plan.processes[p].id in t.rows ==> t.rows[plan.processes[p].id].status.Pending?
  {
    var item := plan.processes[p];
    assert item in plan.processes;
    if Schedules(b, plan, s, t) {
      CycleMemberHasUpstreams(plan, p);
      if item.id !in s.rows { assert FreshRow(b, item) == Ok(t.rows[item.id]); }
    } else if Refreshes(b, plan, s, t) {
      RefreshIsQuiescent(b, plan, s.rows, t.rows);
      CycleMemberStaysReached(b, plan, CoresOf(s.rows), CoresOf(t.rows), p);
    } else if Advances(b, plan, s, t) {
      CycleMemberStaysReached(b, plan, CoresOf(s.rows), CoresOf(t.rows), p);
    }
  }

  lemma {:induction false} CycleMembersNeverStart(b: Boundary, plan: Plan, run: seq<Store>, k: nat, p: nat)
    requires Persistable(plan) && Run(b, plan, run) && k < |run| && p < |plan.processes|
    requires Reaches(NodesOf(plan), plan.processes[p].effectorId, plan.processes[p].effectorId)
    ensures plan.processes[p].id in run[k].rows ==> run[k].rows[plan.processes[p].id].status.Pending?
    decreases k
  {
    hide Invariant, Next, Persistable, Reaches;
    if k == 0 {
      assert plan.processes[p] in plan.processes;
    } else {
      CycleMembersNeverStart(b, plan, run, k - 1, p);
      RunStep(b, plan, run, k);
      RunInvariant(b, plan, run, k - 1);
      CycleMemberStaysNext(b, plan, run[k - 1], run[k], p);
    }
  }

  /** A member of a conduction cycle, and everything downstream of one, stays pending for the whole run. */
  lemma CyclesNeverStart(b: Boundary, plan: Plan, run: seq<Store>, k: nat, i: nat, member: string)
    requires Persistable(plan) && Run(b, plan, run) && k < |run| && i < |plan.processes|
    requires member == plan.processes[i].effectorId || Reaches(NodesOf(plan), plan.processes[i].effectorId, member)
    requires Reaches(NodesOf(plan), member, member)
    requires plan.processes[i].id in run[k].rows
    ensures run[k].rows[plan.processes[i].id].status.Pending?
  {
    assert plan.processes[i] in plan.processes;
    PlanUpstreams(plan, plan.processes[i]);
    if member == plan.processes[i].effectorId {
      CycleMembersNeverStart(b, plan, run, k, i);
    } else if !run[k].rows[plan.processes[i].id].status.Pending? {
      NothingStartsEarly(b, plan, run, k, i, member);
      CycleMembersNeverStart(b, plan, run, k, ProcessIndex(plan, member));
      assert false;
    }
  }

  /** A process once named in a deadlock diagnosis is never readied, before or after. */
  lemma DiagnosedNeverReadied(b: Boundary, plan: Plan, run: seq<Store>, k: nat, l: nat, s: ExecutionState)
    requires Persistable(plan) && Run(b, plan, run) && k < |run| && l < |run|
    requires Scheduled(plan, run[k].rows) && CycleBlocked(StatesOf(plan, run[k].rows), s)
    requires s.processId in run[l].rows
    ensures run[l].rows[s.processId].status.Pending?
  {
    var states := StatesOf(plan, run[k].rows);
    StatesHavePlanNodes(plan, run[k].rows);
    var i :| 0 <= i < |states| && states[i] == s;
    var p :| BlockedCycle(Nodes(states), BlockedEffectors(states), s.effectorId, p);
    assert Reaches(NodesOf(plan), s.effectorId, s.effectorId);
    CyclesNeverStart(b, plan, run, l, i, s.effectorId);
  }

  // ---------------------------------------------------------------- conditions

  /** What a matching condition means: its source succeeded, and the selected scalar is the declared one. */
  lemma MatchedCondition(b: Boundary, plan: Plan, c: Cores, i: nat)
    requires i < |plan.processes| && plan.processes[i].when.Some? && Decision(b, plan, c, i) == Ok(true)
    ensures var item := plan.processes[i];
      && ConditionShape(item.when.value) && item.when.value.fields["upstream"].text in item.conduction
      && SelectedFrom(b, plan, c, item.when.value.fields["upstream"].text, item.when.value.fields["path"].text) == Ok(item.when.value.fields["equals"])
  {
  }

  /** The scalar at `path` in the projected output of a succeeded upstream. */
  function SelectedFrom(b: Boundary, plan: Plan, c: Cores, upstream: string, path: string): Outcome<Json> {
    var p := ProcessIndex(plan, upstream);
    if p < 0 || plan.processes[p].id !in c || !c[plan.processes[p].id].status.Succeeded? then Raise("condition_source_not_succeeded")
    else
      var projected :- ProjectOutput(b, c[plan.processes[p].id].output, plan.processes[p].outputSchema);
      Select(projected, Split(path, '.'))
  }

  /** In every run a conditional process that is past pending and was not skipped has a succeeded source
      whose selected scalar equals the declared value. */
  lemma OnlyMatchedRun(b: Boundary, plan: Plan, run: seq<Store>, k: nat, i: nat)
    requires Persistable(plan) && Run(b, plan, run) && k < |run| && i < |plan.processes| && plan.processes[i].when.Some?
    requires plan.processes[i].id in run[k].rows
    requires !run[k].rows[plan.processes[i].id].status.Pending? && !run[k].rows[plan.processes[i].id].status.Skipped?
    ensures var when := plan.processes[i].when.value;
      ConditionShape(when) && SelectedFrom(b, plan, CoresOf(run[k].rows), when.fields["upstream"].text, when.fields["path"].text) == Ok(when.fields["equals"])
  {
    RunInvariant(b, plan, run, k);
    MatchedCondition(b, plan, CoresOf(run[k].rows), i);
  }

  /** Two processes that compare the same upstream value with different scalars never both run, at whatever
      moments of the run each is looked at. */
  lemma ExclusiveConditions(b: Boundary, plan: Plan, run: seq<Store>, k: nat, l: nat, i: nat, j: nat)
    requires Persistable(plan) && Run(b, plan, run) && k <= l < |run| && i < |plan.processes| && j < |plan.processes|
    requires plan.processes[i].when.Some? && plan.processes[j].when.Some?
    requires ConditionShape(plan.processes[i].when.value) && ConditionShape(plan.processes[j].when.value)
    requires plan.processes[i].when.value.fields["upstream"] == plan.processes[j].when.value.fields["upstream"]
    requires plan.processes[i].when.value.fields["path"] == plan.processes[j].when.value.fields["path"]
    requires plan.processes[i].when.value.fields["equals"] != plan.processes[j].when.value.fields["equals"]
    requires plan.processes[i].id in run[k].rows && !run[k].rows[plan.processes[i].id].status.Pending? && !run[k].rows[plan.processes[i].id].status.Skipped?
    ensures plan.processes[j].id in run[l].rows ==> run[l].rows[plan.processes[j].id].status.Pending? || run[l].rows[plan.processes[j].id].status.Skipped?
  {
    var c, d := CoresOf(run[k].rows), CoresOf(run[l].rows);
    RunInvariant(b, plan, run, k);
    RunInvariant(b, plan, run, l);
    RunForward(b, plan, run, k, l);
    assert UpstreamsFinished(plan, c, i);
    ForwardDecision(b, plan, c, d, i);
    MatchedCondition(b, plan, d, i);
    var when := plan.processes[j].when.value;
    if Decision(b, plan, d, j) == Ok(true) { MatchedCondition(b, plan, d, j); }
  }

  // ---------------------------------------------------------------- the two moves that break the order

  /** status.mojo also lets an operator move a pending row.  Doing so keeps the order of completion exactly
      when the row's upstreams have all finished. */
  lemma MovingPendingRow(plan: Plan, c: Cores, i: nat, core: Core)
    requires Distinct(plan) && SettledCores(plan, c) && i < |plan.processes|
    requires plan.processes[i].id in c && c[plan.processes[i].id].status.Pending?
    requires plan.processes[i].effectorId !in plan.processes[i].conduction
    requires CanTransition(Pending, core.status)
    ensures SettledCores(plan, c[plan.processes[i].id := core]) <==> UpstreamsFinished(plan, c, i)
  {
    var d := c[plan.processes[i].id := core];
    assert !core.status.Pending?;
    forall u | u in plan.processes[i].conduction ensures Settles(plan, d, u) <==> Settles(plan, c, u) {
      OwnIdOnly(plan, i, u);
    }
    if UpstreamsFinished(plan, c, i) {
      forall k | 0 <= k < |plan.processes| && plan.processes[k].id in d && !d[plan.processes[k].id].status.Pending?
        ensures UpstreamsFinished(plan, d, k)
      {
        if k != i {
          forall u | u in plan.processes[k].conduction ensures Settles(plan, d, u) {
            assert UpstreamsFinished(plan, c, k) && Settles(plan, c, u);
          }
        }
      }
    }
  }

  /** Another effector's process has another id. */
  lemma OwnIdOnly(plan: Plan, i: nat, u: string)
    requires Distinct(plan) && i < |plan.processes| && u != plan.processes[i].effectorId
    ensures ProcessIndex(plan, u) >= 0 ==> plan.processes[ProcessIndex(plan, u)].id != plan.processes[i].id
  {
  }

  /** The journal can also reopen a finished row, a failed one for retry or a homeostat's for waiting.  That
      keeps the order of completion exactly when no dependent of it has left pending. */
  lemma ReopeningFinishedRow(plan: Plan, c: Cores, i: nat, core: Core)
    requires Distinct(plan) && SettledCores(plan, c) && i < |plan.processes|
    requires plan.processes[i].id in c && Terminal(c[plan.processes[i].id].status)
    requires core.status.RetryWait? || core.status.Waiting?
    requires plan.processes[i].effectorId !in plan.processes[i].conduction
    ensures SettledCores(plan, c[plan.processes[i].id := core]) <==>
      forall k :: 0 <= k < |plan.processes| && plan.processes[i].effectorId in plan.processes[k].conduction && plan.processes[k].id in c
        ==> c[plan.processes[k].id].status.Pending?
  {
    var d, e := c[plan.processes[i].id := core], plan.processes[i].effectorId;
    assert ProcessIndex(plan, e) == i by { assert NodesOf(plan)[i].id == e; }
    assert !Settles(plan, d, e);
    forall u | u != e && Settles(plan, c, u) ensures Settles(plan, d, u) {}
    if forall k :: 0 <= k < |plan.processes| && e in plan.processes[k].conduction && plan.processes[k].id in c ==> c[plan.processes[k].id].status.Pending? {
      forall k | 0 <= k < |plan.processes| && plan.processes[k].id in d && !d[plan.processes[k].id].status.Pending?
        ensures UpstreamsFinished(plan, d, k)
      {
        assert e !in plan.processes[k].conduction;
        assert UpstreamsFinished(plan, c, k);
      }
    } else {
      var k :| 0 <= k < |plan.processes| && e in plan.processes[k].conduction && plan.processes[k].id in c && !c[plan.processes[k].id].status.Pending?;
      assert !UpstreamsFinished(plan, d, k);
    }
  }

  // ---------------------------------------------------------------- replay inside runs

  /** At every moment of every run, persisting the plan again cannot conflict: once it is scheduled the replay
      completes exactly when every released process can be readied by a refresh. */
  lemma ReplayNeverConflicts(b: Boundary, plan: Plan, run: seq<Store>, k: nat)
    requires Persistable(plan) && Run(b, plan, run) && k < |run|
    ensures RowsMatch(b, plan, run[k].rows)
    ensures plan.processes != [] && Scheduled(plan, run[k].rows) ==>
      (Persists(b, plan, run[k].rows) <==> RefreshSound(b, plan, run[k].rows))
  {
    RunInvariant(b, plan, run, k);
    if plan.processes != [] && Scheduled(plan, run[k].rows) {
      assert plan.processes[0] in plan.processes && Begun(plan, run[k].rows);
      ReplayOnlyRefreshes(b, plan, run[k].rows);
    }
  }

  /** At every moment of every run, once the plan is scheduled, it is admitted for advancement and the bound on rounds
      suffices: an advancement completes unless single steps lead to a journal that raises. */
  lemma RunsConverge(b: Boundary, plan: Plan, run: seq<Store>, k: nat)
    requires Persistable(plan) && Run(b, plan, run) && k < |run|
    ensures Coherent(run[k]) && Settled(plan, run[k].rows) && !BoundFails(b, plan, run[k])
    ensures plan.processes != [] && SelfDescribed(plan) && Scheduled(plan, run[k].rows) ==>
      Advanceable(plan) && Admissible(b, plan, run[k].rows)
  {
    RunInvariant(b, plan, run, k);
    CoherentBoundHolds(b, plan, run[k]);
    if plan.processes != [] && SelfDescribed(plan) && Scheduled(plan, run[k].rows) {
      PersistableIsAdvanceable(plan);
      assert plan.processes[0] in plan.processes && Begun(plan, run[k].rows);
      forall item | item in plan.processes ensures SameDurableRow(b, run[k].rows[item.id], item) == Ok(true) {
        PersistedRowsAdvance(b, run[k].rows[item.id], item);
      }
    }
  }
}
