/** When the rounds of an advancement can run out, told from the journal it starts with. */
module RoundBound {
  import opened JsonValue
  import opened CorrelationPlan
  import opened Conveyance
  import opened RunJournals
  import opened Confluence
  import opened Movement

  type Commands = map<CommandKey, Json>

  /** The command a decision calls for is on record. */
  predicate Recorded(commands: Commands, id: string, ready: bool) {
    if ready then ReadyCommand(id) in commands else SkipCommand(id) in commands
  }

  /** A single step that still has its command to write. */
  ghost predicate FreeStep(b: Boundary, plan: Plan, commands: Commands, c: Cores, d: Cores, i: nat) {
    Step(b, plan, c, d, i) && !Recorded(commands, plan.processes[i].id, Decision(b, plan, c, i).value)
  }

  ghost predicate FreeLink(b: Boundary, plan: Plan, commands: Commands, c: Cores, d: Cores) {
    exists i: nat :: FreeStep(b, plan, commands, c, d, i)
  }

  ghost predicate FreeTrace(b: Boundary, plan: Plan, commands: Commands, tr: seq<Cores>) {
    |tr| > 0 && forall k {:trigger FreeLink(b, plan, commands, tr[k], tr[k + 1])} ::
      0 <= k < |tr| - 1 ==> FreeLink(b, plan, commands, tr[k], tr[k + 1])
  }

  ghost predicate FreeTraceFromTo(b: Boundary, plan: Plan, commands: Commands, tr: seq<Cores>, c: Cores, d: Cores) {
    FreeTrace(b, plan, commands, tr) && tr[0] == c && tr[|tr| - 1] == d
  }

  /** A released process whose command is on record already. */
  ghost predicate DeadEnd(b: Boundary, plan: Plan, commands: Commands, c: Cores, i: nat) {
    && i < |plan.processes| && Released(plan, c, i) && Decision(b, plan, c, i).Ok?
    && Recorded(commands, plan.processes[i].id, Decision(b, plan, c, i).value)
  }

  ghost predicate LeadsToDeadEnd(b: Boundary, plan: Plan, s: Store, tr: seq<Cores>, d: Cores, i: nat) {
    FreeTraceFromTo(b, plan, s.commands, tr, CoresOf(s.rows), d) && DeadEnd(b, plan, s.commands, d, i)
  }

  /** Steps that still have their commands to write lead from here to a dead end. */
  ghost predicate BoundFails(b: Boundary, plan: Plan, s: Store) {
    exists tr, d, i: nat :: LeadsToDeadEnd(b, plan, s, tr, d, i)
  }

  // ---------------------------------------------------------------- only if

  /** Rows that moved from `c` to `d` had their commands to write. */
  ghost predicate Unrecorded(commands: Commands, c: Cores, d: Cores) {
    forall id :: id in c && id in d && c[id].status.Pending? ==>
      && (d[id].status.Ready? ==> ReadyCommand(id) !in commands)
      && (d[id].status.Skipped? ==> SkipCommand(id) !in commands)
  }

  lemma {:induction false} MovesAreFree(b: Boundary, plan: Plan, commands: Commands, tr: seq<Cores>)
    requires Distinct(plan) && Trace(b, plan, tr) && Unrecorded(commands, tr[0], tr[|tr| - 1])
    ensures FreeTrace(b, plan, commands, tr)
    decreases |tr|
  {
    if |tr| > 1 {
      var i := LastStep(b, plan, tr);
      var q, last := tr[..|tr| - 1], |tr| - 2;
      ReachedIsExplained(b, plan, tr[0], q);
      FreeBefore(b, plan, commands, tr[0], tr[last], tr[last + 1], i);
      MovesAreFree(b, plan, commands, q);
      forall k | 0 <= k < |tr| - 1 ensures FreeLink(b, plan, commands, tr[k], tr[k + 1]) {
        if k < last { assert FreeLink(b, plan, commands, q[k], q[k + 1]); }
      }
    }
  }

  lemma FreeBefore(b: Boundary, plan: Plan, commands: Commands, start: Cores, c: Cores, d: Cores, i: nat)
    requires Explained(b, plan, start, c) && Step(b, plan, c, d, i) && Unrecorded(commands, start, d)
    ensures FreeStep(b, plan, commands, c, d, i) && Unrecorded(commands, start, c)
  {
    hide Decision, Settles;
    var id := plan.processes[i].id;
    MovedIsNotPending(b, plan, start, c, id);
    assert forall other :: other in c && other != id ==> d[other] == c[other];
  }

  /** Moves that end in a stuck row come from a journal whose bound fails. */
  lemma StuckMeansBoundFails(b: Boundary, plan: Plan, s: Store, t: Store)
    requires Distinct(plan) && Moves(b, plan, s, t) && SomeStuck(b, plan, t)
    ensures BoundFails(b, plan, s)
  {
    var i :| 0 <= i < |plan.processes| && Stuck(b, plan, t, i);
    var tr :| TraceFromTo(b, plan, tr, CoresOf(s.rows), CoresOf(t.rows));
    assert Unrecorded(s.commands, tr[0], tr[|tr| - 1]) by { assert MovesRecorded(s, t); }
    MovesAreFree(b, plan, s.commands, tr);
    StuckFromTheStart(b, plan, s, t, i);
    assert MovesRecorded(s, t);
    assert LeadsToDeadEnd(b, plan, s, tr, CoresOf(t.rows), i);
  }

  // ---------------------------------------------------------------- if

  lemma {:induction false} FreeTraceIsTrace(b: Boundary, plan: Plan, commands: Commands, tr: seq<Cores>)
    requires FreeTrace(b, plan, commands, tr)
    ensures Trace(b, plan, tr)
  {
    forall k | 0 <= k < |tr| - 1 ensures Linked(b, plan, tr[k], tr[k + 1]) {
      assert FreeLink(b, plan, commands, tr[k], tr[k + 1]);
      var i: nat :| FreeStep(b, plan, commands, tr[k], tr[k + 1], i);
      assert Step(b, plan, tr[k], tr[k + 1], i);
    }
  }

  /** Whatever single steps release along the way is decided alike, and moved, wherever nothing is left released. */
  lemma ReleasedIsMoved(b: Boundary, plan: Plan, tr: seq<Cores>, d: Cores, i: nat)
    requires Distinct(plan) && Trace(b, plan, tr) && i < |plan.processes| && Released(plan, tr[|tr| - 1], i)
    requires Reached(b, plan, tr[0], d) && forall k :: 0 <= k < |plan.processes| ==> !Released(plan, d, k)
    ensures Decision(b, plan, d, i) == Decision(b, plan, tr[|tr| - 1], i)
    ensures Moved(b, plan, tr[0], d, i) && UpstreamsSame(plan, tr[|tr| - 1], d, i)
    ensures Frozen(tr[0], d) && Within(tr[0], tr[|tr| - 1], d)
  {
    var start, c, item := tr[0], tr[|tr| - 1], plan.processes[i];
    var full :| TraceFromTo(b, plan, full, start, d);
    ReachedIsExplained(b, plan, start, full);
    ReachedIsExplained(b, plan, start, tr);
    WithinAlong(b, plan, start, tr, d);
    WithinDecision(b, plan, start, c, d, i);
    MovedIsNotPending(b, plan, start, c, item.id);
    assert !Released(plan, d, i);
    assert d[item.id] != start[item.id];
    var k :| 0 <= k < |plan.processes| && plan.processes[k].id == item.id && Moved(b, plan, start, d, k);
    assert k == i;
    forall u | u in item.conduction ensures SettlesAlike(plan, c, d, u) {
      WithinSettles(plan, start, c, d, u);
    }
  }

  /** The upstream has finished in both, identically. */
  ghost predicate SettlesAlike(plan: Plan, c: Cores, d: Cores, u: string) {
    && Settles(plan, c, u) && Settles(plan, d, u)
    && d[plan.processes[ProcessIndex(plan, u)].id] == c[plan.processes[ProcessIndex(plan, u)].id]
  }

  ghost predicate UpstreamsSame(plan: Plan, c: Cores, d: Cores, i: nat)
    requires i < |plan.processes|
  {
    forall u :: u in plan.processes[i].conduction ==> SettlesAlike(plan, c, d, u)
  }

  /** Moves that leave nothing released come from a journal whose bound holds. */
  lemma QuietMeansBoundHolds(b: Boundary, plan: Plan, s: Store, t: Store)
    requires Distinct(plan) && Moves(b, plan, s, t)
    requires forall k :: 0 <= k < |plan.processes| ==> !Released(plan, CoresOf(t.rows), k)
    ensures !BoundFails(b, plan, s)
  {
    if BoundFails(b, plan, s) {
      var tr, d, i: nat :| LeadsToDeadEnd(b, plan, s, tr, d, i);
      FreeTraceIsTrace(b, plan, s.commands, tr);
      ReleasedIsMoved(b, plan, tr, CoresOf(t.rows), i);
      MovedWasUnrecorded(b, plan, s, t, i);
    }
  }

  lemma MovedWasUnrecorded(b: Boundary, plan: Plan, s: Store, t: Store, i: nat)
    requires Moves(b, plan, s, t) && i < |plan.processes| && Moved(b, plan, CoresOf(s.rows), CoresOf(t.rows), i)
    ensures !Recorded(s.commands, plan.processes[i].id, Decision(b, plan, CoresOf(t.rows), i).value)
  {
    hide Decision;
    var id, d := plan.processes[i].id, CoresOf(t.rows);
    assert t.rows[id].status == d[id].status;
    assert MovesRecorded(s, t);
  }

  // ---------------------------------------------------------------- guards a caller can check

  /** It holds wherever no pending row stands under a recorded command. */
  lemma CleanBoundHolds(b: Boundary, plan: Plan, s: Store)
    requires Distinct(plan)
    requires forall item :: item in plan.processes && item.id in s.rows && s.rows[item.id].status.Pending? ==>
      ReadyCommand(item.id) !in s.commands && SkipCommand(item.id) !in s.commands
    ensures !BoundFails(b, plan, s)
  {
    if BoundFails(b, plan, s) {
      var tr, d, i: nat :| LeadsToDeadEnd(b, plan, s, tr, d, i);
      FreeTraceIsTrace(b, plan, s.commands, tr);
      ReachedIsExplained(b, plan, tr[0], tr);
      MovedIsNotPending(b, plan, tr[0], d, plan.processes[i].id);
    }
  }

  lemma CoherentBoundHolds(b: Boundary, plan: Plan, s: Store)
    requires Distinct(plan) && Coherent(s)
    ensures !BoundFails(b, plan, s)
  {
    CleanBoundHolds(b, plan, s);
  }

  /** Readying finishes nobody, so without conditions nothing is released on the way. */
  lemma {:induction false} UnconditionalReleases(b: Boundary, plan: Plan, tr: seq<Cores>, i: nat)
    requires Distinct(plan) && Trace(b, plan, tr) && i < |plan.processes| && Released(plan, tr[|tr| - 1], i)
    requires forall k :: 0 <= k < |plan.processes| ==> plan.processes[k].when.None?
    ensures Released(plan, tr[0], i)
    decreases |tr|
  {
    if |tr| > 1 {
      var k := LastStep(b, plan, tr);
      var c, d := tr[|tr| - 2], tr[|tr| - 1];
      forall u | u in plan.processes[i].conduction ensures Settles(plan, c, u) { assert Settles(plan, d, u); }
      UnconditionalReleases(b, plan, tr[..|tr| - 1], i);
    }
  }

  /** Without conditions it fails exactly where a row is stuck already: released, with its readiness on record. */
  lemma UnconditionalBound(b: Boundary, plan: Plan, s: Store)
    requires Distinct(plan) && forall k :: 0 <= k < |plan.processes| ==> plan.processes[k].when.None?
    ensures BoundFails(b, plan, s) <==>
      exists i :: 0 <= i < |plan.processes| && Released(plan, CoresOf(s.rows), i) && ReadyCommand(plan.processes[i].id) in s.commands
  {
    var c := CoresOf(s.rows);
    if BoundFails(b, plan, s) {
      var tr, d, i: nat :| LeadsToDeadEnd(b, plan, s, tr, d, i);
      FreeTraceIsTrace(b, plan, s.commands, tr);
      UnconditionalReleases(b, plan, tr, i);
    }
    forall i | 0 <= i < |plan.processes| && Released(plan, c, i) && ReadyCommand(plan.processes[i].id) in s.commands
      ensures LeadsToDeadEnd(b, plan, s, [c], c, i)
    {
    }
  }
}
