/** When an advancement raises, told from the journal it starts with. */
module Completion {
  import opened Wrappers
  import opened ConductionGraph
  import opened Readiness
  import opened CorrelationPlan
  import opened Conveyance
  import opened Conduct
  import opened RunJournals
  import opened Confluence
  import opened Settlement
  import opened Movement
  import opened RoundBound

  /** What a released process calls for cannot be done: its condition raises, its input cannot be merged, or its skip
      is refused. */
  ghost predicate CannotMove(b: Boundary, plan: Plan, t: Store, i: nat)
    requires i < |plan.processes| && Scheduled(plan, t.rows)
  {
    var item := plan.processes[i];
    match Decision(b, plan, CoresOf(t.rows), i)
    case Raise(_) => true
    case Ok(ready) =>
      if ready then MergedInput(b, item, plan, StatesOf(plan, t.rows)).Raise? else Skip(t, item.id, SkippedOutput(item)).Raise?
  }

  ghost predicate AllPresentable(b: Boundary, plan: Plan, rows: Rows)
    requires Scheduled(plan, rows)
  {
    forall item :: item in plan.processes ==> Presentable(b, item, rows[item.id])
  }

  ghost predicate Raises(b: Boundary, plan: Plan, t: Store)
    requires Scheduled(plan, t.rows)
  {
    || !AllPresentable(b, plan, t.rows)
    || !Markable(t.rows)
    || exists i :: 0 <= i < |plan.processes| && Released(plan, CoresOf(t.rows), i) && CannotMove(b, plan, t, i)
  }

  ghost predicate RaisesFrom(b: Boundary, plan: Plan, s: Store, t: Store) {
    Moves(b, plan, s, t) && Scheduled(plan, t.rows) && Raises(b, plan, t)
  }

  /** Single ready and skip steps lead from here to a journal that raises. */
  ghost predicate SomeRaise(b: Boundary, plan: Plan, s: Store) {
    exists t :: RaisesFrom(b, plan, s, t)
  }

  lemma RaisesLater(b: Boundary, plan: Plan, s: Store, t: Store)
    requires Moves(b, plan, s, t) && SomeRaise(b, plan, t)
    ensures SomeRaise(b, plan, s)
  {
    hide Moves, Raises;
    var u :| RaisesFrom(b, plan, t, u);
    MovesTransitive(b, plan, s, t, u);
    assert RaisesFrom(b, plan, s, u);
  }

  lemma RaisesNow(b: Boundary, plan: Plan, s: Store)
    requires Scheduled(plan, s.rows) && Raises(b, plan, s)
    ensures SomeRaise(b, plan, s)
  {
    ProgressSelf(b, plan, s);
    assert RaisesFrom(b, plan, s, s);
  }

  // ---------------------------------------------------------------- an advancement that completes met no error

  ghost predicate NoneAccumulates(plan: Plan) {
    forall item :: item in plan.processes ==> !Accumulates(item.metadata)
  }

  lemma PresentableAlike(b: Boundary, plan: Plan, s: Store, t: Store, f: Store)
    requires Distinct(plan) && Scheduled(plan, s.rows) && Moves(b, plan, s, t) && Moves(b, plan, s, f)
    requires AllPresentable(b, plan, f.rows)
    ensures AllPresentable(b, plan, t.rows)
  {
    var c, d := CoresOf(s.rows), CoresOf(t.rows);
    var tr :| TraceFromTo(b, plan, tr, c, d);
    ReachedIsExplained(b, plan, c, tr);
    forall item | item in plan.processes ensures Presentable(b, item, t.rows[item.id]) {
      assert KeptRow(s.rows[item.id], t.rows[item.id]) && KeptRow(s.rows[item.id], f.rows[item.id]);
      assert Presentable(b, item, f.rows[item.id]);
      if d[item.id] != c[item.id] {
        var k :| 0 <= k < |plan.processes| && plan.processes[k].id == item.id && Moved(b, plan, c, d, k);
      }
    }
  }

  lemma MarkableAlike(b: Boundary, plan: Plan, s: Store, t: Store, f: Store)
    requires Moves(b, plan, s, t) && Moves(b, plan, s, f) && Markable(f.rows)
    ensures Markable(t.rows)
  {
    forall id | id in t.rows ensures t.rows[id].metadata.Obj? {
      assert KeptRow(s.rows[id], t.rows[id]) && KeptRow(s.rows[id], f.rows[id]);
    }
  }

  /** A released process that an advancement has moved in the end could be moved from the start. */
  lemma SkipAlike(b: Boundary, plan: Plan, s: Store, t: Store, f: Store, i: nat)
    requires Moves(b, plan, s, t) && Moves(b, plan, s, f) && i < |plan.processes| && Released(plan, CoresOf(t.rows), i)
    requires Moved(b, plan, CoresOf(s.rows), CoresOf(f.rows), i) && Decision(b, plan, CoresOf(f.rows), i) == Ok(false)
    ensures Skip(t, plan.processes[i].id, SkippedOutput(plan.processes[i])).Ok?
  {
    hide Decision, Settles, Reached;
    var id := plan.processes[i].id;
    assert f.rows[id].status == CoresOf(f.rows)[id].status;
    assert MovesRecorded(s, f) && MovesRecorded(s, t);
    assert KeptRow(s.rows[id], t.rows[id]);
  }

  lemma DirectAlike(b: Boundary, plan: Plan, s: Store, t: Store, f: Store, i: nat)
    requires Scheduled(plan, s.rows) && Moves(b, plan, s, t) && Moves(b, plan, s, f)
    requires i < |plan.processes| && UpstreamsSame(plan, CoresOf(t.rows), CoresOf(f.rows), i)
    ensures DirectInput(b, plan.processes[i], plan, StatesOf(plan, t.rows)) == DirectInput(b, plan.processes[i], plan, StatesOf(plan, f.rows))
  {
    var item := plan.processes[i];
    StatesHavePlanNodes(plan, t.rows);
    StatesHavePlanNodes(plan, f.rows);
    forall u | u in item.conduction ensures AgreeOn(StatesOf(plan, t.rows), StatesOf(plan, f.rows), u) {
      AlikeAgrees(b, plan, s, t, f, u);
    }
    DirectInputFrame(b, item, plan, StatesOf(plan, t.rows), StatesOf(plan, f.rows));
  }

  lemma AlikeAgrees(b: Boundary, plan: Plan, s: Store, t: Store, f: Store, u: string)
    requires Scheduled(plan, s.rows) && Moves(b, plan, s, t) && Moves(b, plan, s, f)
    requires SettlesAlike(plan, CoresOf(t.rows), CoresOf(f.rows), u)
    ensures AgreeOn(StatesOf(plan, t.rows), StatesOf(plan, f.rows), u)
  {
    StatesHavePlanNodes(plan, t.rows);
    StatesHavePlanNodes(plan, f.rows);
    var id := plan.processes[ProcessIndex(plan, u)].id;
    assert KeptRow(s.rows[id], t.rows[id]) && KeptRow(s.rows[id], f.rows[id]);
    assert CoreOf(t.rows[id]) == CoreOf(f.rows[id]);
  }

  /** In a settled journal all the transitive upstreams of a released process are finished alike. */
  lemma MergedAlike(b: Boundary, plan: Plan, s: Store, t: Store, f: Store, tr: seq<Cores>, i: nat)
    requires Distinct(plan) && Scheduled(plan, s.rows) && Settled(plan, s.rows) && Moves(b, plan, s, t) && Moves(b, plan, s, f)
    requires TraceFromTo(b, plan, tr, CoresOf(s.rows), CoresOf(t.rows)) && i < |plan.processes| && Released(plan, CoresOf(t.rows), i)
    requires Frozen(CoresOf(s.rows), CoresOf(f.rows)) && Within(CoresOf(s.rows), CoresOf(t.rows), CoresOf(f.rows))
    ensures MergedInput(b, plan.processes[i], plan, StatesOf(plan, t.rows)) == MergedInput(b, plan.processes[i], plan, StatesOf(plan, f.rows))
  {
    var item := plan.processes[i];
    StatesHavePlanNodes(plan, t.rows);
    StatesHavePlanNodes(plan, f.rows);
    TraceKeepsSettled(b, plan, tr);
    forall u | Reaches(NodesOf(plan), item.effectorId, u) ensures AgreeOn(StatesOf(plan, t.rows), StatesOf(plan, f.rows), u) {
      FinishedUpstreamsReachUp(plan, CoresOf(t.rows), i, u);
      WithinSettles(plan, CoresOf(s.rows), CoresOf(t.rows), CoresOf(f.rows), u);
      AlikeAgrees(b, plan, s, t, f, u);
    }
    assert item in plan.processes;
    MergedInputFrame(b, item, plan, StatesOf(plan, t.rows), StatesOf(plan, f.rows));
  }

  lemma ReadiedAlike(b: Boundary, plan: Plan, s: Store, t: Store, f: Store, tr: seq<Cores>, i: nat)
    requires Distinct(plan) && Scheduled(plan, s.rows) && Moves(b, plan, s, t) && Progress(b, plan, s, f)
    requires Settled(plan, s.rows) || NoneAccumulates(plan)
    requires TraceFromTo(b, plan, tr, CoresOf(s.rows), CoresOf(t.rows)) && i < |plan.processes| && Released(plan, CoresOf(t.rows), i)
    requires Frozen(CoresOf(s.rows), CoresOf(f.rows)) && Within(CoresOf(s.rows), CoresOf(t.rows), CoresOf(f.rows))
    requires UpstreamsSame(plan, CoresOf(t.rows), CoresOf(f.rows), i)
    requires s.rows[plan.processes[i].id].status.Pending? && f.rows[plan.processes[i].id].status.Ready?
    ensures MergedInput(b, plan.processes[i], plan, StatesOf(plan, t.rows)).Ok?
  {
    assert Scheduled(plan, t.rows) && Scheduled(plan, f.rows);
    hide Moves, Released, Frozen, Within, UpstreamsSame, MergedInput, DirectInput, SameDirect, TraceFromTo;
    var item := plan.processes[i];
    assert item in plan.processes;
    if Settled(plan, s.rows) {
      MergedAlike(b, plan, s, t, f, tr, i);
    } else {
      assert DirectlyMerged(b, plan, f.rows, item);
      DirectAlike(b, plan, s, t, f, i);
      DirectIsMerged(b, item, plan, StatesOf(plan, t.rows));
    }
  }

  lemma DirectIsMerged(b: Boundary, item: ProcessPlan, plan: Plan, states: seq<ExecutionState>)
    requires !Accumulates(item.metadata)
    ensures MergedInput(b, item, plan, states) == DirectInput(b, item, plan, states)
  {
  }

  lemma ReleasedCanMove(b: Boundary, plan: Plan, s: Store, t: Store, f: Store, i: nat)
    requires Distinct(plan) && Scheduled(plan, s.rows) && Moves(b, plan, s, t) && Progress(b, plan, s, f)
    requires Settled(plan, s.rows) || NoneAccumulates(plan)
    requires forall k :: 0 <= k < |plan.processes| ==> !Released(plan, CoresOf(f.rows), k)
    requires i < |plan.processes| && Released(plan, CoresOf(t.rows), i)
    ensures !CannotMove(b, plan, t, i)
  {
    var c, d, e, id := CoresOf(s.rows), CoresOf(t.rows), CoresOf(f.rows), plan.processes[i].id;
    var tr :| TraceFromTo(b, plan, tr, c, d);
    ReleasedIsMoved(b, plan, tr, e, i);
    assert f.rows[id].status == e[id].status && s.rows[id].status == c[id].status;
    hide Released, Frozen, Within, UpstreamsSame, MergedInput, Skip, Decision, InputsDirect, InputsMerged, Reached, KeptRows, MovesRecorded;
    if Decision(b, plan, e, i).value {
      ReadiedAlike(b, plan, s, t, f, tr, i);
    } else {
      SkipAlike(b, plan, s, t, f, i);
    }
  }

  /** Where single steps leave nothing released, no journal between raises. */
  lemma QuietMeansNoRaise(b: Boundary, plan: Plan, s: Store, f: Store)
    requires Distinct(plan) && Scheduled(plan, s.rows) && Progress(b, plan, s, f)
    requires Settled(plan, s.rows) || NoneAccumulates(plan)
    requires forall k :: 0 <= k < |plan.processes| ==> !Released(plan, CoresOf(f.rows), k)
    requires AllPresentable(b, plan, f.rows) && Markable(f.rows)
    ensures !SomeRaise(b, plan, s)
  {
    hide Moves, CannotMove, AllPresentable, Markable, Released, InputsDirect, InputsMerged;
    forall t | Moves(b, plan, s, t) && Scheduled(plan, t.rows) ensures !Raises(b, plan, t) {
      PresentableAlike(b, plan, s, t, f);
      MarkableAlike(b, plan, s, t, f);
      forall i | 0 <= i < |plan.processes| && Released(plan, CoresOf(t.rows), i) ensures !CannotMove(b, plan, t, i) {
        ReleasedCanMove(b, plan, s, t, f, i);
      }
    }
  }
}
