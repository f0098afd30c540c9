/** What an advancement did, told from the rows before and after it: who was readied with what, who was skipped and
    why, and who is still waiting. */
module Outcomes {
  import opened Wrappers
  import opened Readiness
  import opened CorrelationPlan
  import opened Conveyance
  import opened Conduct
  import opened RunJournals
  import opened Confluence
  import opened Settlement
  import opened Movement

  lemma SettlesIsDone(plan: Plan, rows: Rows, u: string)
    requires Distinct(plan)
    ensures Settles(plan, CoresOf(rows), u) <==> DoneUpstream(plan, rows, u)
  {
    forall p | 0 <= p < |plan.processes| && plan.processes[p].effectorId == u ensures ProcessIndex(plan, u) == p {
      assert NodesOf(plan)[p].id == u;
    }
  }

  lemma UpstreamsFinishedIsAllDone(plan: Plan, rows: Rows, i: nat)
    requires Distinct(plan) && i < |plan.processes|
    ensures UpstreamsFinished(plan, CoresOf(rows), i) <==> AllDone(plan, rows, plan.processes[i])
  {
    forall u ensures Settles(plan, CoresOf(rows), u) <==> DoneUpstream(plan, rows, u) { SettlesIsDone(plan, rows, u); }
  }

  /** The decision on the cores is the answer to the condition on any states that show the rows. */
  lemma DecisionAnswers(b: Boundary, plan: Plan, rows: Rows, i: nat)
    requires Distinct(plan) && Scheduled(plan, rows) && i < |plan.processes|
    ensures Shows(plan, rows, StatesOf(plan, rows)) && DistinctEffectors(StatesOf(plan, rows))
    ensures AnswersCondition(b, plan.processes[i], plan, StatesOf(plan, rows), Decision(b, plan, CoresOf(rows), i))
  {
    StatesShow(plan, rows);
    StatesAreDistinct(plan, rows);
    DecisionIsCondition(b, plan, rows, i);
    ConditionAnswers(b, plan.processes[i], plan, StatesOf(plan, rows));
  }

  /** What a decision makes of a row. */
  lemma MovedRow(b: Boundary, plan: Plan, s: Rows, t: Rows, i: nat)
    requires i < |plan.processes| && KeptRows(s, t) && Moved(b, plan, CoresOf(s), CoresOf(t), i)
    ensures UpstreamsFinished(plan, CoresOf(t), i) && Decision(b, plan, CoresOf(t), i).Ok?
    ensures var item := plan.processes[i];
      && item.id in s && item.id in t && t[item.id].error == s[item.id].error
      && (if Decision(b, plan, CoresOf(t), i).value then t[item.id].status.Ready? && t[item.id].output == s[item.id].output
          else t[item.id].status.Skipped? && t[item.id].input == s[item.id].input && t[item.id].output == SkippedOutput(item))
  {
    hide Decision, Settles;
    var id := plan.processes[i].id;
    assert KeptRow(s[id], t[id]) && CoresOf(t)[id] == CoreOf(t[id]) && CoresOf(s)[id] == CoreOf(s[id]);
  }

  lemma AnsweredIsDecided(b: Boundary, plan: Plan, s: Rows, t: Rows, item: ProcessPlan, states: seq<ExecutionState>, ready: bool)
    requires item.id in s && item.id in t && t[item.id].error == s[item.id].error && AllDone(plan, t, item)
    requires Shows(plan, t, states) && AnswersCondition(b, item, plan, states, Ok(ready))
    requires ready ==> t[item.id].status.Ready? && t[item.id].output == s[item.id].output && MergesDirect(b, item, plan, states, t[item.id].input)
    requires !ready ==> t[item.id].status.Skipped? && t[item.id].input == s[item.id].input && t[item.id].output == SkippedOutput(item)
    ensures DecidedRow(b, plan, s, t, item)
  {
    if !ready && item.when.None? { AnsweredWithoutCondition(b, item, plan, states, Ok(ready)); }
    hide Shows, AllDone, AnswersCondition, MergesDirect;
    assert DecidedOn(b, plan, s, t, item, states, ready);
  }

  lemma MovedIsDecided(b: Boundary, plan: Plan, s: Rows, t: Rows, i: nat)
    requires Distinct(plan) && Scheduled(plan, s) && KeptRows(s, t) && i < |plan.processes|
    requires Moved(b, plan, CoresOf(s), CoresOf(t), i)
    requires t[plan.processes[i].id].status.Ready? ==> DirectlyMerged(b, plan, t, plan.processes[i])
    ensures DecidedRow(b, plan, s, t, plan.processes[i])
  {
    var item, states := plan.processes[i], StatesOf(plan, t);
    assert item in plan.processes;
    MovedRow(b, plan, s, t, i);
    UpstreamsFinishedIsAllDone(plan, t, i);
    DecisionAnswers(b, plan, t, i);
    var ready := Decision(b, plan, CoresOf(t), i).value;
    hide Moved, KeptRows, Decision, Shows, AllDone, AnswersCondition, UpstreamsFinished, MergesDirect, DirectInput, SameDirect;
    if ready { DirectMerges(b, item, plan, states, t[item.id].input); }
    AnsweredIsDecided(b, plan, s, t, item, states, ready);
  }

  lemma AnsweredWithoutCondition(b: Boundary, item: ProcessPlan, plan: Plan, states: seq<ExecutionState>, r: Outcome<bool>)
    requires item.when.None? && AnswersCondition(b, item, plan, states, r)
    ensures r == Ok(true)
  {
  }

  /** Whatever an advancement moved, it decided. */
  lemma ProgressDecides(b: Boundary, plan: Plan, s: Store, t: Store)
    requires Distinct(plan) && Scheduled(plan, s.rows) && Progress(b, plan, s, t)
    ensures DecidedRows(b, plan, s.rows, t.rows)
    ensures Settled(plan, s.rows) ==> ReadiedInFull(b, plan, s.rows, t.rows)
  {
    ProgressScheduled(b, plan, s, t);
    hide DecidedRow, Scheduled, Reached, MovesRecorded, Coherent, Settled, KeptRows, InputsMerged, ReadiedInFull;
    forall item | item in plan.processes && item.id in s.rows && item.id in t.rows && s.rows[item.id].status.Pending? && !t.rows[item.id].status.Pending?
      ensures DecidedRow(b, plan, s.rows, t.rows, item)
    {
      ProgressDecidesOne(b, plan, s, t, item);
    }
    if Settled(plan, s.rows) { MergedIsInFull(b, plan, s.rows, t.rows); }
  }

  /** The decision behind a row that has left pending. */
  lemma MovedSince(b: Boundary, plan: Plan, s: Store, t: Store, item: ProcessPlan) returns (i: nat)
    requires Distinct(plan) && Moves(b, plan, s, t) && item in plan.processes && item.id in s.rows
    requires s.rows[item.id].status.Pending? && !t.rows[item.id].status.Pending?
    ensures i < |plan.processes| && plan.processes[i] == item && Moved(b, plan, CoresOf(s.rows), CoresOf(t.rows), i)
  {
    var c, d := CoresOf(s.rows), CoresOf(t.rows);
    var tr :| TraceFromTo(b, plan, tr, c, d);
    ReachedIsExplained(b, plan, c, tr);
    hide Moved, TraceFromTo, MovesRecorded, Coherent;
    assert d[item.id] != c[item.id];
    i :| 0 <= i < |plan.processes| && plan.processes[i].id == item.id && Moved(b, plan, c, d, i);
    var k :| 0 <= k < |plan.processes| && plan.processes[k] == item;
    assert i == k;
  }

  lemma ProgressDecidesOne(b: Boundary, plan: Plan, s: Store, t: Store, item: ProcessPlan)
    requires Distinct(plan) && Scheduled(plan, s.rows) && Progress(b, plan, s, t) && item in plan.processes
    requires s.rows[item.id].status.Pending? && !t.rows[item.id].status.Pending?
    ensures DecidedRow(b, plan, s.rows, t.rows, item)
  {
    hide Moved, DecidedRow, DirectlyMerged, Reached, MovesRecorded, Coherent, Settled;
    var i := MovedSince(b, plan, s, t, item);
    MovedIsDecided(b, plan, s.rows, t.rows, i);
  }

  lemma MergedIsInFull(b: Boundary, plan: Plan, s: Rows, t: Rows)
    requires Distinct(plan) && Scheduled(plan, t) && InputsMerged(b, plan, s, t)
    ensures ReadiedInFull(b, plan, s, t)
  {
    StatesShow(plan, t);
    StatesAreDistinct(plan, t);
    hide Shows, Merges, MergedInput;
    forall item | item in plan.processes && item.id in s && s[item.id].status.Pending? && t[item.id].status.Ready?
      ensures Merges(b, item, plan, StatesOf(plan, t), t[item.id].input)
    {
      MergedMerges(b, item, plan, StatesOf(plan, t));
    }
  }

  /** Where nothing is released, nobody is due. */
  lemma NothingReleasedNoneDue(plan: Plan, rows: Rows)
    requires Distinct(plan) && forall i :: 0 <= i < |plan.processes| ==> !Released(plan, CoresOf(rows), i)
    ensures NoneDue(plan, rows)
  {
    forall item | item in plan.processes && item.id in rows && rows[item.id].status.Pending? ensures !AllDone(plan, rows, item) {
      var i :| 0 <= i < |plan.processes| && plan.processes[i] == item;
      UpstreamsFinishedIsAllDone(plan, rows, i);
      assert !Released(plan, CoresOf(rows), i);
    }
  }

  /** A missed condition is answered with false. */
  lemma MissedIsFalse(b: Boundary, plan: Plan, rows: Rows, item: ProcessPlan, states: seq<ExecutionState>, r: Outcome<bool>)
    requires Distinct(plan) && Shows(plan, rows, states) && Missed(plan, rows, item) && AnswersCondition(b, item, plan, states, r)
    ensures r == Ok(false)
  {
    var upstream :| MissedAt(plan, rows, item, upstream);
    var path, equals :| Compares(item.when.value, upstream, path, equals);
    var p :| 0 <= p < |plan.processes| && plan.processes[p].effectorId == upstream && MissedRow(plan.processes[p], rows);
    assert ShowsRow(plan.processes[p], rows, states[p]);
    assert Sources(item, plan, states, upstream, p, p);
  }

  /** So what was decided and missed its condition was skipped. */
  lemma MissIsSkipped(b: Boundary, plan: Plan, s: Rows, t: Rows)
    requires Distinct(plan) && DecidedRows(b, plan, s, t) && NoneDue(plan, t)
    ensures MissesSkipped(plan, s, t)
  {
    hide AllDone, Missed, Shows, AnswersCondition, MergesDirect;
    forall item | item in plan.processes && item.id in s && item.id in t && s[item.id].status.Pending? && AllDone(plan, t, item) && Missed(plan, t, item)
      ensures t[item.id].status.Skipped?
    {
      assert DecidedRow(b, plan, s, t, item);
      var states, ready :| DecidedOn(b, plan, s, t, item, states, ready);
      MissedIsFalse(b, plan, t, item, states, Ok(ready));
    }
  }
}
