/** What processes carry when they run: at every moment of every run the inputs are what scheduling wrote or what the
    finished upstreams conduct, missed conditions are skipped, and a path's regulation reaches its dependents. */
module RunInputs {
  import opened Wrappers
  import opened JsonValue
  import opened Readiness
  import opened CorrelationPlan
  import opened Conveyance
  import opened Conduct
  import opened RunJournals
  import opened Confluence
  import opened Settlement
  import opened Matching
  import opened Movement
  import opened Outcomes
  import opened Refresh
  import opened Runs

  // ---------------------------------------------------------------- inputs past pending are kept

  /** A row past pending keeps its input, and a pending one that stays pending too. */
  ghost predicate InputsKept(s: Rows, t: Rows) {
    forall id :: id in s ==> id in t && (!s[id].status.Pending? || t[id].status.Pending? ==> t[id].input == s[id].input)
  }

  /** What finished direct upstreams determine stays determined. */
  lemma CarriedStays(b: Boundary, plan: Plan, s: Rows, t: Rows, i: nat)
    requires Scheduled(plan, s) && Scheduled(plan, t) && Forward(CoresOf(s), CoresOf(t)) && InputsKept(s, t)
    requires i < |plan.processes| && UpstreamsFinished(plan, CoresOf(s), i)
    ensures DirectInput(b, plan.processes[i], plan, StatesOf(plan, t)) == DirectInput(b, plan.processes[i], plan, StatesOf(plan, s))
  {
    var item := plan.processes[i];
    StatesHavePlanNodes(plan, s);
    StatesHavePlanNodes(plan, t);
    forall u | u in item.conduction ensures AgreeOn(StatesOf(plan, s), StatesOf(plan, t), u) {
      assert Settles(plan, CoresOf(s), u);
      var id := plan.processes[ProcessIndex(plan, u)].id;
      assert CoresOf(t)[id] == CoresOf(s)[id];
    }
    DirectInputFrame(b, item, plan, StatesOf(plan, s), StatesOf(plan, t));
  }

  /** A planned row: what a root or a pending row holds was authored, and what runs downstream was merged. */
  ghost predicate CarriesInput(b: Boundary, plan: Plan, rows: Rows, item: ProcessPlan)
    requires item in plan.processes && Scheduled(plan, rows)
  {
    var row := rows[item.id];
    && (item.conduction == [] ==> !row.status.Pending?)
    && (item.conduction == [] || row.status.Pending? ==> InitialInput(item) == Ok(row.input))
    && (item.conduction != [] && !row.status.Pending? && !row.status.Skipped? ==> DirectlyMerged(b, plan, rows, item))
  }

  ghost predicate CarryInputs(b: Boundary, plan: Plan, rows: Rows) {
    Begun(plan, rows) ==> Scheduled(plan, rows) && forall item :: item in plan.processes ==> CarriesInput(b, plan, rows, item)
  }

  // ---------------------------------------------------------------- every step keeps them

  /** What holds of a row that was past pending already, or still is pending, goes on holding. */
  lemma KeptCarries(b: Boundary, plan: Plan, s: Rows, t: Rows, i: nat)
    requires Scheduled(plan, s) && Scheduled(plan, t) && Settled(plan, s) && i < |plan.processes|
    requires Forward(CoresOf(s), CoresOf(t)) && InputsKept(s, t) && CarriesInput(b, plan, s, plan.processes[i])
    requires !s[plan.processes[i].id].status.Pending? || t[plan.processes[i].id].status.Pending?
    ensures CarriesInput(b, plan, t, plan.processes[i])
  {
    var item := plan.processes[i];
    assert CoresOf(s)[item.id] == CoreOf(s[item.id]) && CoresOf(t)[item.id] == CoreOf(t[item.id]);
    hide InitialInput, DirectInput, SameDirect;
    if item.conduction != [] && !t[item.id].status.Pending? && !t[item.id].status.Skipped? {
      assert UpstreamsFinished(plan, CoresOf(s), i);
      CarriedStays(b, plan, s, t, i);
      assert DirectlyMerged(b, plan, s, item);
    }
  }

  lemma KeptRowsKeepInputs(s: Rows, t: Rows)
    requires KeptRows(s, t)
    ensures InputsKept(s, t)
  {
    forall id | id in s ensures KeptRow(s[id], t[id]) {}
  }

  lemma SchedulesCarry(b: Boundary, plan: Plan, s: Store, t: Store)
    requires Persistable(plan) && Settled(plan, s.rows) && CarryInputs(b, plan, s.rows) && Schedules(b, plan, s, t)
    requires Forward(CoresOf(s.rows), CoresOf(t.rows))
    ensures CarryInputs(b, plan, t.rows)
  {
    ScheduledRowsCover(b, plan, s.rows, t.rows);
    if Begun(plan, s.rows) {
      assert s.rows == t.rows;
    } else {
      hide InitialInput, MetadataFor;
      forall item | item in plan.processes ensures CarriesInput(b, plan, t.rows, item) {
        assert item.id !in s.rows;
        assert FreshRow(b, item) == Ok(t.rows[item.id]);
      }
    }
  }

  lemma RefreshesCarry(b: Boundary, plan: Plan, s: Store, t: Store)
    requires Persistable(plan) && Settled(plan, s.rows) && CarryInputs(b, plan, s.rows) && Refreshes(b, plan, s, t)
    requires Forward(CoresOf(s.rows), CoresOf(t.rows)) && (Begun(plan, t.rows) ==> Begun(plan, s.rows))
    ensures CarryInputs(b, plan, t.rows)
  {
    RefreshKeeps(b, plan, s.rows, t.rows);
    KeptRowsKeepInputs(s.rows, t.rows);
    hide CarriesInput, Persistable, Settled, KeptRows, Forward, InputsKept, RowMergedInput;
    if Begun(plan, t.rows) {
      forall item | item in plan.processes ensures CarriesInput(b, plan, t.rows, item) {
        var i :| 0 <= i < |plan.processes| && plan.processes[i] == item;
        if s.rows[item.id].status.Pending? && !t.rows[item.id].status.Pending? {
          RefreshedCarries(b, plan, s.rows, t.rows, i);
        } else {
          KeptCarries(b, plan, s.rows, t.rows, i);
        }
      }
    }
  }

  lemma RefreshedCarries(b: Boundary, plan: Plan, s: Rows, t: Rows, i: nat)
    requires Distinct(plan) && Scheduled(plan, s) && RefreshedRows(b, plan, s, t) && i < |plan.processes|
    requires s[plan.processes[i].id].status.Pending? && !t[plan.processes[i].id].status.Pending?
    requires CarriesInput(b, plan, s, plan.processes[i])
    ensures Scheduled(plan, t) && CarriesInput(b, plan, t, plan.processes[i])
  {
    var item := plan.processes[i];
    assert item in plan.processes;
    var k :| 0 <= k < |plan.processes| && plan.processes[k].id == item.id && Released(plan, CoresOf(s), k);
    assert k == i && RefreshedRow(b, plan, s, t, i);
    RefreshKeeps(b, plan, s, t);
    KeptUpstreams(plan, s, t, i);
    RowMergeIsDirect(b, plan, s, item);
    DirectStays(b, plan, s, t, i);
  }

  lemma AdvancesCarry(b: Boundary, plan: Plan, s: Store, t: Store)
    requires Persistable(plan) && Settled(plan, s.rows) && CarryInputs(b, plan, s.rows) && Advances(b, plan, s, t)
    requires Forward(CoresOf(s.rows), CoresOf(t.rows)) && (Begun(plan, t.rows) ==> Begun(plan, s.rows))
    ensures CarryInputs(b, plan, t.rows)
  {
    KeptRowsKeepInputs(s.rows, t.rows);
    hide Persistable, Settled, Forward, InputsKept, DirectInput, SameDirect, Reached, InitialInput, MovesRecorded;
    if Begun(plan, t.rows) {
      forall item | item in plan.processes ensures CarriesInput(b, plan, t.rows, item) {
        var i :| 0 <= i < |plan.processes| && plan.processes[i] == item;
        assert CarriesInput(b, plan, s.rows, item) && KeptRow(s.rows[item.id], t.rows[item.id]);
        if !s.rows[item.id].status.Pending? || t.rows[item.id].status.Pending? {
          KeptCarries(b, plan, s.rows, t.rows, i);
        }
      }
    }
  }

  /** Execution and binding change neither inputs nor who is pending. */
  lemma OthersCarry(b: Boundary, plan: Plan, s: Rows, t: Rows)
    requires Persistable(plan) && Settled(plan, s) && CarryInputs(b, plan, s) && s.Keys == t.Keys
    requires Forward(CoresOf(s), CoresOf(t)) && InputsKept(s, t)
    requires forall id :: id in s ==> (t[id].status.Pending? <==> s[id].status.Pending?)
    ensures CarryInputs(b, plan, t)
  {
    hide CarriesInput, Persistable, Settled, Forward;
    if Begun(plan, t) {
      assert Begun(plan, s);
      forall item | item in plan.processes ensures CarriesInput(b, plan, t, item) {
        var i :| 0 <= i < |plan.processes| && plan.processes[i] == item;
        KeptCarries(b, plan, s, t, i);
      }
    }
  }

  lemma ExecutesCarry(b: Boundary, plan: Plan, s: Store, t: Store)
    requires Persistable(plan) && Settled(plan, s.rows) && CarryInputs(b, plan, s.rows) && (Executes(b, s, t) || BindsAdapters(b, s, t))
    requires Forward(CoresOf(s.rows), CoresOf(t.rows))
    ensures CarryInputs(b, plan, t.rows)
  {
    hide Enriched, CarryInputs, Persistable, Settled, CanTransition, CanClaim;
    if Executes(b, s, t) {
      var id :| id in s.rows && ExecutedRow(b, s, t, id);
      forall k | k in s.rows ensures k in t.rows && t.rows[k].input == s.rows[k].input && (t.rows[k].status.Pending? <==> s.rows[k].status.Pending?) {
        assert CoresOf(s.rows)[k] == CoreOf(s.rows[k]) && CoresOf(t.rows)[k] == CoreOf(t.rows[k]);
      }
    }
    OthersCarry(b, plan, s.rows, t.rows);
  }

  lemma NextCarries(b: Boundary, plan: Plan, s: Store, t: Store)
    requires Persistable(plan) && Invariant(b, plan, s) && Next(b, plan, s, t) && CarryInputs(b, plan, s.rows)
    ensures CarryInputs(b, plan, t.rows)
  {
    NextKeeps(b, plan, s, t);
    assert s.rows.Keys == t.rows.Keys ==> (Begun(plan, t.rows) ==> Begun(plan, s.rows));
    hide Forward, CarryInputs, Settled, Gated, Coherent, RowsMatch, Begun, Persistable, RefreshedRows, ScheduledRows, InputsDirect;
    if Schedules(b, plan, s, t) { SchedulesCarry(b, plan, s, t); }
    else if Refreshes(b, plan, s, t) { RefreshKeys(b, plan, s.rows, t.rows); RefreshesCarry(b, plan, s, t); }
    else if Advances(b, plan, s, t) { AdvancesCarry(b, plan, s, t); }
    else { ExecutesCarry(b, plan, s, t); }
  }

  lemma RefreshKeys(b: Boundary, plan: Plan, s: Rows, t: Rows)
    requires RefreshedRows(b, plan, s, t)
    ensures s.Keys == t.Keys
  {
  }

  lemma {:induction false} RunsCarryInputs(b: Boundary, plan: Plan, run: seq<Store>, k: nat)
    requires Persistable(plan) && Run(b, plan, run) && k < |run|
    ensures CarryInputs(b, plan, run[k].rows)
    decreases k
  {
    if k == 0 {
      assert !Begun(plan, run[0].rows);
    } else {
      RunsCarryInputs(b, plan, run, k - 1);
      RunInvariant(b, plan, run, k - 1);
      RunStep(b, plan, run, k);
      NextCarries(b, plan, run[k - 1], run[k]);
    }
  }

  // ---------------------------------------------------------------- what it means for whoever runs

  /** At every moment of every run, a process with upstreams that is past pending and was not skipped has all its
      upstreams finished, and its input is what they conduct and pass on beside what was authored. */
  lemma RunnersCarryWhatWasConducted(b: Boundary, plan: Plan, run: seq<Store>, k: nat, item: ProcessPlan)
    requires Persistable(plan) && Run(b, plan, run) && k < |run| && item in plan.processes && item.conduction != []
    requires item.id in run[k].rows && !run[k].rows[item.id].status.Pending? && !run[k].rows[item.id].status.Skipped?
    ensures AllDone(plan, run[k].rows, item)
    ensures exists states :: Shows(plan, run[k].rows, states) && MergesDirect(b, item, plan, states, run[k].rows[item.id].input)
  {
    var rows := run[k].rows;
    RunsCarryInputs(b, plan, run, k);
    RunInvariant(b, plan, run, k);
    assert Begun(plan, rows);
    var i :| 0 <= i < |plan.processes| && plan.processes[i] == item;
    assert UpstreamsFinished(plan, CoresOf(rows), i);
    UpstreamsFinishedIsAllDone(plan, rows, i);
    assert DirectlyMerged(b, plan, rows, item);
    StatesAreDistinct(plan, rows);
    StatesShow(plan, rows);
    DirectMerges(b, item, plan, StatesOf(plan, rows), rows[item.id].input);
  }

  /** A root runs with its authored input and its own regulation. */
  lemma RootsCarryWhatWasAuthored(b: Boundary, plan: Plan, run: seq<Store>, k: nat, item: ProcessPlan)
    requires Persistable(plan) && Run(b, plan, run) && k < |run| && item in plan.processes && item.conduction == []
    requires item.id in run[k].rows
    ensures !run[k].rows[item.id].status.Pending? && FreshInput(item, run[k].rows[item.id].input)
  {
    RunsCarryInputs(b, plan, run, k);
    assert Begun(plan, run[k].rows) && CarriesInput(b, plan, run[k].rows, item);
    InitialInputIsFresh(item);
  }

  // ---------------------------------------------------------------- regulation

  ghost predicate RegulatesKey(j: Json, key: string) {
    exists value :: Regulates(j, key, value)
  }

  /** A key that a finished upstream's input regulates is regulated in the merged input, and with the same value when
      neither the path itself nor a later upstream says otherwise. */
  lemma RegulationReaches(b: Boundary, plan: Plan, rows: Rows, item: ProcessPlan, states: seq<ExecutionState>, input: Json, at: nat, p: nat, key: string, value: Json)
    requires Distinct(plan) && Shows(plan, rows, states) && MergesDirect(b, item, plan, states, input)
    requires at < |item.conduction| && p < |plan.processes| && plan.processes[p].effectorId == item.conduction[at]
    requires DoneRow(plan.processes[p], rows) && Regulates(rows[plan.processes[p].id].input, key, value)
    ensures RegulatesKey(input, key)
    ensures !RegulatesKey(item.metadata, key) && (forall k :: at < k < |item.conduction| ==> !PassesSome(states, item.conduction[k], key))
      ==> Regulates(input, key, value)
  {
    assert ShowsRow(plan.processes[p], rows, states[p]);
    assert PassesOn(states, item.conduction[at], key, value);
    hide PassesOn, Conducted;
    if RegulatesKey(item.metadata, key) {
      var own :| Regulates(item.metadata, key, own);
      assert Governs(item, states, key, own);
      assert Regulates(Obj(input.fields), key, own);
    } else {
      var last := LastPassing(states, item.conduction, at, key);
      var passed :| PassedAt(states, item.conduction, last, key, passed);
      assert Governs(item, states, key, passed);
      assert Regulates(Obj(input.fields), key, passed);
      if forall k :: at < k < |item.conduction| ==> !PassesSome(states, item.conduction[k], key) {
        assert PassedAt(states, item.conduction, at, key, value);
        assert Governs(item, states, key, value);
        assert Regulates(Obj(input.fields), key, value);
      }
    }
  }

  lemma {:induction false} LastPassing(states: seq<ExecutionState>, conduction: seq<string>, at: nat, key: string) returns (last: nat)
    requires at < |conduction| && PassesSome(states, conduction[at], key)
    ensures at <= last < |conduction| && exists value :: PassedAt(states, conduction, last, key, value)
    decreases |conduction| - at
  {
    if later :| at < later < |conduction| && PassesSome(states, conduction[later], key) {
      last := LastPassing(states, conduction, later, key);
    } else {
      last := at;
      var value :| PassesOn(states, conduction[at], key, value);
      assert PassedAt(states, conduction, at, key, value);
    }
  }

  /** A finished root's row regulates what its path does. */
  lemma RootRegulates(b: Boundary, plan: Plan, run: seq<Store>, k: nat, source: ProcessPlan, key: string, value: Json)
    requires Persistable(plan) && Run(b, plan, run) && k < |run| && source in plan.processes && source.conduction == []
    requires DoneUpstream(plan, run[k].rows, source.effectorId) && Regulates(source.metadata, key, value)
    ensures DoneRow(source, run[k].rows) && Regulates(run[k].rows[source.id].input, key, value)
  {
    hide Run;
    RootsCarryWhatWasAuthored(b, plan, run, k, source);
  }

  /** No other upstream of the process regulates the key. */
  ghost predicate SoleRegulator(plan: Plan, rows: Rows, item: ProcessPlan, source: ProcessPlan, key: string) {
    forall other :: other in plan.processes && other != source && other.effectorId in item.conduction && other.id in rows
      ==> !RegulatesKey(rows[other.id].input, key)
  }

  lemma NoneLater(plan: Plan, rows: Rows, item: ProcessPlan, states: seq<ExecutionState>, source: ProcessPlan, at: nat, key: string)
    requires Distinct(plan) && NoRepeats(item.conduction) && Shows(plan, rows, states) && SoleRegulator(plan, rows, item, source, key)
    requires at < |item.conduction| && item.conduction[at] == source.effectorId
    ensures forall k :: at < k < |item.conduction| ==> !PassesSome(states, item.conduction[k], key)
  {
    forall k, value | at < k < |item.conduction| ensures !PassesOn(states, item.conduction[k], key, value) {
      forall s | 0 <= s < |states| && states[s].effectorId == item.conduction[k] ensures !Regulates(states[s].input, key, value) {
        var other := plan.processes[s];
        assert ShowsRow(other, rows, states[s]) && other in plan.processes;
        assert other.effectorId != source.effectorId;
        assert !RegulatesKey(rows[other.id].input, key);
      }
    }
  }

  /** In every run, what a root's path regulates is regulated in the input of each direct dependent that runs, with the
      root's value when neither the dependent's path nor another upstream regulates it. */
  lemma RootRegulationReaches(b: Boundary, plan: Plan, run: seq<Store>, k: nat, source: ProcessPlan, item: ProcessPlan, key: string, value: Json)
    requires Persistable(plan) && Run(b, plan, run) && k < |run| && item in plan.processes
    requires source in plan.processes && source.conduction == [] && source.effectorId in item.conduction
    requires Regulates(source.metadata, key, value)
    requires item.id in run[k].rows && !run[k].rows[item.id].status.Pending? && !run[k].rows[item.id].status.Skipped?
    ensures RegulatesKey(run[k].rows[item.id].input, key)
    ensures !RegulatesKey(item.metadata, key) && SoleRegulator(plan, run[k].rows, item, source, key)
      ==> Regulates(run[k].rows[item.id].input, key, value)
  {
    var rows, input := run[k].rows, run[k].rows[item.id].input;
    RunnersCarryWhatWasConducted(b, plan, run, k, item);
    assert SoundConduction(plan, item);
    var at :| 0 <= at < |item.conduction| && item.conduction[at] == source.effectorId;
    assert DoneUpstream(plan, rows, source.effectorId);
    RootRegulates(b, plan, run, k, source, key, value);
    var p :| 0 <= p < |plan.processes| && plan.processes[p] == source;
    hide Run, DoneUpstream, Regulates, RegulatesKey, MergesDirect, Shows, SoleRegulator, Governs, PassesSome;
    var states :| Shows(plan, rows, states) && MergesDirect(b, item, plan, states, input);
    if SoleRegulator(plan, rows, item, source, key) { NoneLater(plan, rows, item, states, source, at, key); }
    RegulationReaches(b, plan, rows, item, states, input, at, p, key, value);
  }

  // ---------------------------------------------------------------- conditions

  /** In every run a conditional process whose source finished without success never runs: past pending it is skipped. */
  lemma MissedNeverRuns(b: Boundary, plan: Plan, run: seq<Store>, k: nat, item: ProcessPlan)
    requires Persistable(plan) && Run(b, plan, run) && k < |run| && item in plan.processes
    requires item.id in run[k].rows && !run[k].rows[item.id].status.Pending? && Missed(plan, run[k].rows, item)
    ensures run[k].rows[item.id].status.Skipped?
  {
    var rows := run[k].rows;
    RunsCarryInputs(b, plan, run, k);
    RunInvariant(b, plan, run, k);
    assert Begun(plan, rows);
    var i :| 0 <= i < |plan.processes| && plan.processes[i] == item;
    DecisionAnswers(b, plan, rows, i);
    MissedIsFalse(b, plan, rows, item, StatesOf(plan, rows), Decision(b, plan, CoresOf(rows), i));
    assert CoresOf(rows)[item.id] == CoreOf(rows[item.id]);
  }

  /** A condition answered with true is matched by its source's row. */
  lemma TrueIsMatched(b: Boundary, plan: Plan, rows: Rows, item: ProcessPlan, states: seq<ExecutionState>, upstream: string, path: string, equals: Json)
    requires Distinct(plan) && Shows(plan, rows, states) && AnswersCondition(b, item, plan, states, Ok(true))
    requires item.when.Some? && Compares(item.when.value, upstream, path, equals)
    ensures exists p :: 0 <= p < |plan.processes| && plan.processes[p].effectorId == upstream && MatchedRow(b, plan.processes[p], rows, path, equals)
  {
    hide ShowsScalar;
    var s, p :| Sources(item, plan, states, upstream, s, p);
    assert ShowsRow(plan.processes[s], rows, states[s]);
    assert s == p;
    assert MatchedRow(b, plan.processes[p], rows, path, equals);
  }

  /** And one that runs compares its source as declared: the source succeeded and shows the declared scalar at the path. */
  lemma RunnersMatched(b: Boundary, plan: Plan, run: seq<Store>, k: nat, item: ProcessPlan, upstream: string, path: string, equals: Json)
    requires Persistable(plan) && Run(b, plan, run) && k < |run| && item in plan.processes && item.when.Some?
    requires item.id in run[k].rows && !run[k].rows[item.id].status.Pending? && !run[k].rows[item.id].status.Skipped?
    requires Compares(item.when.value, upstream, path, equals)
    ensures exists p :: 0 <= p < |plan.processes| && plan.processes[p].effectorId == upstream && MatchedRow(b, plan.processes[p], run[k].rows, path, equals)
  {
    var rows := run[k].rows;
    RunsCarryInputs(b, plan, run, k);
    RunInvariant(b, plan, run, k);
    assert Begun(plan, rows);
    var i :| 0 <= i < |plan.processes| && plan.processes[i] == item;
    assert CoresOf(rows)[item.id] == CoreOf(rows[item.id]);
    DecisionAnswers(b, plan, rows, i);
    assert Decision(b, plan, CoresOf(rows), i) == Ok(true);
    hide Run, Decision, AnswersCondition, Shows, MatchedRow, CarriesInput, Coherent, RowsMatch;
    TrueIsMatched(b, plan, rows, item, StatesOf(plan, rows), upstream, path, equals);
  }

  ghost predicate MatchedRow(b: Boundary, source: ProcessPlan, rows: Rows, path: string, equals: Json) {
    source.id in rows && rows[source.id].status.Succeeded? && ShowsScalar(b, rows[source.id].output, source.outputSchema, path, equals)
  }
}
