/** What a durable row conducts to its dependents: projections, conditions and merged inputs
    (correlation_advance.mojo). */
module Conduct {
  import opened Wrappers
  import opened JsonValue
  import opened Text
  import opened ProcessStatus
  import opened ConductionGraph
  import opened Ancestors
  import opened Readiness
  import opened CorrelationPlan
  import opened Conveyance

  // ---------------------------------------------------------------- output projection

  /** Strip the execution envelope, unwrap a protocol result, and keep the schema's own properties. */
  function ProjectOutput(b: Boundary, output: Json, schema: Json): (r: Outcome<Json>)
    ensures r.Ok? ==> r.value.Obj?
  {
    if !output.Obj? then Raise("expected JSON object")
    else
      var bare := output.fields - {"adapter"};
      var source :=
        if "protocol" in bare && "kind" in bare && bare["kind"] == Str("result") && "payload" in bare && bare["payload"].Obj?
        then bare["payload"].fields else bare;
      if !schema.Obj? then Ok(Obj(source))
      else
        var keys :- b.projectionKeys(schema, Obj(source));
        Ok(Obj(if keys == {} then source else map k | k in source && k in keys :: source[k]))
  }

  /** A succeeded output as its dependents see it: projected and accepted by the schema. */
  function AcceptedOutput(b: Boundary, output: Json, schema: Json): (r: Outcome<Json>)
    ensures r.Ok? ==> r.value.Obj?
  {
    var projected :- ProjectOutput(b, output, schema);
    if b.accepts(projected, schema) then Ok(projected) else Raise("invalid_output")
  }

  lemma SourceIsUnique(output: Json, source: map<string, Json>, other: map<string, Json>)
    requires SourceOf(output, source) && SourceOf(output, other)
    ensures source == other
  {
    if !IsResult(output) {
      forall key ensures (key in source <==> key in other) && (key in source ==> source[key] == other[key]) {
        if key != "adapter" { assert SameAt(key, output.fields, source) && SameAt(key, output.fields, other); }
      }
    }
  }

  lemma SelectionIsUnique(b: Boundary, source: map<string, Json>, schema: Json, view: map<string, Json>, other: map<string, Json>)
    requires Selects(b, source, schema, view) && Selects(b, source, schema, other)
    ensures view == other
  {
  }

  /** Projection gives the view of the output, and raises exactly where there is none. */
  lemma ProjectionExact(b: Boundary, output: Json, schema: Json, view: Json)
    ensures ProjectOutput(b, output, schema) == Ok(view) <==> Projects(b, output, schema, view)
  {
    if output.Obj? {
      var bare := output.fields - {"adapter"};
      var source := if IsResult(output) then output.fields["payload"].fields else bare;
      assert SourceOf(output, source);
      forall other | SourceOf(output, other) ensures other == source { SourceIsUnique(output, other, source); }
      var projected := ProjectOutput(b, output, schema);
      if projected == Ok(view) {
        assert Selects(b, source, schema, view.fields);
      }
      if Projects(b, output, schema, view) {
        assert Selects(b, source, schema, view.fields);
        SelectionIsUnique(b, source, schema, projected.value.fields, view.fields);
      }
    }
  }

  // ---------------------------------------------------------------- states from rows

  function StateOutput(status: Status, output: Json, error: Json): Json {
    if status.Failed? || status.Cancelled? || status.TimedOut? then error else output
  }

  function StateOf(item: ProcessPlan, row: Row): ExecutionState {
    ExecutionState(item.id, item.effectorId, row.status, row.attempt, row.maxAttempts,
                   StateOutput(row.status, row.output, row.error), row.input, item.conduction)
  }

  /** A finished row whose output cannot be presented stops every advancement. */
  predicate Presentable(b: Boundary, item: ProcessPlan, row: Row) {
    && (row.status.Succeeded? ==> row.output.Obj? && AcceptedOutput(b, row.output, item.outputSchema).Ok?)
    && (row.status.Skipped? ==> row.output.Obj?)
  }

  predicate Scheduled(plan: Plan, rows: Rows) {
    forall item :: item in plan.processes ==> item.id in rows
  }

  function StatesOf(plan: Plan, rows: Rows): (states: seq<ExecutionState>)
    requires Scheduled(plan, rows)
    ensures |states| == |plan.processes|
    ensures forall i :: 0 <= i < |states| ==> states[i] == StateOf(plan.processes[i], rows[plan.processes[i].id])
  {
    seq(|plan.processes|, i requires 0 <= i < |plan.processes| => StateOf(plan.processes[i], rows[plan.processes[i].id]))
  }

  lemma StatesAreDistinct(plan: Plan, rows: Rows)
    requires Distinct(plan) && Scheduled(plan, rows)
    ensures DistinctEffectors(StatesOf(plan, rows))
  {
  }

  /** The states show the rows. */
  lemma StatesShow(plan: Plan, rows: Rows)
    requires Scheduled(plan, rows)
    ensures Shows(plan, rows, StatesOf(plan, rows))
  {
    forall i | 0 <= i < |plan.processes| ensures ShowsRow(plan.processes[i], rows, StatesOf(plan, rows)[i]) {
      assert plan.processes[i] in plan.processes;
    }
  }

  /** Presentable: a succeeded output has an accepted view, and a skipped one is an object. */
  lemma PresentableMeans(b: Boundary, item: ProcessPlan, row: Row)
    ensures Presentable(b, item, row) <==>
      && (row.status.Succeeded? ==> exists view :: Conveys(b, item.outputSchema, row.status, row.output, view))
      && (row.status.Skipped? ==> row.output.Obj?)
  {
    var projected := ProjectOutput(b, row.output, item.outputSchema);
    forall view ensures Projects(b, row.output, item.outputSchema, view) <==> projected == Ok(view) {
      ProjectionExact(b, row.output, item.outputSchema, view);
    }
    if row.status.Succeeded? && Presentable(b, item, row) {
      assert Conveys(b, item.outputSchema, row.status, row.output, projected.value);
    }
  }

  lemma StatesHavePlanNodes(plan: Plan, rows: Rows)
    requires Scheduled(plan, rows)
    ensures Nodes(StatesOf(plan, rows)) == NodesOf(plan)
  {
  }

  /** correlation_advance's `_states`. */
  method LoadStates(b: Boundary, plan: Plan, rows: Rows) returns (r: Outcome<seq<ExecutionState>>)
    ensures r.Ok? <==> Scheduled(plan, rows) && forall item :: item in plan.processes ==> Presentable(b, item, rows[item.id])
    ensures r.Ok? ==> r.value == StatesOf(plan, rows) && Shows(plan, rows, r.value)
  {
    var states := [];
    for k := 0 to |plan.processes|
      invariant |states| == k
      invariant forall i :: 0 <= i < k ==>
        && plan.processes[i].id in rows && Presentable(b, plan.processes[i], rows[plan.processes[i].id])
        && states[i] == StateOf(plan.processes[i], rows[plan.processes[i].id])
    {
      var item := plan.processes[k];
      assert item in plan.processes;
      if item.id !in rows { return Raise("missing_plan"); }
      if !Presentable(b, item, rows[item.id]) { return Raise("invalid_output"); }
      states := states + [StateOf(item, rows[item.id])];
    }
    if Scheduled(plan, rows) { StatesShow(plan, rows); }
    r := Ok(states);
  }

  // ---------------------------------------------------------------- conditions

  /** Walk down object keys. */
  function Select(value: Json, segments: seq<string>): Outcome<Json> {
    if segments == [] then Ok(value)
    else if segments[0] == "" || !value.Obj? || segments[0] !in value.fields then Raise("condition_path_missing")
    else Select(value.fields[segments[0]], segments[1..])
  }

  lemma {:induction false} SelectDescends(value: Json, keys: seq<string>, leaf: Json) returns (values: seq<Json>)
    requires Select(value, keys) == Ok(leaf)
    ensures Descends(values, keys) && values[0] == value && values[|keys|] == leaf
    ensures forall k :: 0 <= k < |keys| ==> keys[k] != ""
    decreases |keys|
  {
    if keys == [] {
      values := [value];
    } else {
      var rest := SelectDescends(value.fields[keys[0]], keys[1..], leaf);
      values := [value] + rest;
      forall k | 0 <= k < |keys|
        ensures keys[k] != "" && values[k].Obj? && keys[k] in values[k].fields && values[k + 1] == values[k].fields[keys[k]]
      {
        if k > 0 { assert keys[k] == keys[1..][k - 1] && values[k] == rest[k - 1]; }
      }
    }
  }

  lemma {:induction false} DescentSelects(values: seq<Json>, keys: seq<string>)
    requires Descends(values, keys) && forall k :: 0 <= k < |keys| ==> keys[k] != ""
    ensures Select(values[0], keys) == Ok(values[|keys|])
    decreases |keys|
  {
    if keys != [] {
      forall k | 0 <= k < |keys| - 1
        ensures var i := k + 1; values[1..][k].Obj? && keys[1..][k] in values[1..][k].fields && values[1..][k + 1] == values[1..][k].fields[keys[1..][k]]
      {
        var i := k + 1;
        assert values[i].Obj? && keys[i] in values[i].fields && values[i + 1] == values[i].fields[keys[i]];
      }
      DescentSelects(values[1..], keys[1..]);
      assert values[0 + 1] == values[0].fields[keys[0]];
    }
  }

  /** Selecting along the pieces of a path finds what the path leads to. */
  lemma SelectExact(value: Json, path: string, leaf: Json)
    ensures path != "" && Select(value, Split(path, '.')) == Ok(leaf) <==> LeadsTo(value, path, leaf)
  {
    var pieces := Split(path, '.');
    JoinOfSplit(path, '.');
    if path != "" && Select(value, pieces) == Ok(leaf) {
      var values := SelectDescends(value, pieces, leaf);
      assert LeadsAlong(value, path, leaf, values, pieces);
    }
    if LeadsTo(value, path, leaf) {
      var values, keys :| LeadsAlong(value, path, leaf, values, keys);
      SplitOfJoin(keys, '.');
      DescentSelects(values, keys);
      assert keys[0] != "" && path[0] == keys[0][0];
    }
  }

  predicate ConditionShape(when: Json) {
    && when.Obj? && "upstream" in when.fields && when.fields["upstream"].Str?
    && "path" in when.fields && when.fields["path"].Str? && "equals" in when.fields
  }

  /** The verdict of a condition on a source with this status and output. */
  function Verdict(b: Boundary, when: Json, schema: Json, status: Status, output: Json): Outcome<bool>
    requires ConditionShape(when)
  {
    if !status.Succeeded? then
      if Terminal(status) then Ok(false) else Raise("condition_source_not_succeeded")
    else
      var current :- ProjectOutput(b, output, schema);
      var path := when.fields["path"].text;
      if path == "" then Raise("invalid_condition")
      else
        var selected :- Select(current, Split(path, '.'));
        if !selected.Scalar() then Raise("condition_value_not_scalar")
        else if !when.fields["equals"].Scalar() then Raise("invalid_condition")
        else Ok(selected == when.fields["equals"])
  }

  function Condition(b: Boundary, item: ProcessPlan, plan: Plan, states: seq<ExecutionState>): Outcome<bool> {
    if item.when.None? then Ok(true)
    else if !ConditionShape(item.when.value) then Raise("invalid_condition")
    else
      var upstream := item.when.value.fields["upstream"].text;
      var s, p := IndexOf(Nodes(states), upstream), IndexOf(NodesOf(plan), upstream);
      if upstream !in item.conduction || s < 0 || p < 0 then Raise("invalid_condition")
      else Verdict(b, item.when.value, plan.processes[p].outputSchema, states[s].status, states[s].output)
  }

  /** The verdict is the answer of the source. */
  lemma VerdictAnswers(b: Boundary, when: Json, schema: Json, status: Status, output: Json, upstream: string, path: string, equals: Json)
    requires ConditionShape(when) && Compares(when, upstream, path, equals)
    ensures AnswersFrom(b, schema, status, output, path, equals, Verdict(b, when, schema, status, output))
  {
    if status.Succeeded? {
      forall leaf ensures ShowsScalar(b, output, schema, path, leaf) <==>
        leaf.Scalar() && path != "" && ProjectOutput(b, output, schema).Ok? && Select(ProjectOutput(b, output, schema).value, Split(path, '.')) == Ok(leaf)
      {
        ScalarShown(b, output, schema, path, leaf);
      }
      var projected := ProjectOutput(b, output, schema);
      hide ProjectOutput, Select, Split, ShowsScalar;
      if projected.Ok? && path != "" {
        var selected := Select(projected.value, Split(path, '.'));
        if selected.Ok? && selected.value.Scalar() { assert ShowsScalar(b, output, schema, path, selected.value); }
      }
    }
  }

  lemma ScalarShown(b: Boundary, output: Json, schema: Json, path: string, leaf: Json)
    ensures ShowsScalar(b, output, schema, path, leaf) <==>
      leaf.Scalar() && path != "" && ProjectOutput(b, output, schema).Ok? && Select(ProjectOutput(b, output, schema).value, Split(path, '.')) == Ok(leaf)
  {
    var projected := ProjectOutput(b, output, schema);
    hide Select, Split, ProjectOutput, Projects, LeadsTo;
    forall view ensures Projects(b, output, schema, view) <==> projected == Ok(view) { ProjectionExact(b, output, schema, view); }
    if projected.Ok? { SelectExact(projected.value, path, leaf); }
  }

  /** A condition is answered by its source. */
  lemma ConditionAnswers(b: Boundary, item: ProcessPlan, plan: Plan, states: seq<ExecutionState>)
    requires Distinct(plan) && DistinctEffectors(states)
    ensures AnswersCondition(b, item, plan, states, Condition(b, item, plan, states))
  {
    hide Verdict, AnswersFrom;
    if item.when.Some? {
      var when, r := item.when.value, Condition(b, item, plan, states);
      if !ConditionShape(when) {
        assert forall upstream, path, equals :: !Compares(when, upstream, path, equals);
      } else {
        assert Compares(when, when.fields["upstream"].text, when.fields["path"].text, when.fields["equals"]);
      }
      forall upstream, path, equals | Compares(when, upstream, path, equals)
        ensures (forall s, p :: !Sources(item, plan, states, upstream, s, p)) ==> r.Raise?
        ensures forall s, p :: Sources(item, plan, states, upstream, s, p) ==>
          AnswersFrom(b, plan.processes[p].outputSchema, states[s].status, states[s].output, path, equals, r)
      {
        SourceAnswers(b, item, plan, states, upstream, path, equals);
      }
    }
  }

  lemma SourceAnswers(b: Boundary, item: ProcessPlan, plan: Plan, states: seq<ExecutionState>, upstream: string, path: string, equals: Json)
    requires Distinct(plan) && DistinctEffectors(states)
    requires item.when.Some? && Compares(item.when.value, upstream, path, equals)
    ensures (forall s, p :: !Sources(item, plan, states, upstream, s, p)) ==> Condition(b, item, plan, states).Raise?
    ensures forall s, p :: Sources(item, plan, states, upstream, s, p) ==>
      AnswersFrom(b, plan.processes[p].outputSchema, states[s].status, states[s].output, path, equals, Condition(b, item, plan, states))
  {
    hide Verdict, AnswersFrom;
    var s, p := IndexOf(Nodes(states), upstream), IndexOf(NodesOf(plan), upstream);
    if upstream in item.conduction && s >= 0 && p >= 0 { assert Sources(item, plan, states, upstream, s, p); }
    forall s', p' | Sources(item, plan, states, upstream, s', p')
      ensures AnswersFrom(b, plan.processes[p'].outputSchema, states[s'].status, states[s'].output, path, equals, Condition(b, item, plan, states))
    {
      assert Nodes(states)[s'].id == upstream && NodesOf(plan)[p'].id == upstream;
      assert s == s' && p == p';
      VerdictAnswers(b, item.when.value, plan.processes[p].outputSchema, states[s].status, states[s].output, upstream, path, equals);
    }
  }

  /** correlation_advance's `_condition_matches`: both scans keep the last match, which is the only one
      because effectors are distinct. */
  method ConditionMatches(b: Boundary, item: ProcessPlan, plan: Plan, states: seq<ExecutionState>) returns (r: Outcome<bool>)
    requires Distinct(plan) && DistinctEffectors(states)
    ensures r == Condition(b, item, plan, states)
    ensures AnswersCondition(b, item, plan, states, r)
  {
    ConditionAnswers(b, item, plan, states);
    hide AnswersCondition;
    if item.when.None? { return Ok(true); }
    var when := item.when.value;
    if !ConditionShape(when) { return Raise("invalid_condition"); }
    var upstream := when.fields["upstream"].text;
    var direct := false;
    for k := 0 to |item.conduction|
      invariant direct <==> upstream in item.conduction[..k]
    {
      if item.conduction[k] == upstream { direct := true; }
    }
    if !direct { return Raise("invalid_condition"); }
    var stateIndex, planIndex := -1, -1;
    for k := 0 to |states|
      invariant -1 <= stateIndex < k
      invariant stateIndex >= 0 ==> states[stateIndex].effectorId == upstream
      invariant stateIndex < 0 ==> forall j :: 0 <= j < k ==> states[j].effectorId != upstream
    {
      if states[k].effectorId == upstream { stateIndex := k; }
    }
    for k := 0 to |plan.processes|
      invariant -1 <= planIndex < k
      invariant planIndex >= 0 ==> plan.processes[planIndex].effectorId == upstream
      invariant planIndex < 0 ==> forall j :: 0 <= j < k ==> plan.processes[j].effectorId != upstream
    {
      if plan.processes[k].effectorId == upstream { planIndex := k; }
    }
    assert stateIndex == IndexOf(Nodes(states), upstream) && planIndex == IndexOf(NodesOf(plan), upstream);
    if stateIndex < 0 || planIndex < 0 { return Raise("invalid_condition"); }
    var status := states[stateIndex].status;
    if !status.Succeeded? {
      if Terminal(status) { return Ok(false); }
      return Raise("condition_source_not_succeeded");
    }
    var projected := ProjectOutput(b, states[stateIndex].output, plan.processes[planIndex].outputSchema);
    if projected.Raise? { return Raise(projected.code); }
    var path := when.fields["path"].text;
    if path == "" { return Raise("invalid_condition"); }
    var current, segments := projected.value, Split(path, '.');
    for k := 0 to |segments|
      invariant Select(projected.value, segments) == Select(current, segments[k..])
    {
      if segments[k] == "" || !current.Obj? || segments[k] !in current.fields { return Raise("condition_path_missing"); }
      assert segments[k..][1..] == segments[k + 1..];
      current := current.fields[segments[k]];
    }
    if !current.Scalar() { return Raise("condition_value_not_scalar"); }
    if !when.fields["equals"].Scalar() { return Raise("invalid_condition"); }
    r := Ok(current == when.fields["equals"]);
  }

  // ---------------------------------------------------------------- merged inputs

  function AsObject(j: Json): Json {
    if j.Obj? then j else Obj(map["error" := j])
  }

  /** The payload one finished upstream conducts. */
  function Payload(b: Boundary, plan: Plan, states: seq<ExecutionState>, upstream: string): Outcome<Json> {
    var s, p := IndexOf(Nodes(states), upstream), IndexOf(NodesOf(plan), upstream);
    if s < 0 || p < 0 then Raise("unknown_upstream")
    else if states[s].status.Succeeded? then AcceptedOutput(b, states[s].output, plan.processes[p].outputSchema)
    else Ok(AsObject(states[s].output))
  }

  function Payloads(b: Boundary, plan: Plan, states: seq<ExecutionState>, upstreams: seq<string>): Outcome<map<string, Json>> {
    if upstreams == [] then Ok(map[])
    else
      var last := upstreams[|upstreams| - 1];
      var before :- Payloads(b, plan, states, upstreams[..|upstreams| - 1]);
      var payload :- Payload(b, plan, states, last);
      Ok(before[last := payload])
  }

  function RegulationOf(j: Json): map<string, Json> {
    if j.Obj? && "regulation" in j.fields && j.fields["regulation"].Obj? then j.fields["regulation"].fields else map[]
  }

  /** Regulation inherited from the upstreams' inputs, later upstreams overriding earlier ones. */
  function Inherited(states: seq<ExecutionState>, upstreams: seq<string>): map<string, Json> {
    if upstreams == [] then map[]
    else
      var s := IndexOf(Nodes(states), upstreams[|upstreams| - 1]);
      Inherited(states, upstreams[..|upstreams| - 1]) + if s < 0 then map[] else RegulationOf(states[s].input)
  }

  predicate Accumulates(metadata: Json) {
    metadata.Obj? && "accumulate_upstream_reactions" in metadata.fields
    && metadata.fields["accumulate_upstream_reactions"] == Bool(true)
  }

  function Texts(items: seq<Json>): seq<string> {
    if items == [] then [] else (if items[0].Str? then [items[0].text] else []) + Texts(items[1..])
  }

  function AcceptedKinds(metadata: Json): seq<string> {
    if metadata.Obj? && "accepted_reaction_kinds" in metadata.fields && metadata.fields["accepted_reaction_kinds"].Arr?
    then Texts(metadata.fields["accepted_reaction_kinds"].items) else []
  }

  function Reactions(b: Boundary, states: seq<ExecutionState>, ancestors: seq<string>, allowed: seq<string>): Outcome<seq<Json>> {
    if ancestors == [] then Ok([])
    else
      var before :- Reactions(b, states, ancestors[..|ancestors| - 1], allowed);
      var s := IndexOf(Nodes(states), ancestors[|ancestors| - 1]);
      if s < 0 then Ok(before)
      else
        var selected :- b.reactions(states[s].output, allowed);
        Ok(before + selected)
  }

  /** Direct upstreams that have finished, in declaration order; an unknown one raises. */
  function Finished(states: seq<ExecutionState>, conduction: seq<string>): Outcome<seq<string>> {
    if conduction == [] then Ok([])
    else
      var last := conduction[|conduction| - 1];
      var before :- Finished(states, conduction[..|conduction| - 1]);
      var s := IndexOf(Nodes(states), last);
      if s < 0 then Raise("unknown_upstream")
      else Ok(before + if Terminal(states[s].status) then [last] else [])
  }

  /** The authored input with the injected keys. */
  function Injected(input: map<string, Json>, conduction: map<string, Json>, regulation: map<string, Json>, reactions: Option<seq<Json>>): Json {
    var conducted := input["conduction" := Obj(conduction)];
    var regulated := if regulation == map[] then conducted else conducted["regulation" := Obj(regulation)];
    Obj(if reactions.None? then regulated else regulated["upstream_reactions" := Arr(reactions.value)])
  }

  /** The input a process is readied with. */
  ghost function MergedInput(b: Boundary, item: ProcessPlan, plan: Plan, states: seq<ExecutionState>): Outcome<Json> {
    if !item.input.Obj? then Raise("invalid_input")
    else
      var upstreams :- Finished(states, item.conduction);
      var conduction :- Payloads(b, plan, states, upstreams);
      var regulation := Inherited(states, upstreams) + RegulationOf(item.metadata);
      if !Accumulates(item.metadata) then Ok(Injected(item.input.fields, conduction, regulation, None))
      else
        var reactions :- Reactions(b, states, AncestorOrder(NodesOf(plan), item.effectorId), AcceptedKinds(item.metadata));
        Ok(Injected(item.input.fields, conduction, regulation, Some(reactions)))
  }

  /** The merged input without accumulated reactions: what the direct upstreams alone determine. */
  function DirectInput(b: Boundary, item: ProcessPlan, plan: Plan, states: seq<ExecutionState>): Outcome<Json> {
    if !item.input.Obj? then Raise("invalid_input")
    else
      var upstreams :- Finished(states, item.conduction);
      var conduction :- Payloads(b, plan, states, upstreams);
      Ok(Injected(item.input.fields, conduction, Inherited(states, upstreams) + RegulationOf(item.metadata), None))
  }

  const REACTIONS := "upstream_reactions"

  /** Two inputs with the same authored keys, `conduction` and `regulation`; the same altogether unless reactions
      accumulate. */
  predicate SameDirect(item: ProcessPlan, x: Json, y: Json) {
    && x.Obj? && y.Obj? && x.fields - {REACTIONS} == y.fields - {REACTIONS}
    && (!Accumulates(item.metadata) ==> x == y)
  }

  /** Accumulated reactions are all that the merged input adds. */
  lemma MergedIsDirect(b: Boundary, item: ProcessPlan, plan: Plan, states: seq<ExecutionState>)
    requires MergedInput(b, item, plan, states).Ok?
    ensures DirectInput(b, item, plan, states).Ok?
    ensures SameDirect(item, MergedInput(b, item, plan, states).value, DirectInput(b, item, plan, states).value)
  {
  }

  predicate FinishedAt(states: seq<ExecutionState>, u: string) {
    var s := IndexOf(Nodes(states), u);
    s >= 0 && Terminal(states[s].status)
  }

  lemma {:induction false} FinishedMembers(states: seq<ExecutionState>, conduction: seq<string>)
    requires Finished(states, conduction).Ok?
    ensures forall u :: u in Finished(states, conduction).value <==> u in conduction && FinishedAt(states, u)
    decreases |conduction|
  {
    if conduction != [] {
      var last := |conduction| - 1;
      FinishedMembers(states, conduction[..last]);
      assert conduction == conduction[..last] + [conduction[last]];
    }
  }

  lemma {:induction false} PayloadsMembers(b: Boundary, plan: Plan, states: seq<ExecutionState>, upstreams: seq<string>)
    requires Payloads(b, plan, states, upstreams).Ok?
    ensures forall u :: u in Payloads(b, plan, states, upstreams).value <==> u in upstreams
    ensures forall u :: u in upstreams ==> Payload(b, plan, states, u) == Ok(Payloads(b, plan, states, upstreams).value[u])
    decreases |upstreams|
  {
    if upstreams != [] {
      var last := |upstreams| - 1;
      var front, u := upstreams[..last], upstreams[last];
      var all, before := Payloads(b, plan, states, upstreams).value, Payloads(b, plan, states, front).value;
      assert Payload(b, plan, states, u).Ok? && all == before[u := Payload(b, plan, states, u).value];
      assert forall x :: x in upstreams <==> x in front || x == u by { assert upstreams == front + [u]; }
      hide Payload, Payloads;
      PayloadsMembers(b, plan, states, front);
    }
  }

  /** The regulation one upstream passes on. */
  function RegulationAt(states: seq<ExecutionState>, upstream: string): map<string, Json> {
    var s := IndexOf(Nodes(states), upstream);
    if s < 0 then map[] else RegulationOf(states[s].input)
  }

  /** A key is inherited from the last upstream that regulates it. */
  ghost predicate LastRegulates(states: seq<ExecutionState>, upstreams: seq<string>, key: string, value: Json) {
    exists i :: 0 <= i < |upstreams| && RegulatedAt(states, upstreams, i, key, value)
  }

  ghost predicate RegulatedAt(states: seq<ExecutionState>, upstreams: seq<string>, i: nat, key: string, value: Json)
    requires i < |upstreams|
  {
    && key in RegulationAt(states, upstreams[i]) && RegulationAt(states, upstreams[i])[key] == value
    && forall j :: i < j < |upstreams| ==> key !in RegulationAt(states, upstreams[j])
  }

  lemma {:induction false} InheritedFromLast(states: seq<ExecutionState>, upstreams: seq<string>, key: string)
    ensures key in Inherited(states, upstreams) <==> exists i :: 0 <= i < |upstreams| && key in RegulationAt(states, upstreams[i])
    ensures key in Inherited(states, upstreams) ==> LastRegulates(states, upstreams, key, Inherited(states, upstreams)[key])
    decreases |upstreams|
  {
    if upstreams != [] {
      var last := |upstreams| - 1;
      var before := upstreams[..last];
      assert Inherited(states, upstreams) == Inherited(states, before) + RegulationAt(states, upstreams[last]);
      hide RegulationAt, Inherited;
      InheritedFromLast(states, before, key);
      if key in RegulationAt(states, upstreams[last]) {
        assert RegulatedAt(states, upstreams, last, key, Inherited(states, upstreams)[key]);
      } else if key in Inherited(states, before) {
        var value := Inherited(states, before)[key];
        var i :| 0 <= i < |before| && RegulatedAt(states, before, i, key, value);
        assert RegulatedAt(states, upstreams, i, key, value);
      }
    }
  }

  lemma InjectedContents(input: map<string, Json>, conduction: map<string, Json>, regulation: map<string, Json>, reactions: Option<seq<Json>>)
    ensures var r := Injected(input, conduction, regulation, reactions);
      && r.Obj? && "conduction" in r.fields && r.fields["conduction"] == Obj(conduction)
      && (regulation != map[] ==> RegulationOf(r) == regulation)
      && (forall key :: key !in {"conduction", "regulation", "upstream_reactions"} ==>
            (key in r.fields <==> key in input) && (key in r.fields ==> r.fields[key] == input[key]))
  {
  }

  /** What a merged input holds: under `conduction` the payload of every finished direct upstream and nothing else,
      under `regulation` the path's own keys over the inherited ones, and everything authored. */
  lemma MergedInputContents(b: Boundary, item: ProcessPlan, plan: Plan, states: seq<ExecutionState>, r: Json)
    requires MergedInput(b, item, plan, states) == Ok(r)
    ensures r.Obj? && item.input.Obj? && "conduction" in r.fields && r.fields["conduction"].Obj?
    ensures forall u :: u in r.fields["conduction"].fields <==> u in item.conduction && FinishedAt(states, u)
    ensures forall u :: u in r.fields["conduction"].fields ==> Payload(b, plan, states, u) == Ok(r.fields["conduction"].fields[u])
    ensures forall key :: key in RegulationOf(item.metadata) ==>
      key in RegulationOf(r) && RegulationOf(r)[key] == RegulationOf(item.metadata)[key]
    ensures forall key :: key !in {"conduction", "regulation", "upstream_reactions"} ==>
      (key in r.fields <==> key in item.input.fields) && (key in r.fields ==> r.fields[key] == item.input.fields[key])
  {
    var upstreams := Finished(states, item.conduction).value;
    FinishedMembers(states, item.conduction);
    PayloadsMembers(b, plan, states, upstreams);
    var conduction, regulation := Payloads(b, plan, states, upstreams).value, Inherited(states, upstreams) + RegulationOf(item.metadata);
    InjectedContents(item.input.fields, conduction, regulation, None);
    if Accumulates(item.metadata) {
      var reactions := Reactions(b, states, AncestorOrder(NodesOf(plan), item.effectorId), AcceptedKinds(item.metadata));
      InjectedContents(item.input.fields, conduction, regulation, Some(reactions.value));
    }
    hide Injected, Payload, Payloads, Inherited, RegulationOf, Finished, FinishedAt, Reactions, Accumulates, AcceptedKinds;
  }

  // ---------------------------------------------------------------- the merged input, told apart

  lemma PayloadConveys(b: Boundary, plan: Plan, states: seq<ExecutionState>, s: int, p: int, value: Json)
    requires Distinct(plan) && DistinctEffectors(states)
    requires 0 <= s < |states| && 0 <= p < |plan.processes| && states[s].effectorId == plan.processes[p].effectorId
    requires Payload(b, plan, states, states[s].effectorId) == Ok(value)
    ensures Conveys(b, plan.processes[p].outputSchema, states[s].status, states[s].output, value)
  {
    var u := states[s].effectorId;
    assert Nodes(states)[s].id == u && NodesOf(plan)[p].id == u;
    assert IndexOf(Nodes(states), u) == s && IndexOf(NodesOf(plan), u) == p;
    ProjectionExact(b, states[s].output, plan.processes[p].outputSchema, value);
  }

  lemma FinishedIsDone(states: seq<ExecutionState>, u: string)
    requires DistinctEffectors(states)
    ensures FinishedAt(states, u) <==> FinishedState(states, u)
  {
    forall s | 0 <= s < |states| && states[s].effectorId == u ensures IndexOf(Nodes(states), u) == s {
      assert Nodes(states)[s].id == u;
    }
  }

  /** The payloads of the finished direct upstreams are what they conduct. */
  lemma PayloadsAreConducted(b: Boundary, item: ProcessPlan, plan: Plan, states: seq<ExecutionState>, fields: map<string, Json>)
    requires Distinct(plan) && DistinctEffectors(states) && Finished(states, item.conduction).Ok?
    requires Payloads(b, plan, states, Finished(states, item.conduction).value).Ok?
    requires "conduction" in fields && fields["conduction"] == Obj(Payloads(b, plan, states, Finished(states, item.conduction).value).value)
    ensures Conducted(b, item, plan, states, fields)
  {
    var upstreams := Finished(states, item.conduction).value;
    var conducted := fields["conduction"].fields;
    FinishedMembers(states, item.conduction);
    PayloadsMembers(b, plan, states, upstreams);
    hide Payload, Payloads, Finished, FinishedAt, FinishedState, Conveys;
    forall u ensures u in conducted <==> u in item.conduction && FinishedState(states, u) { FinishedIsDone(states, u); }
    forall s, p | ConductedPair(plan, states, conducted, s, p)
      ensures Conveys(b, plan.processes[p].outputSchema, states[s].status, states[s].output, conducted[states[s].effectorId])
    {
      PayloadConveys(b, plan, states, s, p, conducted[states[s].effectorId]);
    }
  }

  ghost predicate Entry(m: map<string, Json>, key: string, value: Json) {
    key in m && m[key] == value
  }

  lemma RegulationIsSet(j: Json, key: string, value: Json)
    ensures Regulates(j, key, value) <==> Entry(RegulationOf(j), key, value)
  {
  }

  lemma PassesIsRegulation(states: seq<ExecutionState>, u: string, key: string, value: Json)
    requires DistinctEffectors(states)
    ensures PassesOn(states, u, key, value) <==> FinishedAt(states, u) && Entry(RegulationAt(states, u), key, value)
  {
    forall s | 0 <= s < |states| && states[s].effectorId == u ensures IndexOf(Nodes(states), u) == s {
      assert Nodes(states)[s].id == u;
    }
  }

  lemma LastPasses(states: seq<ExecutionState>, before: seq<string>, u: string, key: string, value: Json)
    ensures PassedLast(states, before + [u], key, value) <==>
      PassesOn(states, u, key, value) || (!PassesSome(states, u, key) && PassedLast(states, before, key, value))
  {
    hide PassesOn, PassesSome;
    var conduction := before + [u];
    if PassesOn(states, u, key, value) {
      assert PassedAt(states, conduction, |before|, key, value);
    } else if !PassesSome(states, u, key) && PassedLast(states, before, key, value) {
      var i :| 0 <= i < |before| && PassedAt(states, before, i, key, value);
      assert PassedAt(states, conduction, i, key, value);
    }
    if PassedLast(states, conduction, key, value) && !PassesOn(states, u, key, value) {
      var i :| 0 <= i < |conduction| && PassedAt(states, conduction, i, key, value);
      assert i < |before| && conduction[|before|] == u;
      forall k | i < k < |before| ensures !PassesSome(states, before[k], key) { assert before[k] == conduction[k]; }
      assert PassedAt(states, before, i, key, value);
    }
  }

  /** What is inherited is what the last regulating upstream passes on. */
  lemma {:induction false} InheritedIsPassed(states: seq<ExecutionState>, conduction: seq<string>, key: string, value: Json)
    requires DistinctEffectors(states) && Finished(states, conduction).Ok?
    ensures Entry(Inherited(states, Finished(states, conduction).value), key, value) <==> PassedLast(states, conduction, key, value)
    decreases |conduction|
  {
    if conduction != [] {
      var before, u := conduction[..|conduction| - 1], conduction[|conduction| - 1];
      InheritedIsPassed(states, before, key, value);
      InheritedStep(states, before, u);
      assert conduction == before + [u];
      LastPasses(states, before, u, key, value);
      forall v ensures PassesOn(states, u, key, v) <==> FinishedAt(states, u) && Entry(RegulationAt(states, u), key, v) {
        PassesIsRegulation(states, u, key, v);
      }
      hide Inherited, Finished, PassesOn, PassedLast, FinishedAt, RegulationAt;
      var inherited := Inherited(states, Finished(states, before).value);
      if FinishedAt(states, u) && key in RegulationAt(states, u) {
        assert PassesOn(states, u, key, RegulationAt(states, u)[key]);
      }
    }
  }

  lemma InheritedStep(states: seq<ExecutionState>, before: seq<string>, u: string)
    requires Finished(states, before + [u]).Ok?
    ensures Finished(states, before).Ok?
    ensures Inherited(states, Finished(states, before + [u]).value) ==
      Inherited(states, Finished(states, before).value) + (if FinishedAt(states, u) then RegulationAt(states, u) else map[])
  {
    assert (before + [u])[..|before + [u]| - 1] == before;
    var earlier := Finished(states, before).value;
    assert (earlier + [u])[..|earlier + [u]| - 1] == earlier;
    assert earlier + [] == earlier;
    assert Inherited(states, earlier) + map[] == Inherited(states, earlier);
  }

  /** The regulation of a merged input is what governs it. */
  lemma MergedRegulation(item: ProcessPlan, states: seq<ExecutionState>, fields: map<string, Json>)
    requires DistinctEffectors(states) && Finished(states, item.conduction).Ok? && item.input.Obj?
    requires var regulation := Inherited(states, Finished(states, item.conduction).value) + RegulationOf(item.metadata);
      if regulation == map[] then SameAt("regulation", item.input.fields, fields) else Entry(fields, "regulation", Obj(regulation))
    ensures Regulated(item, states, fields)
  {
    var inherited := Inherited(states, Finished(states, item.conduction).value);
    var regulation := inherited + RegulationOf(item.metadata);
    forall key, value ensures Governs(item, states, key, value) <==> Entry(regulation, key, value) {
      InheritedIsPassed(states, item.conduction, key, value);
      forall own ensures Regulates(item.metadata, key, own) <==> Entry(RegulationOf(item.metadata), key, own) {
        RegulationIsSet(item.metadata, key, own);
      }
      hide Inherited, Finished, PassedLast, RegulationOf, Regulates;
      if key in RegulationOf(item.metadata) {
        assert Regulates(item.metadata, key, RegulationOf(item.metadata)[key]);
      }
    }
    hide Inherited, Finished, Governs, RegulationOf;
    if regulation != map[] {
      var key :| key in regulation;
      assert Governs(item, states, key, regulation[key]);
      forall k, v ensures Regulates(Obj(fields), k, v) <==> Governs(item, states, k, v) {
        assert Regulates(Obj(fields), k, v) <==> Entry(regulation, k, v);
      }
    }
  }

  /** One item more in front moves every position up by one. */
  lemma TextsMove(first: Json, rest: seq<Json>, texts: seq<string>, at: seq<nat>, moved: seq<nat>)
    requires TextsAt(rest, texts, at) && !first.Str?
    requires |moved| == |at| && forall k :: 0 <= k < |at| ==> moved[k] == at[k] + 1
    ensures TextsAt([first] + rest, texts, moved)
  {
    forall i | 0 <= i < |rest| + 1 && ([first] + rest)[i].Str? ensures i in moved {
      assert rest[i - 1].Str?;
      var k :| 0 <= k < |at| && at[k] == i - 1;
      assert moved[k] == i;
    }
  }

  lemma TextsBelow(first: Json, rest: seq<Json>, texts: seq<string>, at: seq<nat>)
    requires TextsAt(rest, texts, at)
    ensures TextsAmong([first] + rest, (if first.Str? then [first.text] else []) + texts)
  {
    var moved := seq(|at|, k requires 0 <= k < |at| => at[k] + 1);
    if first.Str? {
      TextInFront(first.text, rest, texts, at, moved);
    } else {
      TextsMove(first, rest, texts, at, moved);
      assert [] + texts == texts;
    }
  }

  lemma TextInFront(text: string, rest: seq<Json>, texts: seq<string>, at: seq<nat>, moved: seq<nat>)
    requires TextsAt(rest, texts, at)
    requires |moved| == |at| && forall k :: 0 <= k < |at| ==> moved[k] == at[k] + 1
    ensures TextsAt([Str(text)] + rest, [text] + texts, [0] + moved)
  {
    var positions := [0] + moved;
    forall i | 0 <= i < |rest| + 1 && ([Str(text)] + rest)[i].Str? ensures i in positions {
      if i == 0 {
        assert positions[0] == 0;
      } else {
        assert rest[i - 1].Str?;
        var k :| 0 <= k < |at| && at[k] == i - 1;
        assert positions[k + 1] == i;
      }
    }
  }

  lemma {:induction false} TextsAreAmong(items: seq<Json>)
    ensures TextsAmong(items, Texts(items))
  {
    if items == [] {
      assert TextsAt(items, [], []);
    } else {
      TextsAreAmong(items[1..]);
      var at :| TextsAt(items[1..], Texts(items[1..]), at);
      TextsBelow(items[0], items[1..], Texts(items[1..]), at);
      assert [items[0]] + items[1..] == items;
    }
  }

  /** The accumulated reactions, part by part. */
  lemma {:induction false} ReactionParts(b: Boundary, states: seq<ExecutionState>, ancestors: seq<string>, kinds: seq<string>) returns (parts: seq<seq<Json>>)
    requires DistinctEffectors(states) && Reactions(b, states, ancestors, kinds).Ok?
    ensures PartsOf(b, Nodes(states), OutputsOf(states), ancestors, kinds, parts)
    ensures Flat(parts) == Reactions(b, states, ancestors, kinds).value
    decreases |ancestors|
  {
    if ancestors == [] {
      parts := [];
    } else {
      var last := |ancestors| - 1;
      var before := ReactionParts(b, states, ancestors[..last], kinds);
      var s := IndexOf(Nodes(states), ancestors[last]);
      var part := if s < 0 then [] else b.reactions(states[s].output, kinds).value;
      parts := before + [part];
      assert parts[..|parts| - 1] == before;
      PartsExtend(b, Nodes(states), OutputsOf(states), ancestors, kinds, before, part);
    }
  }

  lemma PartsExtend(b: Boundary, nodes: seq<Node>, outputs: seq<Json>, ancestors: seq<string>, kinds: seq<string>, before: seq<seq<Json>>, part: seq<Json>)
    requires |outputs| == |nodes| && ancestors != [] && PartsOf(b, nodes, outputs, ancestors[..|ancestors| - 1], kinds, before)
    requires forall i, j :: 0 <= i < j < |nodes| ==> nodes[i].id != nodes[j].id
    requires var s := IndexOf(nodes, ancestors[|ancestors| - 1]); if s < 0 then part == [] else b.reactions(outputs[s], kinds) == Ok(part)
    ensures PartsOf(b, nodes, outputs, ancestors, kinds, before + [part])
  {
    var last := |ancestors| - 1;
    forall k | 0 <= k < |ancestors| ensures PartAt(b, nodes, outputs, ancestors[k], kinds, (before + [part])[k]) {
      if k < last {
        EarlierPart(b, nodes, outputs, ancestors[..last], kinds, before, k);
        assert ancestors[..last][k] == ancestors[k];
      }
    }
    hide IndexOf;
    PartsTogether(b, nodes, outputs, ancestors, kinds, before + [part]);
  }

  /** The part of one ancestor. */
  ghost predicate PartAt(b: Boundary, nodes: seq<Node>, outputs: seq<Json>, ancestor: string, kinds: seq<string>, part: seq<Json>)
    requires |outputs| == |nodes|
  {
    && (forall s :: 0 <= s < |nodes| && nodes[s].id == ancestor ==> b.reactions(outputs[s], kinds) == Ok(part))
    && ((forall s :: 0 <= s < |nodes| ==> nodes[s].id != ancestor) ==> part == [])
  }

  lemma EarlierPart(b: Boundary, nodes: seq<Node>, outputs: seq<Json>, ancestors: seq<string>, kinds: seq<string>, parts: seq<seq<Json>>, k: nat)
    requires |outputs| == |nodes| && PartsOf(b, nodes, outputs, ancestors, kinds, parts) && k < |ancestors|
    ensures PartAt(b, nodes, outputs, ancestors[k], kinds, parts[k])
  {
  }

  lemma PartsTogether(b: Boundary, nodes: seq<Node>, outputs: seq<Json>, ancestors: seq<string>, kinds: seq<string>, parts: seq<seq<Json>>)
    requires |outputs| == |nodes| && |parts| == |ancestors|
    requires forall k :: 0 <= k < |ancestors| ==> PartAt(b, nodes, outputs, ancestors[k], kinds, parts[k])
    ensures PartsOf(b, nodes, outputs, ancestors, kinds, parts)
  {
    forall k, s | 0 <= k < |ancestors| && 0 <= s < |nodes| && nodes[s].id == ancestors[k] ensures b.reactions(outputs[s], kinds) == Ok(parts[k]) {
      assert PartAt(b, nodes, outputs, ancestors[k], kinds, parts[k]);
    }
  }

  /** The input the direct upstreams determine holds what they conduct and pass on, and everything authored. */
  lemma DirectMerges(b: Boundary, item: ProcessPlan, plan: Plan, states: seq<ExecutionState>, input: Json)
    requires Distinct(plan) && DistinctEffectors(states) && DirectInput(b, item, plan, states).Ok?
    requires SameDirect(item, input, DirectInput(b, item, plan, states).value)
    ensures MergesDirect(b, item, plan, states, input)
  {
    var direct, upstreams := DirectInput(b, item, plan, states).value, Finished(states, item.conduction).value;
    forall key | key != REACTIONS ensures SameAt(key, direct.fields, input.fields) {
      assert key in input.fields - {REACTIONS} <==> key in direct.fields - {REACTIONS};
      if key in input.fields { assert (input.fields - {REACTIONS})[key] == (direct.fields - {REACTIONS})[key]; }
    }
    hide Finished, Payloads, Inherited, RegulationOf, Governs;
    assert SameAt("conduction", direct.fields, input.fields) && SameAt("regulation", direct.fields, input.fields);
    PayloadsAreConducted(b, item, plan, states, input.fields);
    MergedRegulation(item, states, input.fields);
    hide Conducted, Regulated;
    forall key | key !in {"conduction", "regulation", "upstream_reactions"} ensures SameAt(key, item.input.fields, input.fields) {
      assert SameAt(key, direct.fields, input.fields);
    }
  }

  /** So does the whole merged input, with the reactions of every transitive upstream. */
  lemma MergedMerges(b: Boundary, item: ProcessPlan, plan: Plan, states: seq<ExecutionState>)
    requires Distinct(plan) && DistinctEffectors(states) && MergedInput(b, item, plan, states).Ok?
    ensures Merges(b, item, plan, states, MergedInput(b, item, plan, states).value)
  {
    MergedIsDirect(b, item, plan, states);
    var input := MergedInput(b, item, plan, states).value;
    DirectMerges(b, item, plan, states, input);
    if Collects(item.metadata) {
      var kinds, ancestors := AcceptedKinds(item.metadata), AncestorOrder(NodesOf(plan), item.effectorId);
      KindsAreAdmitted(item.metadata);
      var parts := ReactionParts(b, states, ancestors, kinds);
      assert input.fields["upstream_reactions"] == Arr(Flat(parts));
    }
    hide MergesDirect;
  }

  lemma KindsAreAdmitted(metadata: Json)
    ensures AdmitsKinds(metadata, AcceptedKinds(metadata))
  {
    if metadata.Obj? && "accepted_reaction_kinds" in metadata.fields && metadata.fields["accepted_reaction_kinds"].Arr? {
      TextsAreAmong(metadata.fields["accepted_reaction_kinds"].items);
    }
  }

  lemma PrefixStep<T>(s: seq<T>, k: nat)
    requires k < |s|
    ensures s[..k + 1][..|s[..k + 1]| - 1] == s[..k] && s[..k + 1][|s[..k + 1]| - 1] == s[k]
  {
  }

  /** correlation.mojo's `project_conduction`, reduced to the upstreams it projects. */
  method FinishedUpstreams(states: seq<ExecutionState>, conduction: seq<string>) returns (r: Outcome<seq<string>>)
    ensures r == Finished(states, conduction)
  {
    var finished := [];
    for k := 0 to |conduction|
      invariant Finished(states, conduction[..k]) == Ok(finished)
    {
      PrefixStep(conduction, k);
      var s := FindState(states, conduction[k]);
      if s < 0 {
        RaisedStays(states, conduction, k + 1);
        return Raise("unknown_upstream");
      }
      assert finished + [] == finished;
      if Terminal(states[s].status) { finished := finished + [conduction[k]]; }
    }
    assert conduction[..|conduction|] == conduction;
    r := Ok(finished);
  }

  lemma {:induction false} RaisedStays(states: seq<ExecutionState>, conduction: seq<string>, k: nat)
    requires k <= |conduction| && Finished(states, conduction[..k]).Raise?
    ensures Finished(states, conduction) == Finished(states, conduction[..k])
    decreases |conduction| - k
  {
    if k < |conduction| {
      PrefixStep(conduction, k);
      RaisedStays(states, conduction, k + 1);
    } else {
      assert conduction[..k] == conduction;
    }
  }

  method ConductionPayloads(b: Boundary, plan: Plan, states: seq<ExecutionState>, upstreams: seq<string>) returns (r: Outcome<map<string, Json>>)
    ensures r == Payloads(b, plan, states, upstreams)
  {
    var conduction: map<string, Json> := map[];
    for k := 0 to |upstreams|
      invariant Payloads(b, plan, states, upstreams[..k]) == Ok(conduction)
    {
      PrefixStep(upstreams, k);
      var payload := Payload(b, plan, states, upstreams[k]);
      if payload.Raise? {
        PayloadRaiseStays(b, plan, states, upstreams, k + 1);
        return Raise(payload.code);
      }
      conduction := conduction[upstreams[k] := payload.value];
    }
    assert upstreams[..|upstreams|] == upstreams;
    r := Ok(conduction);
  }

  lemma {:induction false} PayloadRaiseStays(b: Boundary, plan: Plan, states: seq<ExecutionState>, upstreams: seq<string>, k: nat)
    requires k <= |upstreams| && Payloads(b, plan, states, upstreams[..k]).Raise?
    ensures Payloads(b, plan, states, upstreams) == Payloads(b, plan, states, upstreams[..k])
    decreases |upstreams| - k
  {
    if k < |upstreams| {
      PrefixStep(upstreams, k);
      PayloadRaiseStays(b, plan, states, upstreams, k + 1);
    } else {
      assert upstreams[..k] == upstreams;
    }
  }

  method InheritRegulation(states: seq<ExecutionState>, upstreams: seq<string>) returns (regulation: map<string, Json>)
    ensures regulation == Inherited(states, upstreams)
  {
    regulation := map[];
    for k := 0 to |upstreams|
      invariant regulation == Inherited(states, upstreams[..k])
    {
      PrefixStep(upstreams, k);
      var s := FindState(states, upstreams[k]);
      if s >= 0 { regulation := regulation + RegulationOf(states[s].input); }
    }
    assert upstreams[..|upstreams|] == upstreams;
  }

  method AccumulateReactions(b: Boundary, states: seq<ExecutionState>, ancestors: seq<string>, allowed: seq<string>) returns (r: Outcome<seq<Json>>)
    ensures r == Reactions(b, states, ancestors, allowed)
  {
    var accumulated := [];
    for k := 0 to |ancestors|
      invariant Reactions(b, states, ancestors[..k], allowed) == Ok(accumulated)
    {
      PrefixStep(ancestors, k);
      var s := FindState(states, ancestors[k]);
      if s < 0 { continue; }
      var selected := b.reactions(states[s].output, allowed);
      if selected.Raise? {
        ReactionRaiseStays(b, states, ancestors, allowed, k + 1);
        return Raise(selected.code);
      }
      accumulated := accumulated + selected.value;
    }
    assert ancestors[..|ancestors|] == ancestors;
    r := Ok(accumulated);
  }

  lemma {:induction false} ReactionRaiseStays(b: Boundary, states: seq<ExecutionState>, ancestors: seq<string>, allowed: seq<string>, k: nat)
    requires k <= |ancestors| && Reactions(b, states, ancestors[..k], allowed).Raise?
    ensures Reactions(b, states, ancestors, allowed) == Reactions(b, states, ancestors[..k], allowed)
    decreases |ancestors| - k
  {
    if k < |ancestors| {
      PrefixStep(ancestors, k);
      ReactionRaiseStays(b, states, ancestors, allowed, k + 1);
    } else {
      assert ancestors[..k] == ancestors;
    }
  }

  /** correlation_advance's `_merged_input`. */
  method MergeInput(b: Boundary, item: ProcessPlan, plan: Plan, states: seq<ExecutionState>) returns (r: Outcome<Json>)
    ensures r == MergedInput(b, item, plan, states)
    ensures r.Ok? && Distinct(plan) && DistinctEffectors(states) ==> Merges(b, item, plan, states, r.value)
  {
    if MergedInput(b, item, plan, states).Ok? && Distinct(plan) && DistinctEffectors(states) { MergedMerges(b, item, plan, states); }
    hide Merges;
    if !item.input.Obj? { return Raise("invalid_input"); }
    var upstreams := FinishedUpstreams(states, item.conduction);
    if upstreams.Raise? { return Raise(upstreams.code); }
    var conduction := ConductionPayloads(b, plan, states, upstreams.value);
    if conduction.Raise? { return Raise(conduction.code); }
    var inherited := InheritRegulation(states, upstreams.value);
    var regulation := inherited + RegulationOf(item.metadata);
    if !Accumulates(item.metadata) {
      return Ok(Injected(item.input.fields, conduction.value, regulation, None));
    }
    var ancestors := AncestorEffectors(NodesOf(plan), item.effectorId);
    var reactions := AccumulateReactions(b, states, ancestors, AcceptedKinds(item.metadata));
    if reactions.Raise? { return Raise(reactions.code); }
    r := Ok(Injected(item.input.fields, conduction.value, regulation, Some(reactions.value)));
  }

  // ---------------------------------------------------------------- what a merged input depends on

  /** Both state lists agree on this effector. */
  ghost predicate AgreeOn(s: seq<ExecutionState>, t: seq<ExecutionState>, e: string)
    requires |s| == |t|
  {
    var i := IndexOf(Nodes(s), e);
    i >= 0 ==> s[i].status == t[i].status && s[i].output == t[i].output && s[i].input == t[i].input
  }

  lemma {:induction false} FinishedFrame(s: seq<ExecutionState>, t: seq<ExecutionState>, conduction: seq<string>)
    requires |s| == |t| && Nodes(s) == Nodes(t)
    requires forall u :: u in conduction ==> AgreeOn(s, t, u)
    ensures Finished(s, conduction) == Finished(t, conduction)
    ensures Finished(s, conduction).Ok? ==> forall u :: u in Finished(s, conduction).value ==> u in conduction
    decreases |conduction|
  {
    if conduction != [] {
      FinishedFrame(s, t, conduction[..|conduction| - 1]);
      assert conduction[|conduction| - 1] in conduction;
    }
  }

  lemma {:induction false} PayloadsFrame(b: Boundary, plan: Plan, s: seq<ExecutionState>, t: seq<ExecutionState>, upstreams: seq<string>)
    requires |s| == |t| && Nodes(s) == Nodes(t)
    requires forall u :: u in upstreams ==> AgreeOn(s, t, u)
    ensures Payloads(b, plan, s, upstreams) == Payloads(b, plan, t, upstreams)
    ensures Inherited(s, upstreams) == Inherited(t, upstreams)
    decreases |upstreams|
  {
    if upstreams != [] {
      PayloadsFrame(b, plan, s, t, upstreams[..|upstreams| - 1]);
      assert upstreams[|upstreams| - 1] in upstreams;
    }
  }

  lemma {:induction false} ReactionsFrame(b: Boundary, s: seq<ExecutionState>, t: seq<ExecutionState>, ancestors: seq<string>, allowed: seq<string>)
    requires |s| == |t| && Nodes(s) == Nodes(t)
    requires forall u :: u in ancestors ==> AgreeOn(s, t, u)
    ensures Reactions(b, s, ancestors, allowed) == Reactions(b, t, ancestors, allowed)
    decreases |ancestors|
  {
    if ancestors != [] {
      ReactionsFrame(b, s, t, ancestors[..|ancestors| - 1], allowed);
      assert ancestors[|ancestors| - 1] in ancestors;
    }
  }

  /** A merged input is a function of the item's transitive upstreams alone. */
  lemma MergedInputFrame(b: Boundary, item: ProcessPlan, plan: Plan, s: seq<ExecutionState>, t: seq<ExecutionState>)
    requires item in plan.processes && Distinct(plan)
    requires |s| == |t| && Nodes(s) == Nodes(t)
    requires forall u :: Reaches(NodesOf(plan), item.effectorId, u) ==> AgreeOn(s, t, u)
    ensures MergedInput(b, item, plan, s) == MergedInput(b, item, plan, t)
  {
    PlanUpstreams(plan, item);
    forall u | u in item.conduction ensures AgreeOn(s, t, u) {
      EdgeReaches(NodesOf(plan), item.effectorId, u);
    }
    FinishedFrame(s, t, item.conduction);
    if Finished(s, item.conduction).Ok? {
      PayloadsFrame(b, plan, s, t, Finished(s, item.conduction).value);
    }
    var ancestors := AncestorOrder(NodesOf(plan), item.effectorId);
    AncestorsExact(NodesOf(plan), item.effectorId);
    ReactionsFrame(b, s, t, ancestors, AcceptedKinds(item.metadata));
  }

  /** Without reactions it is a function of the direct upstreams alone. */
  lemma DirectInputFrame(b: Boundary, item: ProcessPlan, plan: Plan, s: seq<ExecutionState>, t: seq<ExecutionState>)
    requires |s| == |t| && Nodes(s) == Nodes(t)
    requires forall u :: u in item.conduction ==> AgreeOn(s, t, u)
    ensures DirectInput(b, item, plan, s) == DirectInput(b, item, plan, t)
  {
    FinishedFrame(s, t, item.conduction);
    if Finished(s, item.conduction).Ok? {
      PayloadsFrame(b, plan, s, t, Finished(s, item.conduction).value);
    }
  }

  lemma PlanUpstreams(plan: Plan, item: ProcessPlan)
    requires item in plan.processes && Distinct(plan)
    ensures Upstreams(NodesOf(plan), item.effectorId) == item.conduction
    ensures Declared(NodesOf(plan), item.effectorId)
    ensures plan.processes[IndexOf(NodesOf(plan), item.effectorId)] == item
  {
    var i :| 0 <= i < |plan.processes| && plan.processes[i] == item;
    assert NodesOf(plan)[i].id == item.effectorId;
  }
}
