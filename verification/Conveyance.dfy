/** What processes convey to one another, told by relations on plans, rows and states alone: the view of an output
    that others see, the answer to a condition, and what an input merged from upstreams holds. */
module Conveyance {
  import opened Wrappers
  import opened JsonValue
  import opened Text
  import opened ProcessStatus
  import opened ConductionGraph
  import opened Ancestors
  import opened Readiness
  import opened CorrelationPlan

  /** One durable process row of the run; its id is its key in the journal. */
  datatype Row = Row(
    runId: string, processType: string, priority: int, status: Status, attempt: int, maxAttempts: int,
    input: Json, output: Json, error: Json, metadata: Json, outputSchema: Json)

  type Rows = map<string, Row>

  /** Calls into code outside these modules, taken as parameters: the projected property names of a
      schema, the schema validator, the reaction filter, and the two well-formedness checks. */
  datatype Boundary = Boundary(
    projectionKeys: (Json, Json) -> Outcome<set<string>>,
    accepts: (Json, Json) -> bool,
    reactions: (Json, seq<string>) -> Outcome<seq<Json>>,
    wellFormedSchema: Json -> bool,
    adapterBinding: Json -> bool)

  // ---------------------------------------------------------------- the view of an output

  /** A protocol result with an object payload. */
  ghost predicate IsResult(output: Json) {
    && output.Obj? && "protocol" in output.fields
    && "kind" in output.fields && output.fields["kind"] == Str("result")
    && "payload" in output.fields && output.fields["payload"].Obj?
  }

  /** Both maps have this key with the same value, or neither has it. */
  ghost predicate SameAt(key: string, m: map<string, Json>, n: map<string, Json>) {
    (key in m <==> key in n) && (key in m ==> n[key] == m[key])
  }

  /** What an output says beside its execution envelope: a result's payload, or everything but `adapter`. */
  ghost predicate SourceOf(output: Json, source: map<string, Json>) {
    && output.Obj?
    && (IsResult(output) ==> output.fields["payload"] == Obj(source))
    && (!IsResult(output) ==> "adapter" !in source && forall key :: key != "adapter" ==> SameAt(key, output.fields, source))
  }

  /** Everything, when the schema projects nothing; otherwise exactly the projected properties that are there. */
  ghost predicate Selects(b: Boundary, source: map<string, Json>, schema: Json, view: map<string, Json>) {
    if !schema.Obj? then view == source
    else
      var keys := b.projectionKeys(schema, Obj(source));
      && keys.Ok?
      && (keys.value == {} ==> view == source)
      && (keys.value != {} ==> view.Keys == source.Keys * keys.value && forall key :: key in view ==> view[key] == source[key])
  }

  /** The view of an output under a schema. */
  ghost predicate Projects(b: Boundary, output: Json, schema: Json, view: Json) {
    view.Obj? && exists source :: SourceOf(output, source) && Selects(b, source, schema, view.fields)
  }

  // ---------------------------------------------------------------- the answer to a condition

  predicate Done(s: Status) {
    s in {Succeeded, Failed, Skipped, Cancelled, TimedOut}
  }

  ghost predicate Compares(when: Json, upstream: string, path: string, equals: Json) {
    && when.Obj?
    && "upstream" in when.fields && when.fields["upstream"] == Str(upstream)
    && "path" in when.fields && when.fields["path"] == Str(path)
    && "equals" in when.fields && when.fields["equals"] == equals
  }

  /** Each value is the member of the one before it under the next key. */
  ghost predicate Descends(values: seq<Json>, keys: seq<string>) {
    && |values| == |keys| + 1
    && forall k :: 0 <= k < |keys| ==> values[k].Obj? && keys[k] in values[k].fields && values[k + 1] == values[k].fields[keys[k]]
  }

  /** The path, keys joined by dots, leads from the value down to the leaf. */
  ghost predicate LeadsTo(value: Json, path: string, leaf: Json) {
    exists values, keys :: LeadsAlong(value, path, leaf, values, keys)
  }

  ghost predicate LeadsAlong(value: Json, path: string, leaf: Json, values: seq<Json>, keys: seq<string>) {
    && keys != [] && Join(keys, '.') == path
    && (forall k :: 0 <= k < |keys| ==> keys[k] != "" && Free(keys[k], '.'))
    && Descends(values, keys) && values[0] == value && values[|keys|] == leaf
  }

  /** The scalar at the path in the view of an output. */
  ghost predicate ShowsScalar(b: Boundary, output: Json, schema: Json, path: string, leaf: Json) {
    leaf.Scalar() && exists view :: Projects(b, output, schema, view) && LeadsTo(view, path, leaf)
  }

  /** The answer of a source with this status and output: a source that finished without success is a miss, one that
      succeeded is compared, and anything else raises. */
  ghost predicate AnswersFrom(b: Boundary, schema: Json, status: Status, output: Json, path: string, equals: Json, r: Outcome<bool>) {
    && (status in {Failed, Skipped, Cancelled, TimedOut} ==> r == Ok(false))
    && (!Done(status) ==> r.Raise?)
    && (status.Succeeded? ==> (r.Ok? <==> equals.Scalar() && exists leaf :: ShowsScalar(b, output, schema, path, leaf)))
    && (status.Succeeded? && r.Ok? ==> forall leaf :: ShowsScalar(b, output, schema, path, leaf) ==> r == Ok(leaf == equals))
  }

  /** The source of a condition: a direct upstream with this state and this plan. */
  ghost predicate Sources(item: ProcessPlan, plan: Plan, states: seq<ExecutionState>, upstream: string, s: int, p: int) {
    && upstream in item.conduction
    && 0 <= s < |states| && states[s].effectorId == upstream
    && 0 <= p < |plan.processes| && plan.processes[p].effectorId == upstream
  }

  ghost predicate AnswersCondition(b: Boundary, item: ProcessPlan, plan: Plan, states: seq<ExecutionState>, r: Outcome<bool>) {
    if item.when.None? then r == Ok(true)
    else
      && ((forall upstream, path, equals :: !Compares(item.when.value, upstream, path, equals)) ==> r.Raise?)
      && forall upstream, path, equals :: Compares(item.when.value, upstream, path, equals) ==>
        && ((forall s, p :: !Sources(item, plan, states, upstream, s, p)) ==> r.Raise?)
        && forall s, p :: Sources(item, plan, states, upstream, s, p) ==>
          AnswersFrom(b, plan.processes[p].outputSchema, states[s].status, states[s].output, path, equals, r)
  }

  // ---------------------------------------------------------------- what a merged input holds

  /** What a finished process conducts: the accepted view of its output when it succeeded, otherwise its error or its
      output as an object. */
  ghost predicate Conveys(b: Boundary, schema: Json, status: Status, shown: Json, value: Json) {
    if status.Succeeded? then Projects(b, shown, schema, value) && b.accepts(value, schema)
    else value == if shown.Obj? then shown else Obj(map["error" := shown])
  }

  /** Under `conduction`, every finished direct upstream and nothing else, each with what it conducts. */
  ghost predicate Conducted(b: Boundary, item: ProcessPlan, plan: Plan, states: seq<ExecutionState>, fields: map<string, Json>) {
    && "conduction" in fields && fields["conduction"].Obj?
    && var conducted := fields["conduction"].fields;
       && (forall u :: u in conducted <==> u in item.conduction && FinishedState(states, u))
       && forall s, p :: ConductedPair(plan, states, conducted, s, p) ==>
            Conveys(b, plan.processes[p].outputSchema, states[s].status, states[s].output, conducted[states[s].effectorId])
  }

  ghost predicate ConductedPair(plan: Plan, states: seq<ExecutionState>, conducted: map<string, Json>, s: int, p: int) {
    && 0 <= s < |states| && 0 <= p < |plan.processes| && states[s].effectorId == plan.processes[p].effectorId
    && states[s].effectorId in conducted
  }

  ghost predicate FinishedState(states: seq<ExecutionState>, effector: string) {
    exists s :: 0 <= s < |states| && states[s].effectorId == effector && Done(states[s].status)
  }

  /** The document regulates the key with this value. */
  ghost predicate Regulates(j: Json, key: string, value: Json) {
    && j.Obj? && "regulation" in j.fields && j.fields["regulation"].Obj?
    && key in j.fields["regulation"].fields && j.fields["regulation"].fields[key] == value
  }

  /** A finished upstream passes the value on. */
  ghost predicate PassesOn(states: seq<ExecutionState>, upstream: string, key: string, value: Json) {
    exists s :: 0 <= s < |states| && states[s].effectorId == upstream && Done(states[s].status) && Regulates(states[s].input, key, value)
  }

  /** The last upstream that passes a value on for the key passes on this one. */
  ghost predicate PassedLast(states: seq<ExecutionState>, conduction: seq<string>, key: string, value: Json) {
    exists i :: 0 <= i < |conduction| && PassedAt(states, conduction, i, key, value)
  }

  ghost predicate PassedAt(states: seq<ExecutionState>, conduction: seq<string>, i: nat, key: string, value: Json)
    requires i < |conduction|
  {
    && PassesOn(states, conduction[i], key, value)
    && forall k :: i < k < |conduction| ==> !PassesSome(states, conduction[k], key)
  }

  ghost predicate PassesSome(states: seq<ExecutionState>, upstream: string, key: string) {
    exists value :: PassesOn(states, upstream, key, value)
  }

  /** The path's own regulation wins over what the upstreams pass on. */
  ghost predicate Governs(item: ProcessPlan, states: seq<ExecutionState>, key: string, value: Json) {
    || Regulates(item.metadata, key, value)
    || ((forall own :: !Regulates(item.metadata, key, own)) && PassedLast(states, item.conduction, key, value))
  }

  ghost predicate Regulated(item: ProcessPlan, states: seq<ExecutionState>, fields: map<string, Json>)
    requires item.input.Obj?
  {
    && ((exists key, value :: Governs(item, states, key, value)) ==>
          "regulation" in fields && forall key, value :: Regulates(Obj(fields), key, value) <==> Governs(item, states, key, value))
    && ((forall key, value :: !Governs(item, states, key, value)) ==> SameAt("regulation", item.input.fields, fields))
  }

  ghost predicate Collects(metadata: Json) {
    metadata.Obj? && "accumulate_upstream_reactions" in metadata.fields
    && metadata.fields["accumulate_upstream_reactions"] == Bool(true)
  }

  /** The input but for accumulated reactions: everything authored, what the upstreams conduct, and the regulation. */
  ghost predicate MergesDirect(b: Boundary, item: ProcessPlan, plan: Plan, states: seq<ExecutionState>, input: Json) {
    && item.input.Obj? && input.Obj?
    && (forall key :: key !in {"conduction", "regulation", "upstream_reactions"} ==> SameAt(key, item.input.fields, input.fields))
    && Conducted(b, item, plan, states, input.fields)
    && Regulated(item, states, input.fields)
    && (!Collects(item.metadata) ==> SameAt("upstream_reactions", item.input.fields, input.fields))
  }

  // ---------------------------------------------------------------- accumulated reactions

  /** The texts among the items, in their order. */
  ghost predicate TextsAmong(items: seq<Json>, texts: seq<string>) {
    exists at :: TextsAt(items, texts, at)
  }

  ghost predicate TextsAt(items: seq<Json>, texts: seq<string>, at: seq<nat>) {
    && |at| == |texts|
    && (forall k :: 0 <= k < |at| ==> at[k] < |items| && items[at[k]] == Str(texts[k]))
    && (forall k, l :: 0 <= k < l < |at| ==> at[k] < at[l])
    && (forall i :: 0 <= i < |items| && items[i].Str? ==> i in at)
  }

  ghost predicate AdmitsKinds(metadata: Json, kinds: seq<string>) {
    if metadata.Obj? && "accepted_reaction_kinds" in metadata.fields && metadata.fields["accepted_reaction_kinds"].Arr?
    then TextsAmong(metadata.fields["accepted_reaction_kinds"].items, kinds) else kinds == []
  }

  function Flat(parts: seq<seq<Json>>): seq<Json> {
    if parts == [] then [] else Flat(parts[..|parts| - 1]) + parts[|parts| - 1]
  }

  /** Part by part, what the reaction filter keeps of each ancestor's output. */
  ghost predicate PartsOf(b: Boundary, nodes: seq<Node>, outputs: seq<Json>, ancestors: seq<string>, kinds: seq<string>, parts: seq<seq<Json>>)
    requires |outputs| == |nodes|
  {
    && |parts| == |ancestors|
    && (forall k, s :: 0 <= k < |ancestors| && 0 <= s < |nodes| && nodes[s].id == ancestors[k] ==> b.reactions(outputs[s], kinds) == Ok(parts[k]))
    && (forall k :: 0 <= k < |ancestors| && (forall s :: 0 <= s < |nodes| ==> nodes[s].id != ancestors[k]) ==> parts[k] == [])
  }

  /** Where the metadata asks for them, the admitted reactions of all transitive upstreams, upstreams first. */
  ghost predicate Gathers(b: Boundary, item: ProcessPlan, plan: Plan, nodes: seq<Node>, outputs: seq<Json>, fields: map<string, Json>)
    requires |outputs| == |nodes|
  {
    Collects(item.metadata) ==> "upstream_reactions" in fields && exists kinds, parts ::
      && AdmitsKinds(item.metadata, kinds)
      && PartsOf(b, nodes, outputs, AncestorOrder(NodesOf(plan), item.effectorId), kinds, parts)
      && fields["upstream_reactions"] == Arr(Flat(parts))
  }

  ghost function OutputsOf(states: seq<ExecutionState>): (outputs: seq<Json>)
    ensures |outputs| == |states| && forall i :: 0 <= i < |states| ==> outputs[i] == states[i].output
  {
    seq(|states|, i requires 0 <= i < |states| => states[i].output)
  }

  /** The whole input. */
  ghost predicate Merges(b: Boundary, item: ProcessPlan, plan: Plan, states: seq<ExecutionState>, input: Json) {
    MergesDirect(b, item, plan, states, input) && Gathers(b, item, plan, Nodes(states), OutputsOf(states), input.fields)
  }

  // ---------------------------------------------------------------- states and rows

  /** The states of the rows: each shows its row's error in place of its output when it failed, was cancelled or
      timed out. */
  ghost predicate Shows(plan: Plan, rows: Rows, states: seq<ExecutionState>) {
    |states| == |plan.processes| && forall i :: 0 <= i < |states| ==> ShowsRow(plan.processes[i], rows, states[i])
  }

  ghost predicate ShowsRow(item: ProcessPlan, rows: Rows, state: ExecutionState) {
    && item.id in rows
    && var row := rows[item.id];
       && state.processId == item.id && state.effectorId == item.effectorId && state.conduction == item.conduction
       && state.status == row.status && state.attempt == row.attempt && state.maxAttempts == row.maxAttempts && state.input == row.input
       && (row.status in {Failed, Cancelled, TimedOut} ==> state.output == row.error)
       && (row.status !in {Failed, Cancelled, TimedOut} ==> state.output == row.output)
  }

  ghost predicate RowOutputs(plan: Plan, rows: Rows, outputs: seq<Json>) {
    |outputs| == |plan.processes| && forall i :: 0 <= i < |outputs| ==> ShowsOutput(plan.processes[i], rows, outputs[i])
  }

  ghost predicate ShowsOutput(item: ProcessPlan, rows: Rows, output: Json) {
    item.id in rows && output == rows[item.id].output
  }

  /** An input merged by refresh: every upstream has finished, and reactions are read from the rows' outputs. */
  ghost predicate MergesRows(b: Boundary, item: ProcessPlan, plan: Plan, rows: Rows, input: Json) {
    && input.Obj? && AllDone(plan, rows, item)
    && (exists states :: Shows(plan, rows, states) && MergesDirect(b, item, plan, states, input))
    && (exists outputs :: RowOutputs(plan, rows, outputs) && Gathers(b, item, plan, NodesOf(plan), outputs, input.fields))
  }

  // ---------------------------------------------------------------- what an advancement does to rows

  ghost predicate DoneUpstream(plan: Plan, rows: Rows, upstream: string) {
    exists p :: 0 <= p < |plan.processes| && plan.processes[p].effectorId == upstream && DoneRow(plan.processes[p], rows)
  }

  ghost predicate DoneRow(source: ProcessPlan, rows: Rows) {
    source.id in rows && Done(rows[source.id].status)
  }

  /** Every upstream of the process has finished. */
  ghost predicate AllDone(plan: Plan, rows: Rows, item: ProcessPlan) {
    forall u :: u in item.conduction ==> DoneUpstream(plan, rows, u)
  }

  /** The row was pending in `s` and is decided in `t`: readied with what its upstreams conduct when its condition is
      answered with true, and skipped with a record of the condition when it is answered with false. */
  ghost predicate DecidedRow(b: Boundary, plan: Plan, s: Rows, t: Rows, item: ProcessPlan)
    requires item.id in s && item.id in t
  {
    && AllDone(plan, t, item) && t[item.id].error == s[item.id].error
    && exists states, ready :: DecidedOn(b, plan, s, t, item, states, ready)
  }

  ghost predicate DecidedOn(b: Boundary, plan: Plan, s: Rows, t: Rows, item: ProcessPlan, states: seq<ExecutionState>, ready: bool)
    requires item.id in s && item.id in t
  {
    && Shows(plan, t, states) && AnswersCondition(b, item, plan, states, Ok(ready))
    && (ready ==> t[item.id].status.Ready? && t[item.id].output == s[item.id].output && MergesDirect(b, item, plan, states, t[item.id].input))
    && (!ready ==> t[item.id].status.Skipped? && t[item.id].input == s[item.id].input && SkipRecord(item, t[item.id].output))
  }

  ghost predicate SkipRecord(item: ProcessPlan, output: Json) {
    && item.when.Some? && output.Obj? && output.fields.Keys == {"reason", "when"}
    && output.fields["reason"] == Str("condition_not_met") && output.fields["when"] == item.when.value
  }

  /** Every planned row that has left pending was decided. */
  ghost predicate DecidedRows(b: Boundary, plan: Plan, s: Rows, t: Rows) {
    forall item :: item in plan.processes && item.id in s && item.id in t && s[item.id].status.Pending? && !t[item.id].status.Pending?
      ==> DecidedRow(b, plan, s, t, item)
  }

  /** What was readied carries the whole merged input, accumulated reactions included. */
  ghost predicate ReadiedInFull(b: Boundary, plan: Plan, s: Rows, t: Rows) {
    forall item :: item in plan.processes && item.id in s && item.id in t && s[item.id].status.Pending? && t[item.id].status.Ready?
      ==> exists states :: Shows(plan, t, states) && Merges(b, item, plan, states, t[item.id].input)
  }

  /** Nobody pending has all its upstreams finished. */
  ghost predicate NoneDue(plan: Plan, rows: Rows) {
    forall item :: item in plan.processes && item.id in rows && rows[item.id].status.Pending? ==> !AllDone(plan, rows, item)
  }

  /** The source of the condition has finished without success. */
  ghost predicate Missed(plan: Plan, rows: Rows, item: ProcessPlan) {
    item.when.Some? && exists upstream :: MissedAt(plan, rows, item, upstream)
  }

  ghost predicate MissedAt(plan: Plan, rows: Rows, item: ProcessPlan, upstream: string)
    requires item.when.Some?
  {
    && upstream in item.conduction && (exists path, equals :: Compares(item.when.value, upstream, path, equals))
    && exists p :: 0 <= p < |plan.processes| && plan.processes[p].effectorId == upstream && MissedRow(plan.processes[p], rows)
  }

  ghost predicate MissedRow(source: ProcessPlan, rows: Rows) {
    source.id in rows && rows[source.id].status in {Failed, Skipped, Cancelled, TimedOut}
  }

  /** A process that was pending, and whose condition is missed once its upstreams are finished, is skipped. */
  ghost predicate MissesSkipped(plan: Plan, s: Rows, t: Rows) {
    forall item :: item in plan.processes && item.id in s && item.id in t && s[item.id].status.Pending? && AllDone(plan, t, item) && Missed(plan, t, item)
      ==> t[item.id].status.Skipped?
  }
}
