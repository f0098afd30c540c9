/** Replay identity: which durable row belongs to which planned process (correlation_persistence.mojo's
    `_same_row` and correlation_advance.mojo's `_same_durable_row`). */
module Matching {
  import opened Wrappers
  import opened JsonValue
  import opened ProcessStatus
  import opened CorrelationPlan
  import opened Conveyance
  import opened Conduct
  import opened RunJournals

  const CONFIG := "__correlation_config"
  const SCHEMA := "__correlation_output_schema"
  const CONDUCTION := "__correlation_conduction"
  const WHEN := "__correlation_when"
  const TIMEOUT := "__correlation_timeout_seconds"
  const BINDING := "__adapter_binding"

  const PLAN_FIELDS := {CONFIG, SCHEMA, CONDUCTION, WHEN, TIMEOUT}
  const RESERVED_METADATA := PLAN_FIELDS + {BINDING, WAIT_MARKER}
  const INJECTED_KEYS := {"conduction", "upstream_reactions", "regulation"}
  const RESERVED_INPUT := INJECTED_KEYS + {"adapter", "config"}
  const PROCESS_TYPE := "correlation.effector"

  function WhenJson(item: ProcessPlan): Json {
    if item.when.Some? then item.when.value else Null
  }

  // ---------------------------------------------------------------- what scheduling writes

  /** `_authored_json` with reserved keys rejected. */
  function AuthoredInput(item: ProcessPlan): Outcome<map<string, Json>> {
    if item.input.Obj? && item.input.fields.Keys !! RESERVED_INPUT then Ok(item.input.fields) else Raise("invalid_input")
  }

  /** `_metadata_for_item`. */
  function MetadataFor(b: Boundary, item: ProcessPlan): Outcome<Json> {
    if !item.metadata.Obj? || !(item.metadata.fields.Keys !! RESERVED_METADATA) then Raise("invalid_metadata")
    else if !item.config.Obj? then Raise("invalid_config")
    else if !b.wellFormedSchema(item.outputSchema) || !item.outputSchema.Obj? then Raise("invalid_output_schema")
    else
      Ok(Obj(item.metadata.fields
        [CONFIG := item.config][SCHEMA := item.outputSchema][CONDUCTION := TextArray(item.conduction)]
        [WHEN := WhenJson(item)][TIMEOUT := Float(item.timeoutSeconds)]))
  }

  /** `_initial_input`: the authored input plus the path's own regulation. */
  function InitialInput(item: ProcessPlan): Outcome<Json> {
    if !item.input.Obj? then Raise("invalid_input")
    else
      var regulation := RegulationOf(item.metadata);
      Ok(if regulation == map[] then item.input else Obj(item.input.fields["regulation" := Obj(regulation)]))
  }

  /** A row just scheduled: a root is ready, everything else is pending. */
  function FreshRow(b: Boundary, item: ProcessPlan): Outcome<Row> {
    var input :- InitialInput(item);
    var metadata :- MetadataFor(b, item);
    Ok(Row(item.runId, PROCESS_TYPE, item.priority, if item.conduction == [] then Ready else Pending, 0, item.maxAttempts,
           input, EMPTY_OBJECT, EMPTY_OBJECT, metadata, item.outputSchema))
  }

  ghost predicate ListsTexts(j: Json, texts: seq<string>) {
    j.Arr? && |j.items| == |texts| && forall i :: 0 <= i < |texts| ==> j.items[i] == Str(texts[i])
  }

  /** The plan's own configuration, schema, upstreams, condition and timeout stand in the metadata. */
  ghost predicate StatesPlan(metadata: map<string, Json>, item: ProcessPlan) {
    && CONFIG in metadata && metadata[CONFIG] == item.config
    && SCHEMA in metadata && metadata[SCHEMA] == item.outputSchema
    && CONDUCTION in metadata && ListsTexts(metadata[CONDUCTION], item.conduction)
    && (WHEN in metadata ==> metadata[WHEN] == if item.when.Some? then item.when.value else Null)
    && (WHEN !in metadata ==> item.when.None? || item.when.value == Null)
    && TIMEOUT in metadata && metadata[TIMEOUT] == Float(item.timeoutSeconds)
  }

  /** The authored input, with the path's own regulation when it has one. */
  ghost predicate FreshInput(item: ProcessPlan, input: Json) {
    && item.input.Obj? && input.Obj?
    && (forall key :: key != "regulation" ==> SameAt(key, item.input.fields, input.fields))
    && ((exists key, value :: Regulates(item.metadata, key, value)) ==>
          "regulation" in input.fields && input.fields["regulation"] == item.metadata.fields["regulation"])
    && ((forall key, value :: !Regulates(item.metadata, key, value)) ==> SameAt("regulation", item.input.fields, input.fields))
  }

  /** A row nothing has happened to yet: a root is ready, everything else is pending. */
  ghost predicate FreshFor(item: ProcessPlan, row: Row) {
    && row.runId == item.runId && row.processType == "correlation.effector" && row.priority == item.priority
    && row.maxAttempts == item.maxAttempts && row.outputSchema == item.outputSchema
    && row.status == (if item.conduction == [] then Ready else Pending)
    && row.attempt == 0 && row.output == Obj(map[]) && row.error == Obj(map[])
    && FreshInput(item, row.input)
    && item.metadata.Obj? && row.metadata.Obj? && StatesPlan(row.metadata.fields, item) && WHEN in row.metadata.fields
    && forall key :: key !in PLAN_FIELDS ==> SameAt(key, item.metadata.fields, row.metadata.fields)
  }

  lemma RegulationEmpty(j: Json)
    ensures RegulationOf(j) == map[] <==> forall key, value :: !Regulates(j, key, value)
  {
    forall key, value ensures Regulates(j, key, value) <==> Entry(RegulationOf(j), key, value) { RegulationIsSet(j, key, value); }
    if RegulationOf(j) != map[] {
      var key :| key in RegulationOf(j);
      assert Entry(RegulationOf(j), key, RegulationOf(j)[key]);
    }
  }

  lemma InitialInputIsFresh(item: ProcessPlan)
    requires InitialInput(item).Ok?
    ensures FreshInput(item, InitialInput(item).value)
  {
    RegulationEmpty(item.metadata);
  }

  lemma MetadataStatesPlan(b: Boundary, item: ProcessPlan)
    requires MetadataFor(b, item).Ok?
    ensures item.metadata.Obj? && MetadataFor(b, item).value.Obj? && StatesPlan(MetadataFor(b, item).value.fields, item)
    ensures WHEN in MetadataFor(b, item).value.fields
    ensures forall key :: key !in PLAN_FIELDS ==> SameAt(key, item.metadata.fields, MetadataFor(b, item).value.fields)
  {
  }

  /** What scheduling writes is a fresh row. */
  lemma FreshRowIsFresh(b: Boundary, item: ProcessPlan, row: Row)
    requires FreshRow(b, item) == Ok(row)
    ensures FreshFor(item, row)
  {
    InitialInputIsFresh(item);
    MetadataStatesPlan(b, item);
    hide InitialInput, MetadataFor, FreshInput, StatesPlan, SameAt;
  }

  // ---------------------------------------------------------------- the two comparisons

  predicate PlanFieldsMatch(metadata: map<string, Json>, item: ProcessPlan) {
    && CONFIG in metadata && metadata[CONFIG] == item.config
    && SCHEMA in metadata && metadata[SCHEMA] == item.outputSchema
    && CONDUCTION in metadata && metadata[CONDUCTION] == TextArray(item.conduction)
    && (if WHEN in metadata then metadata[WHEN] else Null) == WhenJson(item)
    && TIMEOUT in metadata && metadata[TIMEOUT] == Float(item.timeoutSeconds)
  }

  predicate BindingSound(b: Boundary, metadata: map<string, Json>) {
    BINDING in metadata ==> b.adapterBinding(metadata[BINDING])
  }

  /** `_same_row`; its conjunction stops at the first difference, before anything later can raise. */
  function SameRow(b: Boundary, row: Row, item: ProcessPlan): Outcome<bool> {
    if !item.outputSchema.Obj? then Raise("invalid_json")
    else if row.runId != item.runId || row.processType != PROCESS_TYPE || row.priority != item.priority
         || row.maxAttempts != item.maxAttempts || row.outputSchema != item.outputSchema then Ok(false)
    else
      var authored :- AuthoredInput(item);
      if !row.input.Obj? then Raise("invalid_input")
      else if authored != row.input.fields - INJECTED_KEYS then Ok(false)
      else if !item.metadata.Obj? || !row.metadata.Obj? || !BindingSound(b, row.metadata.fields) then Raise("invalid_metadata")
      else if !item.config.Obj? then Raise("invalid_json")
      else Ok(item.metadata.fields == row.metadata.fields - RESERVED_METADATA && PlanFieldsMatch(row.metadata.fields, item))
  }

  /** `_same_durable_row`, which also ties the typed sequence and effector id to the stored marker. */
  function SameDurableRow(b: Boundary, row: Row, item: ProcessPlan): Outcome<bool> {
    if row.runId != item.runId || row.processType != PROCESS_TYPE || row.priority != item.priority
       || row.maxAttempts != item.maxAttempts then Ok(false)
    else if !item.input.Obj? || !row.input.Obj? || row.input.fields - INJECTED_KEYS != item.input.fields - INJECTED_KEYS then Ok(false)
    else if !row.metadata.Obj? || !item.metadata.Obj? then Ok(false)
    else if !BindingSound(b, row.metadata.fields) then Raise("invalid_metadata")
    else if row.metadata.fields - RESERVED_METADATA != item.metadata.fields - (PLAN_FIELDS + {WAIT_MARKER}) then Ok(false)
    else if !("seq" in item.metadata.fields && item.metadata.fields["seq"] == Int(item.declarationSeq)) then Ok(false)
    else if !("effector_id" in item.metadata.fields && item.metadata.fields["effector_id"] == Str(item.effectorId)) then Ok(false)
    else if !item.config.Obj? || !item.outputSchema.Obj? then Raise("expected JSON object")
    else Ok(PlanFieldsMatch(row.metadata.fields, item))
  }

  /** Authored keys alike: everything but what the engine injects. */
  ghost predicate SameAuthored(item: ProcessPlan, input: Json) {
    && item.input.Obj? && input.Obj?
    && forall key :: key !in {"conduction", "upstream_reactions", "regulation"} ==> SameAt(key, item.input.fields, input.fields)
  }

  /** The same run, kind, priority and attempts, the plan in the metadata, and every other authored metadata key alike. */
  ghost predicate SameSettings(b: Boundary, item: ProcessPlan, row: Row) {
    && row.runId == item.runId && row.processType == "correlation.effector" && row.priority == item.priority && row.maxAttempts == item.maxAttempts
    && item.config.Obj? && item.outputSchema.Obj? && item.metadata.Obj? && row.metadata.Obj?
    && StatesPlan(row.metadata.fields, item) && BINDING !in item.metadata.fields
    && (BINDING in row.metadata.fields ==> b.adapterBinding(row.metadata.fields[BINDING]))
    && forall key :: key !in RESERVED_METADATA ==> SameAt(key, item.metadata.fields, row.metadata.fields)
  }

  /** What advancement accepts as the row of a process. */
  ghost predicate Belongs(b: Boundary, item: ProcessPlan, row: Row) {
    && SameSettings(b, item, row) && SameAuthored(item, row.input)
    && "seq" in item.metadata.fields && item.metadata.fields["seq"] == Int(item.declarationSeq)
    && "effector_id" in item.metadata.fields && item.metadata.fields["effector_id"] == Str(item.effectorId)
  }

  /** What scheduling accepts as the row of a process: it stores the schema too, and nothing authored is reserved. */
  ghost predicate WasScheduled(b: Boundary, item: ProcessPlan, row: Row) {
    && SameSettings(b, item, row) && SameAuthored(item, row.input) && row.outputSchema == item.outputSchema
    && item.input.fields.Keys !! {"conduction", "upstream_reactions", "regulation", "adapter", "config"}
    && item.metadata.fields.Keys !! RESERVED_METADATA
  }

  lemma SameWithout(m: map<string, Json>, n: map<string, Json>, removed: set<string>)
    ensures m - removed == n - removed <==> forall key :: key !in removed ==> SameAt(key, m, n)
  {
    if m - removed == n - removed {
      forall key | key !in removed ensures SameAt(key, m, n) {
        assert key in m - removed <==> key in m;
        assert key in n - removed <==> key in n;
        if key in m { assert (m - removed)[key] == (n - removed)[key]; }
      }
    }
  }

  lemma PlanFieldsState(metadata: map<string, Json>, item: ProcessPlan)
    ensures PlanFieldsMatch(metadata, item) <==> StatesPlan(metadata, item)
  {
    if CONDUCTION in metadata && ListsTexts(metadata[CONDUCTION], item.conduction) {
      assert metadata[CONDUCTION].items == TextArray(item.conduction).items;
    }
  }

  /** Apart from a few keys that `m` does not have, both agree. */
  lemma AgreesWithout(m: map<string, Json>, n: map<string, Json>, fewer: set<string>, removed: set<string>)
    requires fewer <= removed
    ensures n - removed == m - fewer <==>
      (forall key :: key in removed && key !in fewer ==> key !in m) && forall key :: key !in removed ==> SameAt(key, m, n)
  {
    if n - removed == m - fewer {
      forall key | key in removed && key !in fewer ensures key !in m { assert key in m - fewer <==> key in n - removed; }
      forall key | key !in removed ensures SameAt(key, m, n) {
        assert key in m - fewer <==> key in m;
        assert key in n - removed <==> key in n;
        if key in m { assert (m - fewer)[key] == (n - removed)[key]; }
      }
    }
  }

  /** Advancement's comparison accepts exactly the rows that belong to the process. */
  lemma DurableExact(b: Boundary, row: Row, item: ProcessPlan)
    ensures SameDurableRow(b, row, item) == Ok(true) <==> Belongs(b, item, row)
  {
    hide PlanFieldsMatch, StatesPlan, SameAt;
    if item.input.Obj? && row.input.Obj? { SameWithout(item.input.fields, row.input.fields, INJECTED_KEYS); }
    if item.metadata.Obj? && row.metadata.Obj? {
      PlanFieldsState(row.metadata.fields, item);
      AgreesWithout(item.metadata.fields, row.metadata.fields, PLAN_FIELDS + {WAIT_MARKER}, RESERVED_METADATA);
    }
  }

  /** Scheduling's comparison accepts exactly the rows it could have written and execution enriched. */
  lemma SameRowExact(b: Boundary, row: Row, item: ProcessPlan)
    ensures SameRow(b, row, item) == Ok(true) <==> WasScheduled(b, item, row)
  {
    hide PlanFieldsMatch, StatesPlan, SameAt;
    if item.input.Obj? && row.input.Obj? { AgreesWithout(item.input.fields, row.input.fields, {}, INJECTED_KEYS); }
    if item.metadata.Obj? && row.metadata.Obj? {
      PlanFieldsState(row.metadata.fields, item);
      AgreesWithout(item.metadata.fields, row.metadata.fields, {}, RESERVED_METADATA);
    }
  }

  // ---------------------------------------------------------------- stability

  /** `later` differs from `row` only where execution is allowed to write: status, attempt, output, error,
      injected input keys, the wait marker and a sound adapter binding. */
  ghost predicate Enriched(b: Boundary, row: Row, later: Row) {
    && later.runId == row.runId && later.processType == row.processType && later.priority == row.priority
    && later.maxAttempts == row.maxAttempts && later.outputSchema == row.outputSchema
    && row.input.Obj? && later.input.Obj? && later.input.fields - INJECTED_KEYS == row.input.fields - INJECTED_KEYS
    && row.metadata.Obj? && later.metadata.Obj?
    && later.metadata.fields - {WAIT_MARKER, BINDING} == row.metadata.fields - {WAIT_MARKER, BINDING}
    && BindingSound(b, later.metadata.fields)
  }

  /** A freshly scheduled row matches its plan. */
  lemma FreshRowMatches(b: Boundary, item: ProcessPlan)
    requires AuthoredInput(item).Ok? && MetadataFor(b, item).Ok?
    ensures FreshRow(b, item).Ok? && SameRow(b, FreshRow(b, item).value, item) == Ok(true)
  {
    FreshMetadata(b, item);
    hide MetadataFor, PlanFieldsMatch;
    var row := FreshRow(b, item).value;
    assert row.input.fields - INJECTED_KEYS == item.input.fields;
  }

  lemma FreshMetadata(b: Boundary, item: ProcessPlan)
    requires MetadataFor(b, item).Ok?
    ensures item.metadata.Obj? && item.config.Obj? && item.outputSchema.Obj? && MetadataFor(b, item).value.Obj?
    ensures var fields := MetadataFor(b, item).value.fields;
      fields - RESERVED_METADATA == item.metadata.fields && PlanFieldsMatch(fields, item) && BindingSound(b, fields)
  {
    hide TextArray;
  }

  /** Projections of a metadata object that agree apart from the marker and the binding. */
  lemma SamePlanFields(m: map<string, Json>, n: map<string, Json>)
    requires m - {WAIT_MARKER, BINDING} == n - {WAIT_MARKER, BINDING}
    ensures m - RESERVED_METADATA == n - RESERVED_METADATA
    ensures forall k :: k in PLAN_FIELDS ==> (k in m <==> k in n) && (k in m ==> m[k] == n[k])
  {
    forall k | k != WAIT_MARKER && k != BINDING ensures (k in m <==> k in n) && (k in m ==> m[k] == n[k]) {
      assert k in m - {WAIT_MARKER, BINDING} <==> k in m;
      assert k in n - {WAIT_MARKER, BINDING} <==> k in n;
      if k in m { assert (m - {WAIT_MARKER, BINDING})[k] == (n - {WAIT_MARKER, BINDING})[k]; }
    }
  }

  /** Stability: a row that matches its plan goes on matching it however execution enriches it, so
      persisting the plan again finds it and never reports a conflict. */
  lemma MatchingIsStable(b: Boundary, row: Row, later: Row, item: ProcessPlan)
    requires Enriched(b, row, later)
    ensures SameRow(b, row, item) == Ok(true) ==> SameRow(b, later, item) == Ok(true)
    ensures SameDurableRow(b, row, item) == Ok(true) ==> SameDurableRow(b, later, item) == Ok(true)
  {
    SamePlanFields(row.metadata.fields, later.metadata.fields);
  }

  /** A row that scheduling accepts is also the row that advancement accepts, once the stored marker
      carries the plan's own sequence number and effector id. */
  lemma PersistedRowsAdvance(b: Boundary, row: Row, item: ProcessPlan)
    requires SameRow(b, row, item) == Ok(true) && MetadataFor(b, item).Ok?
    requires "seq" in item.metadata.fields && item.metadata.fields["seq"] == Int(item.declarationSeq)
    requires "effector_id" in item.metadata.fields && item.metadata.fields["effector_id"] == Str(item.effectorId)
    ensures SameDurableRow(b, row, item) == Ok(true)
  {
    assert item.input.fields - INJECTED_KEYS == item.input.fields;
    assert item.metadata.fields - (PLAN_FIELDS + {WAIT_MARKER}) == item.metadata.fields;
  }

  // ---------------------------------------------------------------- discrimination

  lemma TextArrayInjective(s: seq<string>, t: seq<string>)
    requires TextArray(s) == TextArray(t)
    ensures s == t
  {
    forall i | 0 <= i < |s| ensures s[i] == t[i] {
      assert TextArray(s).items[i] == Str(s[i]) && TextArray(t).items[i] == Str(t[i]);
    }
  }

  /** Discrimination: a row matching two planned processes forces them to agree on everything authored. */
  lemma MatchingDiscriminates(b: Boundary, row: Row, p: ProcessPlan, q: ProcessPlan)
    requires SameRow(b, row, p) == Ok(true) && SameRow(b, row, q) == Ok(true)
    requires SoundCondition(p) && SoundCondition(q)
    ensures p.input == q.input && p.config == q.config && p.outputSchema == q.outputSchema
    ensures p.conduction == q.conduction && p.when == q.when && p.timeoutSeconds == q.timeoutSeconds
    ensures p.runId == q.runId && p.priority == q.priority && p.maxAttempts == q.maxAttempts && p.metadata == q.metadata
  {
    TextArrayInjective(p.conduction, q.conduction);
  }

  /** With advancement's comparison as well, the row identifies the planned process completely. */
  lemma MatchingIdentifies(b: Boundary, row: Row, p: ProcessPlan, q: ProcessPlan)
    requires p.id == q.id
    requires SameRow(b, row, p) == Ok(true) && SameRow(b, row, q) == Ok(true)
    requires SameDurableRow(b, row, p) == Ok(true) && SameDurableRow(b, row, q) == Ok(true)
    requires SoundCondition(p) && SoundCondition(q)
    ensures p == q
  {
    MatchingDiscriminates(b, row, p, q);
  }
}
