/** From a declared path to a plan (correlation.mojo): graph validation, authored inputs and their overrides, and one
    planned process per effector. */
module Instantiation {
  import opened Wrappers
  import opened JsonValue
  import opened ConductionGraph
  import opened CorrelationPlan
  import opened Conveyance
  import opened Conduct
  import opened RunJournals
  import opened Matching
  import opened Advance

  datatype EffectorSpec = EffectorSpec(
    id: string, conduction: seq<string>, capability: string, timeoutSeconds: real, config: Json, outputSchema: Json,
    regulation: Json, acceptedReactionKinds: seq<string>, when: Option<Json>)

  datatype PathSpec = PathSpec(id: string, effectors: seq<EffectorSpec>, accumulate: bool)

  datatype Field = Field(key: string, value: Json)

  datatype Overrides = Overrides(
    inputs: map<string, seq<Field>>, configs: map<string, Json>, timeouts: map<string, real>,
    attempts: map<string, int>, regulations: map<string, Json>)

  // ---------------------------------------------------------------- the declared graph

  ghost predicate SoundNode(nodes: seq<Node>, node: Node) {
    && (forall u :: u in node.conduction ==> u != "" && u != node.id && Declared(nodes, u))
    && NoRepeats(node.conduction)
  }

  /** Ids are named and distinct and references are sound; cycles are legal. */
  ghost predicate SoundGraph(nodes: seq<Node>) {
    && (forall i :: 0 <= i < |nodes| ==> nodes[i].id != "" && SoundNode(nodes, nodes[i]))
    && (forall i, j :: 0 <= i < j < |nodes| ==> nodes[i].id != nodes[j].id)
  }

  method ValidateReferences(nodes: seq<Node>, node: Node, ids: seq<string>) returns (sound: bool)
    requires |ids| == |nodes| && forall i :: 0 <= i < |ids| ==> ids[i] == nodes[i].id
    ensures sound <==> SoundNode(nodes, node)
  {
    var seenUpstreams: seq<string> := [];
    for k := 0 to |node.conduction|
      invariant seenUpstreams == node.conduction[..k] && NoRepeats(seenUpstreams)
      invariant forall j :: 0 <= j < k ==>
        node.conduction[j] != "" && node.conduction[j] != node.id && Declared(nodes, node.conduction[j])
    {
      var upstream := node.conduction[k];
      assert upstream in node.conduction;
      if upstream == "" { return false; }
      ghost var at := IndexOf(nodes, upstream);
      assert at >= 0 ==> ids[at] == upstream;
      if upstream !in ids { return false; }
      if upstream == node.id { return false; }
      if upstream in seenUpstreams {
        var j :| 0 <= j < k && seenUpstreams[j] == upstream;
        assert node.conduction[j] == node.conduction[k];
        return false;
      }
      seenUpstreams := seenUpstreams + [upstream];
    }
    assert node.conduction[..|node.conduction|] == node.conduction;
    sound := true;
  }

  /** `validate_graph`. */
  method ValidateGraph(nodes: seq<Node>) returns (sound: bool)
    ensures sound <==> SoundGraph(nodes)
  {
    var ids: seq<string> := [];
    for k := 0 to |nodes|
      invariant |ids| == k && forall i :: 0 <= i < k ==> ids[i] == nodes[i].id != ""
      invariant forall i, j :: 0 <= i < j < k ==> ids[i] != ids[j]
    {
      if nodes[k].id == "" { return false; }
      if nodes[k].id in ids {
        var i :| 0 <= i < k && ids[i] == nodes[k].id;
        assert nodes[i].id == nodes[k].id;
        return false;
      }
      ids := ids + [nodes[k].id];
    }
    for k := 0 to |nodes|
      invariant forall i :: 0 <= i < k ==> SoundNode(nodes, nodes[i])
    {
      var one := ValidateReferences(nodes, nodes[k], ids);
      if !one { return false; }
    }
    sound := true;
  }

  function SpecNodes(path: PathSpec): (nodes: seq<Node>)
    ensures |nodes| == |path.effectors|
    ensures forall i :: 0 <= i < |nodes| ==> nodes[i] == Node(path.effectors[i].id, path.effectors[i].conduction)
  {
    seq(|path.effectors|, i requires 0 <= i < |path.effectors| => Node(path.effectors[i].id, path.effectors[i].conduction))
  }

  /** What the constructor of a path demands. */
  ghost predicate ValidPath(path: PathSpec) {
    path.id != "" && path.effectors != [] && SoundGraph(SpecNodes(path))
  }

  // ---------------------------------------------------------------- authored inputs

  const RESERVED_FIELDS := RESERVED_INPUT + {CONFIG, SCHEMA, CONDUCTION, TIMEOUT}

  ghost predicate SoundFields(fields: seq<Field>) {
    && (forall i :: 0 <= i < |fields| ==> fields[i].key != "" && fields[i].key !in RESERVED_FIELDS)
    && (forall i, j :: 0 <= i < j < |fields| ==> fields[i].key != fields[j].key)
  }

  /** `validate_correlation_inputs`. */
  method ValidateInputs(fields: seq<Field>) returns (sound: bool)
    ensures sound <==> SoundFields(fields)
  {
    var seen: seq<string> := [];
    for k := 0 to |fields|
      invariant |seen| == k && forall i :: 0 <= i < k ==> seen[i] == fields[i].key
      invariant SoundFields(fields[..k])
    {
      var key := fields[k].key;
      if key == "" { return false; }
      if key in seen {
        var i :| 0 <= i < k && seen[i] == key;
        assert fields[i].key == fields[k].key;
        return false;
      }
      seen := seen + [key];
      if key in RESERVED_FIELDS { return false; }
      assert fields[..k + 1] == fields[..k] + [fields[k]];
    }
    assert fields[..|fields|] == fields;
    sound := true;
  }

  function FieldMap(fields: seq<Field>): map<string, Json> {
    if fields == [] then map[] else FieldMap(fields[..|fields| - 1])[fields[|fields| - 1].key := fields[|fields| - 1].value]
  }

  lemma {:induction false} FieldMapKeys(fields: seq<Field>)
    ensures forall key :: key in FieldMap(fields) <==> exists i :: 0 <= i < |fields| && fields[i].key == key
  {
    if fields != [] {
      FieldMapKeys(fields[..|fields| - 1]);
      assert fields == fields[..|fields| - 1] + [fields[|fields| - 1]];
    }
  }

  /** Replacing the one field of a key is an update of the map. */
  lemma {:induction false} FieldMapReplace(fields: seq<Field>, i: nat, field: Field)
    requires SoundFields(fields) && i < |fields| && fields[i].key == field.key
    ensures FieldMap(fields[i := field]) == FieldMap(fields)[field.key := field.value]
  {
    var n := |fields| - 1;
    if i == n {
      assert fields[i := field][..n] == fields[..n];
    } else {
      FieldMapReplace(fields[..n], i, field);
      assert fields[i := field][..n] == fields[..n][i := field];
      assert fields[n].key != field.key;
    }
  }

  /** `_effector_input`: the fields of every effector, with its own fields in their place or after them. */
  method EffectorInput(globalFields: seq<Field>, perEffector: map<string, seq<Field>>, effectorId: string) returns (r: Outcome<Json>)
    ensures r.Ok? <==> SoundFields(globalFields) && (effectorId in perEffector ==> SoundFields(perEffector[effectorId]))
    ensures r.Ok? ==> r.value == AuthoredBy(globalFields, perEffector, effectorId)
  {
    var sound := ValidateInputs(globalFields);
    if !sound { return Raise("invalid_input"); }
    var fields := globalFields;
    if effectorId in perEffector {
      var own := perEffector[effectorId];
      sound := ValidateInputs(own);
      if !sound { return Raise("invalid_input"); }
      fields := OverrideAll(fields, own);
    }
    r := Ok(Obj(FieldMap(fields)));
  }

  lemma FieldMapNext(fields: seq<Field>, k: nat)
    requires k < |fields|
    ensures FieldMap(fields[..k + 1]) == FieldMap(fields[..k])[fields[k].key := fields[k].value]
  {
    assert fields[..k + 1][..k] == fields[..k];
  }

  lemma PutRight(m: map<string, Json>, n: map<string, Json>, key: string, value: Json)
    ensures (m + n)[key := value] == m + n[key := value]
  {
  }

  method OverrideAll(globalFields: seq<Field>, own: seq<Field>) returns (fields: seq<Field>)
    requires SoundFields(globalFields) && SoundFields(own)
    ensures SoundFields(fields) && FieldMap(fields) == FieldMap(globalFields) + FieldMap(own)
  {
    fields := globalFields;
    for k := 0 to |own|
      invariant SoundFields(fields) && FieldMap(fields) == FieldMap(globalFields) + FieldMap(own[..k])
    {
      assert own[k].key != "" && own[k].key !in RESERVED_FIELDS;
      FieldMapNext(own, k);
      PutRight(FieldMap(globalFields), FieldMap(own[..k]), own[k].key, own[k].value);
      hide SoundFields, FieldMap, RESERVED_FIELDS;
      fields := Override(fields, own[k]);
    }
    assert own[..|own|] == own;
  }

  /** The own fields of an effector win over the fields of every effector. */
  function AuthoredBy(globalFields: seq<Field>, perEffector: map<string, seq<Field>>, effectorId: string): Json {
    Obj(FieldMap(globalFields) + if effectorId in perEffector then FieldMap(perEffector[effectorId]) else map[])
  }

  method Override(fields: seq<Field>, field: Field) returns (r: seq<Field>)
    requires SoundFields(fields) && field.key != "" && field.key !in RESERVED_FIELDS
    ensures SoundFields(r) && FieldMap(r) == FieldMap(fields)[field.key := field.value]
  {
    for index := 0 to |fields|
      invariant forall i :: 0 <= i < index ==> fields[i].key != field.key
    {
      if fields[index].key == field.key {
        FieldMapReplace(fields, index, field);
        return fields[index := field];
      }
    }
    r := fields + [field];
    assert r[..|fields|] == fields;
  }

  // ---------------------------------------------------------------- one planned process per effector

  /** Overrides name known effectors only, and are well formed. */
  predicate SoundOverrides(path: PathSpec, o: Overrides) {
    && (forall id :: id in o.inputs ==> Declared(SpecNodes(path), id))
    && (forall id :: id in o.configs ==> Declared(SpecNodes(path), id) && o.configs[id].Obj?)
    && (forall id :: id in o.timeouts ==> Declared(SpecNodes(path), id) && o.timeouts[id] >= 0.0)
    && (forall id :: id in o.attempts ==> Declared(SpecNodes(path), id) && o.attempts[id] >= 1)
    && (forall id :: id in o.regulations ==> Declared(SpecNodes(path), id) && o.regulations[id].Obj?)
  }

  function Regulation(e: EffectorSpec, o: Overrides): Json {
    if e.id in o.regulations then o.regulations[e.id] else e.regulation
  }

  function Timeout(e: EffectorSpec, o: Overrides): real {
    if e.id in o.timeouts then o.timeouts[e.id] else e.timeoutSeconds
  }

  /** Regulation's own max_attempts wins over the override, and that over the default. */
  function Attempts(e: EffectorSpec, o: Overrides, maxAttempts: int): Outcome<int> {
    var regulation := Regulation(e, o);
    if regulation.Obj? && "max_attempts" in regulation.fields then
      var limit := regulation.fields["max_attempts"];
      if limit.Int? && limit.whole >= 1 then Ok(limit.whole) else Raise("invalid_max_attempts")
    else Ok(if e.id in o.attempts then o.attempts[e.id] else maxAttempts)
  }

  function Config(e: EffectorSpec, o: Overrides): Outcome<Json> {
    if !e.config.Obj? then Raise("invalid_config")
    else if e.id !in o.configs then Ok(e.config)
    else if !o.configs[e.id].Obj? then Raise("invalid_config")
    else Ok(Obj(e.config.fields + o.configs[e.id].fields))
  }

  function ProcessId(pathId: string, effectorId: string): string {
    pathId + ":" + effectorId
  }

  /** What a row's metadata records of the declaration. */
  function Marker(path: PathSpec, pathId: string, e: EffectorSpec, index: nat, regulation: Json): Json {
    Obj(map["correlation_path_id" := Str(pathId), "correlation_path_spec_id" := Str(path.id), "effector_id" := Str(e.id),
            "capability" := Str(e.capability), "seq" := Int(index), "accumulate_upstream_reactions" := Bool(path.accumulate),
            "regulation" := regulation, "accepted_reaction_kinds" := TextArray(e.acceptedReactionKinds)])
  }

  predicate SoundEffector(e: EffectorSpec, o: Overrides, maxAttempts: int) {
    && Regulation(e, o).Obj? && Timeout(e, o) >= 0.0 && Attempts(e, o, maxAttempts).Ok? && Config(e, o).Ok?
  }

  ghost predicate SoundOwnFields(e: EffectorSpec, o: Overrides) {
    e.id in o.inputs ==> SoundFields(o.inputs[e.id])
  }

  /** The request: everything instantiation is given besides the path. */
  datatype Request = Request(
    runId: string, pathId: string, fields: seq<Field>, maxAttempts: int, priority: int, existing: set<string>, overrides: Overrides)
  {
    function PathId(path: PathSpec): string { if pathId == "" then runId + ":" + path.id else pathId }
  }

  ghost predicate SoundRequest(path: PathSpec, q: Request) {
    && q.runId != "" && q.maxAttempts >= 1 && SoundFields(q.fields) && SoundOverrides(path, q.overrides)
    && (forall i :: 0 <= i < |path.effectors| ==>
          SoundEffector(path.effectors[i], q.overrides, q.maxAttempts) && SoundOwnFields(path.effectors[i], q.overrides))
  }

  /** The planned process of the effector at an index. */
  function Planned(path: PathSpec, q: Request, index: nat): ProcessPlan
    requires index < |path.effectors| && SoundEffector(path.effectors[index], q.overrides, q.maxAttempts)
  {
    var e := path.effectors[index];
    ProcessPlan(ProcessId(q.PathId(path), e.id), q.runId, e.id, index, q.priority, Attempts(e, q.overrides, q.maxAttempts).value,
      Timeout(e, q.overrides), AuthoredBy(q.fields, q.overrides.inputs, e.id), Config(e, q.overrides).value, e.outputSchema,
      e.conduction, e.when, Marker(path, q.PathId(path), e, index, Regulation(e, q.overrides)))
  }

  ghost predicate Instantiated(path: PathSpec, q: Request, plan: Plan) {
    && plan.pathId == q.PathId(path) && plan.runId == q.runId && |plan.processes| == |path.effectors|
    && (forall i :: 0 <= i < |path.effectors| ==>
          SoundEffector(path.effectors[i], q.overrides, q.maxAttempts) && plan.processes[i] == Planned(path, q, i))
    && (plan.replayed <==> forall i :: 0 <= i < |path.effectors| ==> ProcessId(plan.pathId, path.effectors[i].id) in q.existing)
  }

  // ---------------------------------------------------------------- a planned process, told from the request

  ghost predicate HasField(fields: seq<Field>, key: string, value: Json) {
    exists i :: 0 <= i < |fields| && fields[i] == Field(key, value)
  }

  ghost predicate Names(fields: seq<Field>, key: string) {
    exists value :: HasField(fields, key, value)
  }

  /** An effector's own field wins over the field of every effector. */
  ghost predicate HasInput(e: EffectorSpec, q: Request, key: string, value: Json) {
    if e.id in q.overrides.inputs && Names(q.overrides.inputs[e.id], key) then HasField(q.overrides.inputs[e.id], key, value)
    else HasField(q.fields, key, value)
  }

  /** A configured override wins over the declared key. */
  ghost predicate HasSetting(e: EffectorSpec, o: Overrides, key: string, value: Json) {
    if e.id in o.configs && o.configs[e.id].Obj? && key in o.configs[e.id].fields then o.configs[e.id].fields[key] == value
    else e.config.Obj? && key in e.config.fields && e.config.fields[key] == value
  }

  /** The regulation that governs the effector: the override, or what is declared. */
  ghost predicate IsRegulation(e: EffectorSpec, o: Overrides, regulation: Json) {
    && (e.id in o.regulations ==> regulation == o.regulations[e.id])
    && (e.id !in o.regulations ==> regulation == e.regulation)
  }

  /** Its own limit on attempts wins over the override, and that over the default. */
  ghost predicate IsLimit(e: EffectorSpec, q: Request, regulation: Json, attempts: int) {
    if regulation.Obj? && "max_attempts" in regulation.fields then regulation.fields["max_attempts"] == Int(attempts)
    else if e.id in q.overrides.attempts then attempts == q.overrides.attempts[e.id]
    else attempts == q.maxAttempts
  }

  ghost predicate Describes(path: PathSpec, pathId: string, e: EffectorSpec, index: nat, regulation: Json, metadata: Json) {
    && metadata.Obj?
    && metadata.fields.Keys == {"correlation_path_id", "correlation_path_spec_id", "effector_id", "capability", "seq",
                                "accumulate_upstream_reactions", "regulation", "accepted_reaction_kinds"}
    && metadata.fields["correlation_path_id"] == Str(pathId) && metadata.fields["correlation_path_spec_id"] == Str(path.id)
    && metadata.fields["effector_id"] == Str(e.id) && metadata.fields["capability"] == Str(e.capability)
    && metadata.fields["seq"] == Int(index) && metadata.fields["accumulate_upstream_reactions"] == Bool(path.accumulate)
    && metadata.fields["regulation"] == regulation && ListsTexts(metadata.fields["accepted_reaction_kinds"], e.acceptedReactionKinds)
  }

  /** The planned process of the effector at an index, as the path declares it and the request overrides it. */
  ghost predicate AsRequested(path: PathSpec, q: Request, pathId: string, index: nat, item: ProcessPlan)
    requires index < |path.effectors|
  {
    var e, o := path.effectors[index], q.overrides;
    && item.id == pathId + ":" + e.id && item.runId == q.runId && item.effectorId == e.id && item.declarationSeq == index
    && item.priority == q.priority && item.outputSchema == e.outputSchema && item.conduction == e.conduction && item.when == e.when
    && (e.id in o.timeouts ==> item.timeoutSeconds == o.timeouts[e.id])
    && (e.id !in o.timeouts ==> item.timeoutSeconds == e.timeoutSeconds)
    && item.input.Obj? && (forall key, value :: Entry(item.input.fields, key, value) <==> HasInput(e, q, key, value))
    && item.config.Obj? && (forall key, value :: Entry(item.config.fields, key, value) <==> HasSetting(e, o, key, value))
    && exists regulation :: IsRegulation(e, o, regulation) && IsLimit(e, q, regulation, item.maxAttempts)
         && Describes(path, pathId, e, index, regulation, item.metadata)
  }

  ghost predicate IsPathId(path: PathSpec, q: Request, pathId: string) {
    pathId == if q.pathId != "" then q.pathId else q.runId + ":" + path.id
  }

  lemma LastField(front: seq<Field>, last: Field, key: string, value: Json)
    requires SoundFields(front + [last])
    ensures SoundFields(front)
    ensures HasField(front + [last], key, value) <==> HasField(front, key, value) || last == Field(key, value)
    ensures HasField(front, key, value) ==> key != last.key
  {
    var all := front + [last];
    forall i | 0 <= i < |front| ensures all[i] == front[i] && front[i].key != last.key { assert all[|front|] == last; }
    if last == Field(key, value) { assert all[|front|] == last; }
    hide RESERVED_FIELDS;
  }

  /** With distinct keys, the map holds exactly the fields. */
  lemma {:induction false} FieldMapEntries(fields: seq<Field>, key: string, value: Json)
    requires SoundFields(fields)
    ensures Entry(FieldMap(fields), key, value) <==> HasField(fields, key, value)
    decreases |fields|
  {
    if fields != [] {
      var front, last := fields[..|fields| - 1], fields[|fields| - 1];
      assert fields == front + [last] && FieldMap(fields) == FieldMap(front)[last.key := last.value];
      LastField(front, last, key, value);
      hide FieldMap, SoundFields, HasField;
      FieldMapEntries(front, key, value);
    }
  }

  lemma FieldMapNames(fields: seq<Field>, key: string)
    ensures key in FieldMap(fields) <==> Names(fields, key)
  {
    FieldMapKeys(fields);
    if key in FieldMap(fields) {
      var i :| 0 <= i < |fields| && fields[i].key == key;
      assert HasField(fields, key, fields[i].value);
    }
  }

  lemma InputAsRequested(e: EffectorSpec, q: Request, key: string, value: Json)
    requires SoundFields(q.fields) && SoundOwnFields(e, q.overrides)
    ensures Entry(AuthoredBy(q.fields, q.overrides.inputs, e.id).fields, key, value) <==> HasInput(e, q, key, value)
  {
    FieldMapEntries(q.fields, key, value);
    if e.id in q.overrides.inputs {
      FieldMapEntries(q.overrides.inputs[e.id], key, value);
      FieldMapNames(q.overrides.inputs[e.id], key);
    }
    hide SoundFields, FieldMap, Names;
  }

  lemma ConfigAsRequested(e: EffectorSpec, o: Overrides, key: string, value: Json)
    requires Config(e, o).Ok?
    ensures Config(e, o).value.Obj? && (Entry(Config(e, o).value.fields, key, value) <==> HasSetting(e, o, key, value))
  {
  }

  lemma MetadataAsRequested(path: PathSpec, pathId: string, e: EffectorSpec, index: nat, q: Request)
    requires SoundEffector(e, q.overrides, q.maxAttempts)
    ensures var regulation := Regulation(e, q.overrides);
      && IsRegulation(e, q.overrides, regulation) && IsLimit(e, q, regulation, Attempts(e, q.overrides, q.maxAttempts).value)
      && Describes(path, pathId, e, index, regulation, Marker(path, pathId, e, index, regulation))
  {
  }

  /** Planning does what the request asks for. */
  lemma PlannedAsRequested(path: PathSpec, q: Request, index: nat)
    requires index < |path.effectors| && SoundEffector(path.effectors[index], q.overrides, q.maxAttempts)
    requires SoundFields(q.fields) && SoundOwnFields(path.effectors[index], q.overrides)
    ensures IsPathId(path, q, q.PathId(path)) && AsRequested(path, q, q.PathId(path), index, Planned(path, q, index))
  {
    var e, o, item := path.effectors[index], q.overrides, Planned(path, q, index);
    forall key, value ensures Entry(item.input.fields, key, value) <==> HasInput(e, q, key, value) { InputAsRequested(e, q, key, value); }
    forall key, value ensures Entry(item.config.fields, key, value) <==> HasSetting(e, o, key, value) { ConfigAsRequested(e, o, key, value); }
    MetadataAsRequested(path, q.PathId(path), e, index, q);
    hide SoundFields, FieldMap, AuthoredBy, HasInput, HasSetting, Config, Attempts, Regulation, Marker, IsRegulation, IsLimit, Describes;
  }

  ghost predicate PlannedSoFar(path: PathSpec, q: Request, plans: seq<ProcessPlan>) {
    |plans| <= |path.effectors| && forall i :: 0 <= i < |plans| ==>
      SoundEffector(path.effectors[i], q.overrides, q.maxAttempts) && SoundOwnFields(path.effectors[i], q.overrides)
      && plans[i] == Planned(path, q, i)
  }

  /** The planned process of one effector. */
  method PlanEffector(path: PathSpec, q: Request, index: nat) returns (r: Outcome<ProcessPlan>)
    requires index < |path.effectors| && SoundFields(q.fields)
    ensures r.Ok? <==> SoundEffector(path.effectors[index], q.overrides, q.maxAttempts) && SoundOwnFields(path.effectors[index], q.overrides)
    ensures r.Ok? ==> r.value == Planned(path, q, index)
  {
    hide Regulation, Timeout, Attempts, Config, Marker, SoundFields, AuthoredBy;
    var effector := path.effectors[index];
    if !SoundEffector(effector, q.overrides, q.maxAttempts) { return Raise("invalid_effector"); }
    var authored := EffectorInput(q.fields, q.overrides.inputs, effector.id);
    if authored.Raise? { return Raise("invalid_input"); }
    r := Ok(Planned(path, q, index).(input := authored.value));
  }

  /** `instantiate_correlation_path_plan`. */
  method Instantiate(path: PathSpec, q: Request) returns (r: Outcome<Plan>)
    ensures r.Ok? <==> SoundRequest(path, q)
    ensures r.Ok? ==> Instantiated(path, q, r.value)
    ensures r.Ok? ==> IsPathId(path, q, r.value.pathId)
    ensures r.Ok? ==> forall i :: 0 <= i < |path.effectors| ==> AsRequested(path, q, r.value.pathId, i, r.value.processes[i])
  {
    if q.runId == "" { return Raise("no_run"); }
    if q.maxAttempts < 1 { return Raise("invalid_max_attempts"); }
    var sound := ValidateInputs(q.fields);
    if !sound { return Raise("invalid_input"); }
    if !SoundOverrides(path, q.overrides) { return Raise("invalid_override"); }
    var pathId := q.PathId(path);
    var plans: seq<ProcessPlan> := [];
    var allExisting := true;
    for index := 0 to |path.effectors|
      invariant |plans| == index && PlannedSoFar(path, q, plans)
      invariant allExisting <==> forall i :: 0 <= i < index ==> ProcessId(pathId, path.effectors[i].id) in q.existing
    {
      hide SoundFields, SoundOverrides, Planned, SoundEffector, SoundOwnFields, ProcessId;
      if ProcessId(pathId, path.effectors[index].id) !in q.existing { allExisting := false; }
      var planned := PlanEffector(path, q, index);
      if planned.Raise? { return Raise(planned.code); }
      plans := plans + [planned.value];
    }
    forall i | 0 <= i < |path.effectors| ensures AsRequested(path, q, pathId, i, plans[i]) {
      hide AsRequested, SoundFields, SoundOverrides, Planned, SoundEffector, SoundOwnFields;
      PlannedAsRequested(path, q, i);
    }
    r := Ok(Plan(pathId, q.runId, plans, allExisting));
  }

  // ---------------------------------------------------------------- what an instantiated plan promises

  lemma InstantiatedIsDistinct(path: PathSpec, q: Request, plan: Plan)
    requires ValidPath(path) && SoundRequest(path, q) && Instantiated(path, q, plan)
    ensures Distinct(plan)
  {
    hide SoundRequest, SoundEffector, Planned, SoundConduction;
    forall i, j | 0 <= i < j < |plan.processes|
      ensures plan.processes[i].id != plan.processes[j].id && plan.processes[i].effectorId != plan.processes[j].effectorId
    {
      assert SpecNodes(path)[i].id != SpecNodes(path)[j].id;
      PlannedIsSound(path, q, plan, i);
      PlannedIsSound(path, q, plan, j);
      IdsApart(plan.pathId, path.effectors[i].id, path.effectors[j].id);
    }
  }

  /** Every plan made from a valid path can be advanced; it can be persisted exactly when its conditions are sound. */
  lemma InstantiatedIsAdvanceable(path: PathSpec, q: Request, plan: Plan)
    requires ValidPath(path) && SoundRequest(path, q) && Instantiated(path, q, plan)
    ensures Advanceable(plan)
    ensures Persistable(plan) <==> forall item :: item in plan.processes ==> SoundCondition(item)
  {
    InstantiatedIsDistinct(path, q, plan);
    assert plan.runId != "" && plan.pathId != "";
    hide SoundRequest, SoundEffector, Planned, SoundConduction, SoundCondition, Distinct, IdentifiedItem;
    forall item | item in plan.processes ensures IdentifiedItem(plan, item) && SoundConduction(plan, item) && item.maxAttempts >= 1 {
      var i :| 0 <= i < |plan.processes| && plan.processes[i] == item;
      PlannedIsSound(path, q, plan, i);
    }
  }

  lemma IdsApart(pathId: string, left: string, right: string)
    ensures ProcessId(pathId, left) == ProcessId(pathId, right) <==> left == right
  {
    assert ProcessId(pathId, left)[|pathId| + 1..] == left && ProcessId(pathId, right)[|pathId| + 1..] == right;
  }

  lemma PlannedIsSound(path: PathSpec, q: Request, plan: Plan, i: nat)
    requires ValidPath(path) && SoundRequest(path, q) && Instantiated(path, q, plan) && i < |plan.processes|
    ensures plan.processes[i].effectorId == path.effectors[i].id
    ensures plan.processes[i].id == ProcessId(plan.pathId, path.effectors[i].id)
    ensures IdentifiedItem(plan, plan.processes[i]) && SoundConduction(plan, plan.processes[i]) && plan.processes[i].maxAttempts >= 1
  {
    var e := path.effectors[i];
    assert NodesOf(plan) == SpecNodes(path);
    assert SoundNode(SpecNodes(path), SpecNodes(path)[i]);
    assert SoundEffector(e, q.overrides, q.maxAttempts);
  }

  lemma AuthoredIsFree(globalFields: seq<Field>, perEffector: map<string, seq<Field>>, effectorId: string)
    requires SoundFields(globalFields) && (effectorId in perEffector ==> SoundFields(perEffector[effectorId]))
    ensures AuthoredBy(globalFields, perEffector, effectorId).Obj?
    ensures AuthoredBy(globalFields, perEffector, effectorId).fields.Keys !! RESERVED_FIELDS + {""}
  {
    FieldMapKeys(globalFields);
    if effectorId in perEffector { FieldMapKeys(perEffector[effectorId]); }
  }

  lemma MarkerIsFree(path: PathSpec, pathId: string, e: EffectorSpec, index: nat, regulation: Json)
    ensures var marker := Marker(path, pathId, e, index, regulation);
      && marker.Obj? && marker.fields.Keys !! RESERVED_METADATA
      && "seq" in marker.fields && marker.fields["seq"] == Int(index)
      && "effector_id" in marker.fields && marker.fields["effector_id"] == Str(e.id)
  {
    hide TextArray;
    var keys := {"correlation_path_id", "correlation_path_spec_id", "effector_id", "capability", "seq",
                 "accumulate_upstream_reactions", "regulation", "accepted_reaction_kinds"};
    assert Marker(path, pathId, e, index, regulation).fields.Keys == keys;
    assert keys !! RESERVED_METADATA;
  }

  /** A planned process carries what replay and advancement look for: an authored input free of reserved keys,
      metadata that scheduling accepts whenever the schema is well formed, and its own number and effector id. */
  lemma InstantiatedIsSchedulable(b: Boundary, path: PathSpec, q: Request, plan: Plan, i: nat)
    requires SoundRequest(path, q) && Instantiated(path, q, plan) && i < |plan.processes|
    ensures AuthoredInput(plan.processes[i]).Ok?
    ensures var e := path.effectors[i]; MetadataFor(b, plan.processes[i]).Ok? <==> b.wellFormedSchema(e.outputSchema) && e.outputSchema.Obj?
    ensures plan.processes[i].metadata.Obj?
    ensures var fields := plan.processes[i].metadata.fields;
      && "seq" in fields && fields["seq"] == Int(plan.processes[i].declarationSeq)
      && "effector_id" in fields && fields["effector_id"] == Str(plan.processes[i].effectorId)
  {
    var e := path.effectors[i];
    assert SoundEffector(e, q.overrides, q.maxAttempts) && SoundOwnFields(e, q.overrides);
    assert plan.processes[i] == Planned(path, q, i);
    AuthoredIsFree(q.fields, q.overrides.inputs, e.id);
    MarkerIsFree(path, q.PathId(path), e, i, Regulation(e, q.overrides));
    hide AuthoredBy, Marker, Regulation, Attempts, SoundFields, SoundOverrides;
  }

  /** So an instantiated plan describes itself as advancement wants it, when its schemas are objects. */
  lemma InstantiatedDescribesItself(path: PathSpec, q: Request, plan: Plan)
    requires SoundRequest(path, q) && Instantiated(path, q, plan)
    requires forall i :: 0 <= i < |path.effectors| ==> path.effectors[i].outputSchema.Obj?
    ensures SelfDescribed(plan)
  {
    hide SoundRequest, SoundFields, AuthoredBy, Marker, Regulation, Attempts, AuthoredShape;
    forall item | item in plan.processes
      ensures AuthoredShape(item) && item.metadata.Obj?
      ensures "seq" in item.metadata.fields && item.metadata.fields["seq"] == Int(item.declarationSeq)
      ensures "effector_id" in item.metadata.fields && item.metadata.fields["effector_id"] == Str(item.effectorId)
    {
      var i :| 0 <= i < |plan.processes| && plan.processes[i] == item;
      MarkerIsFree(path, q.PathId(path), path.effectors[i], i, Regulation(path.effectors[i], q.overrides));
      PlannedShape(path, q, plan, i);
    }
  }

  lemma PlannedShape(path: PathSpec, q: Request, plan: Plan, i: nat)
    requires SoundRequest(path, q) && Instantiated(path, q, plan) && i < |plan.processes|
    requires path.effectors[i].outputSchema.Obj?
    ensures AuthoredShape(plan.processes[i])
  {
    var e := path.effectors[i];
    assert SoundEffector(e, q.overrides, q.maxAttempts) && SoundOwnFields(e, q.overrides);
    AuthoredIsFree(q.fields, q.overrides.inputs, e.id);
    hide AuthoredBy, Marker, Regulation, Attempts, SoundFields, SoundOverrides;
  }

  /** A row scheduled from an instantiated plan is the row both replay and advancement accept, ever after. */
  lemma InstantiatedRowsMatch(b: Boundary, path: PathSpec, q: Request, plan: Plan, i: nat, row: Row)
    requires ValidPath(path) && SoundRequest(path, q) && Instantiated(path, q, plan) && i < |plan.processes|
    requires FreshRow(b, plan.processes[i]) == Ok(row) && SoundCondition(plan.processes[i])
    ensures SameRow(b, row, plan.processes[i]) == Ok(true) && SameDurableRow(b, row, plan.processes[i]) == Ok(true)
  {
    InstantiatedIsSchedulable(b, path, q, plan, i);
    PlannedIsSound(path, q, plan, i);
    FreshRowMatches(b, plan.processes[i]);
    PersistedRowsAdvance(b, row, plan.processes[i]);
  }
}
