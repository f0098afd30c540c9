/** Correlation plans: one planned process per effector, and the two validators that gate every use. */
module CorrelationPlan {
  import opened Wrappers
  import opened JsonValue
  import opened ConductionGraph

  datatype ProcessPlan = ProcessPlan(
    id: string, runId: string, effectorId: string, declarationSeq: int, priority: int, maxAttempts: int,
    timeoutSeconds: real, input: Json, config: Json, outputSchema: Json, conduction: seq<string>,
    when: Option<Json>, metadata: Json)

  datatype Plan = Plan(pathId: string, runId: string, processes: seq<ProcessPlan>, replayed: bool)

  function NodesOf(plan: Plan): (nodes: seq<Node>)
    ensures |nodes| == |plan.processes|
    ensures forall i :: 0 <= i < |nodes| ==> nodes[i] == Node(plan.processes[i].effectorId, plan.processes[i].conduction)
  {
    seq(|plan.processes|, i requires 0 <= i < |plan.processes| => Node(plan.processes[i].effectorId, plan.processes[i].conduction))
  }

  // ---------------------------------------------------------------- what a valid plan is

  predicate IdentifiedItem(plan: Plan, item: ProcessPlan) {
    && item.runId == plan.runId
    && item.id != "" && item.effectorId != ""
    && plan.pathId + ":" <= item.id
  }

  ghost predicate Distinct(plan: Plan) {
    forall i, j :: 0 <= i < j < |plan.processes| ==>
      plan.processes[i].id != plan.processes[j].id && plan.processes[i].effectorId != plan.processes[j].effectorId
  }

  ghost predicate NoRepeats(s: seq<string>) {
    forall i, j :: 0 <= i < j < |s| ==> s[i] != s[j]
  }

  /** Every upstream is a named, declared, other effector, listed once. */
  ghost predicate SoundConduction(plan: Plan, item: ProcessPlan) {
    && (forall u :: u in item.conduction ==> u != "" && u != item.effectorId && Declared(NodesOf(plan), u))
    && NoRepeats(item.conduction)
  }

  /** A condition compares one scalar of one direct upstream. */
  predicate SoundCondition(item: ProcessPlan) {
    item.when.Some? ==>
      var c := item.when.value;
      && c.Obj?
      && "upstream" in c.fields && c.fields["upstream"].Str? && c.fields["upstream"].text in item.conduction
      && "path" in c.fields && c.fields["path"].Str? && c.fields["path"].text != ""
      && "equals" in c.fields && c.fields["equals"].Scalar()
  }

  ghost predicate Advanceable(plan: Plan) {
    && plan.runId != "" && plan.pathId != "" && plan.processes != []
    && (forall item :: item in plan.processes ==> IdentifiedItem(plan, item) && SoundConduction(plan, item))
    && Distinct(plan)
  }

  ghost predicate Persistable(plan: Plan) {
    && plan.runId != "" && plan.pathId != ""
    && (forall item :: item in plan.processes ==>
          IdentifiedItem(plan, item) && SoundConduction(plan, item) && item.maxAttempts >= 1 && SoundCondition(item))
    && Distinct(plan)
  }

  lemma PersistableIsAdvanceable(plan: Plan)
    requires Persistable(plan) && plan.processes != []
    ensures Advanceable(plan)
  {
  }

  // ---------------------------------------------------------------- the validators

  datatype Fault =
    | NoFault | NoRun | NoPath | NoProcesses
    | ForeignRun(index: nat) | Unnamed(index: nat) | OutsidePath(index: nat) | DuplicateIdentity(index: nat)
    | BadAttempts(index: nat)
    | UnnamedUpstream(index: nat) | SelfUpstream(index: nat) | RepeatedUpstream(index: nat) | UnknownUpstream(index: nat)
    | BadCondition(index: nat)

  /** The effectors and ids seen so far, as the validators collect them. */
  ghost predicate Collected(plan: Plan, k: nat, ids: seq<string>, effectors: seq<string>)
    requires k <= |plan.processes|
  {
    |ids| == |effectors| == k && forall i :: 0 <= i < k ==> ids[i] == plan.processes[i].id && effectors[i] == plan.processes[i].effectorId
  }

  ghost predicate DistinctUpTo(plan: Plan, k: nat)
    requires k <= |plan.processes|
  {
    forall i, j :: 0 <= i < j < k ==>
      plan.processes[i].id != plan.processes[j].id && plan.processes[i].effectorId != plan.processes[j].effectorId
  }

  lemma CollectedDeclares(plan: Plan, ids: seq<string>, effectors: seq<string>, u: string)
    requires Collected(plan, |plan.processes|, ids, effectors)
    ensures u in effectors <==> Declared(NodesOf(plan), u)
  {
    var i := IndexOf(NodesOf(plan), u);
    if i >= 0 { assert effectors[i] == u; }
  }

  /** One effector's upstream list, read in order; the first problem is the one reported. */
  method CheckConduction(plan: Plan, index: nat, effectors: seq<string>, ghost ids: seq<string>) returns (fault: Fault)
    requires index < |plan.processes| && Collected(plan, |plan.processes|, ids, effectors)
    ensures fault.NoFault? <==> SoundConduction(plan, plan.processes[index])
  {
    var item := plan.processes[index];
    for k := 0 to |item.conduction|
      invariant forall j :: 0 <= j < k ==>
        item.conduction[j] != "" && item.conduction[j] != item.effectorId && Declared(NodesOf(plan), item.conduction[j])
      invariant NoRepeats(item.conduction[..k])
    {
      var upstream := item.conduction[k];
      assert upstream in item.conduction;
      if upstream == "" { return UnnamedUpstream(index); }
      if upstream == item.effectorId { return SelfUpstream(index); }
      for prior := 0 to k
        invariant forall j :: 0 <= j < prior ==> item.conduction[j] != upstream
      {
        if item.conduction[prior] == upstream { return RepeatedUpstream(index); }
      }
      CollectedDeclares(plan, ids, effectors, upstream);
      if upstream !in effectors { return UnknownUpstream(index); }
    }
    assert item.conduction[..|item.conduction|] == item.conduction;
    fault := NoFault;
  }

  /** The declaration pass of both validators. */
  method CheckIdentities(plan: Plan, attempts: bool) returns (fault: Fault, ids: seq<string>, effectors: seq<string>)
    ensures fault.NoFault? <==>
      && (forall item :: item in plan.processes ==> IdentifiedItem(plan, item) && (attempts ==> item.maxAttempts >= 1))
      && Distinct(plan)
    ensures fault.NoFault? ==> Collected(plan, |plan.processes|, ids, effectors)
  {
    ids, effectors := [], [];
    for k := 0 to |plan.processes|
      invariant Collected(plan, k, ids, effectors)
      invariant forall i :: 0 <= i < k ==> IdentifiedItem(plan, plan.processes[i]) && (attempts ==> plan.processes[i].maxAttempts >= 1)
      invariant DistinctUpTo(plan, k)
    {
      var item := plan.processes[k];
      assert item in plan.processes;
      if item.runId != plan.runId { return ForeignRun(k), ids, effectors; }
      if item.id == "" || item.effectorId == "" { return Unnamed(k), ids, effectors; }
      if !(plan.pathId + ":" <= item.id) { return OutsidePath(k), ids, effectors; }
      if item.id in ids || item.effectorId in effectors {
        ghost var i :| 0 <= i < k && (ids[i] == item.id || effectors[i] == item.effectorId);
        assert !Distinct(plan);
        return DuplicateIdentity(k), ids, effectors;
      }
      if attempts && item.maxAttempts < 1 { return BadAttempts(k), ids, effectors; }
      ids, effectors := ids + [item.id], effectors + [item.effectorId];
    }
    fault := NoFault;
  }

  /** correlation_advance's `validate_correlation_advance_plan`. */
  method ValidateForAdvance(plan: Plan) returns (fault: Fault)
    ensures fault.NoFault? <==> Advanceable(plan)
  {
    if plan.runId == "" { return NoRun; }
    if plan.pathId == "" { return NoPath; }
    if |plan.processes| == 0 { return NoProcesses; }
    var ids, effectors;
    fault, ids, effectors := CheckIdentities(plan, false);
    if !fault.NoFault? { return; }
    for index := 0 to |plan.processes|
      invariant forall i :: 0 <= i < index ==> SoundConduction(plan, plan.processes[i])
    {
      fault := CheckConduction(plan, index, effectors, ids);
      if !fault.NoFault? {
        assert plan.processes[index] in plan.processes;
        return;
      }
    }
    fault := NoFault;
  }

  /** correlation_persistence's `validate_correlation_persistence_plan`. */
  method ValidateForPersistence(plan: Plan) returns (fault: Fault)
    ensures fault.NoFault? <==> Persistable(plan)
  {
    if plan.runId == "" { return NoRun; }
    if plan.pathId == "" { return NoPath; }
    var ids, effectors;
    fault, ids, effectors := CheckIdentities(plan, true);
    if !fault.NoFault? { return; }
    for index := 0 to |plan.processes|
      invariant forall i :: 0 <= i < index ==> SoundConduction(plan, plan.processes[i]) && SoundCondition(plan.processes[i])
    {
      fault := CheckConduction(plan, index, effectors, ids);
      if fault.NoFault? && !SoundCondition(plan.processes[index]) { fault := BadCondition(index); }
      if !fault.NoFault? {
        assert plan.processes[index] in plan.processes;
        return;
      }
    }
    fault := NoFault;
  }
}
