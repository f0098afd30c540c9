/** Durable scheduling and one-pass readiness (correlation_persistence.mojo). */
module Refresh {
  import opened Wrappers
  import opened JsonValue
  import opened ProcessStatus
  import opened ConductionGraph
  import opened Ancestors
  import opened Readiness
  import opened CorrelationPlan
  import opened Conveyance
  import opened Conduct
  import opened RunJournals
  import opened Confluence
  import opened Settlement
  import opened Matching
  import opened Movement
  import opened Outcomes

  // ---------------------------------------------------------------- merged inputs read from rows

  /** `_conducted_upstream_payload`. */
  function RowPayload(b: Boundary, plan: Plan, rows: Rows, upstream: string): Outcome<Json> {
    var p := ProcessIndex(plan, upstream);
    if p < 0 || plan.processes[p].id !in rows then Raise("unknown_upstream")
    else
      var row, schema := rows[plan.processes[p].id], plan.processes[p].outputSchema;
      if row.status.Failed? || row.status.Cancelled? || row.status.TimedOut? then Ok(AsObject(row.error))
      else if row.status.Skipped? then if row.output.Obj? then Ok(row.output) else Raise("invalid_output")
      else if !row.status.Succeeded? then Raise("invalid_output")
      else if !b.wellFormedSchema(row.outputSchema) || !row.outputSchema.Obj? || row.outputSchema != schema then Raise("invalid_output_schema")
      else AcceptedOutput(b, row.output, schema)
  }

  function RowPayloads(b: Boundary, plan: Plan, rows: Rows, upstreams: seq<string>): Outcome<map<string, Json>> {
    if upstreams == [] then Ok(map[])
    else
      var before :- RowPayloads(b, plan, rows, upstreams[..|upstreams| - 1]);
      var payload :- RowPayload(b, plan, rows, upstreams[|upstreams| - 1]);
      Ok(before[upstreams[|upstreams| - 1] := payload])
  }

  function RowRegulation(plan: Plan, rows: Rows, upstream: string): map<string, Json> {
    var p := ProcessIndex(plan, upstream);
    if p < 0 || plan.processes[p].id !in rows then map[] else RegulationOf(rows[plan.processes[p].id].input)
  }

  function RowInherited(plan: Plan, rows: Rows, upstreams: seq<string>): map<string, Json> {
    if upstreams == [] then map[]
    else RowInherited(plan, rows, upstreams[..|upstreams| - 1]) + RowRegulation(plan, rows, upstreams[|upstreams| - 1])
  }

  function RowReactions(b: Boundary, plan: Plan, rows: Rows, ancestors: seq<string>, allowed: seq<string>): Outcome<seq<Json>> {
    if ancestors == [] then Ok([])
    else
      var before :- RowReactions(b, plan, rows, ancestors[..|ancestors| - 1], allowed);
      var p := ProcessIndex(plan, ancestors[|ancestors| - 1]);
      if p < 0 || plan.processes[p].id !in rows then Ok(before)
      else
        var selected :- b.reactions(rows[plan.processes[p].id].output, allowed);
        Ok(before + selected)
  }

  /** correlation_persistence's `_merged_input`. */
  ghost function RowMergedInput(b: Boundary, item: ProcessPlan, plan: Plan, rows: Rows): Outcome<Json> {
    if !item.input.Obj? then Raise("invalid_input")
    else
      var conduction :- RowPayloads(b, plan, rows, item.conduction);
      var regulation := RowInherited(plan, rows, item.conduction) + RegulationOf(item.metadata);
      if !Accumulates(item.metadata) then Ok(Injected(item.input.fields, conduction, regulation, None))
      else
        var reactions :- RowReactions(b, plan, rows, AncestorOrder(NodesOf(plan), item.effectorId), AcceptedKinds(item.metadata));
        Ok(Injected(item.input.fields, conduction, regulation, Some(reactions)))
  }

  lemma {:induction false} RowPayloadRaiseStays(b: Boundary, plan: Plan, rows: Rows, upstreams: seq<string>, k: nat)
    requires k <= |upstreams| && RowPayloads(b, plan, rows, upstreams[..k]).Raise?
    ensures RowPayloads(b, plan, rows, upstreams) == RowPayloads(b, plan, rows, upstreams[..k])
    decreases |upstreams| - k
  {
    if k < |upstreams| {
      PrefixStep(upstreams, k);
      RowPayloadRaiseStays(b, plan, rows, upstreams, k + 1);
    } else {
      assert upstreams[..k] == upstreams;
    }
  }

  lemma {:induction false} RowReactionRaiseStays(b: Boundary, plan: Plan, rows: Rows, ancestors: seq<string>, allowed: seq<string>, k: nat)
    requires k <= |ancestors| && RowReactions(b, plan, rows, ancestors[..k], allowed).Raise?
    ensures RowReactions(b, plan, rows, ancestors, allowed) == RowReactions(b, plan, rows, ancestors[..k], allowed)
    decreases |ancestors| - k
  {
    if k < |ancestors| {
      PrefixStep(ancestors, k);
      RowReactionRaiseStays(b, plan, rows, ancestors, allowed, k + 1);
    } else {
      assert ancestors[..k] == ancestors;
    }
  }

  method AccumulateRowReactions(b: Boundary, plan: Plan, rows: Rows, ancestors: seq<string>, allowed: seq<string>) returns (r: Outcome<seq<Json>>)
    ensures r == RowReactions(b, plan, rows, ancestors, allowed)
  {
    var accumulated := [];
    for k := 0 to |ancestors|
      invariant RowReactions(b, plan, rows, ancestors[..k], allowed) == Ok(accumulated)
    {
      PrefixStep(ancestors, k);
      var p := FindNode(NodesOf(plan), ancestors[k]);
      if p < 0 || plan.processes[p].id !in rows { continue; }
      var selected := b.reactions(rows[plan.processes[p].id].output, allowed);
      if selected.Raise? {
        RowReactionRaiseStays(b, plan, rows, ancestors, allowed, k + 1);
        return Raise(selected.code);
      }
      accumulated := accumulated + selected.value;
    }
    assert ancestors[..|ancestors|] == ancestors;
    r := Ok(accumulated);
  }

  method MergeRowInput(b: Boundary, item: ProcessPlan, plan: Plan, rows: Rows) returns (r: Outcome<Json>)
    ensures r == RowMergedInput(b, item, plan, rows)
    ensures r.Ok? && Distinct(plan) && Scheduled(plan, rows) ==> MergesRows(b, item, plan, rows, r.value)
  {
    if RowMergedInput(b, item, plan, rows).Ok? && Distinct(plan) && Scheduled(plan, rows) { RowMergedMerges(b, plan, rows, item); }
    hide MergesRows, Distinct, Scheduled;
    if !item.input.Obj? { return Raise("invalid_input"); }
    var upstreams := item.conduction;
    var conduction: map<string, Json>, inherited: map<string, Json> := map[], map[];
    for k := 0 to |upstreams|
      invariant RowPayloads(b, plan, rows, upstreams[..k]) == Ok(conduction)
      invariant RowInherited(plan, rows, upstreams[..k]) == inherited
    {
      PrefixStep(upstreams, k);
      var payload := RowPayload(b, plan, rows, upstreams[k]);
      if payload.Raise? {
        RowPayloadRaiseStays(b, plan, rows, upstreams, k + 1);
        return Raise(payload.code);
      }
      conduction := conduction[upstreams[k] := payload.value];
      inherited := inherited + RowRegulation(plan, rows, upstreams[k]);
    }
    assert upstreams[..|upstreams|] == upstreams;
    var regulation := inherited + RegulationOf(item.metadata);
    if !Accumulates(item.metadata) { return Ok(Injected(item.input.fields, conduction, regulation, None)); }
    var ancestors := AncestorEffectors(NodesOf(plan), item.effectorId);
    var reactions := AccumulateRowReactions(b, plan, rows, ancestors, AcceptedKinds(item.metadata));
    if reactions.Raise? { return Raise(reactions.code); }
    r := Ok(Injected(item.input.fields, conduction, regulation, Some(reactions.value)));
  }

  // ---------------------------------------------------------------- the two merges agree

  lemma SamePayload(b: Boundary, plan: Plan, rows: Rows, upstream: string)
    requires Scheduled(plan, rows) && Settles(plan, CoresOf(rows), upstream)
    requires RowPayload(b, plan, rows, upstream).Ok?
    ensures var s := IndexOf(Nodes(StatesOf(plan, rows)), upstream);
      && s >= 0 && Terminal(StatesOf(plan, rows)[s].status)
      && RegulationOf(StatesOf(plan, rows)[s].input) == RowRegulation(plan, rows, upstream)
    ensures Payload(b, plan, StatesOf(plan, rows), upstream) == RowPayload(b, plan, rows, upstream)
  {
    StatesHavePlanNodes(plan, rows);
    assert plan.processes[ProcessIndex(plan, upstream)] in plan.processes;
  }

  lemma {:induction false} SamePayloads(b: Boundary, plan: Plan, rows: Rows, upstreams: seq<string>)
    requires Scheduled(plan, rows)
    requires forall u :: u in upstreams ==> Settles(plan, CoresOf(rows), u)
    requires RowPayloads(b, plan, rows, upstreams).Ok?
    ensures Finished(StatesOf(plan, rows), upstreams) == Ok(upstreams)
    ensures Payloads(b, plan, StatesOf(plan, rows), upstreams) == RowPayloads(b, plan, rows, upstreams)
    ensures Inherited(StatesOf(plan, rows), upstreams) == RowInherited(plan, rows, upstreams)
    decreases |upstreams|
  {
    hide Payload, RowPayload, RowRegulation, RegulationOf, Scheduled, Settles, CoresOf;
    if upstreams != [] {
      var last := upstreams[|upstreams| - 1];
      SamePayload(b, plan, rows, last);
      SamePayloads(b, plan, rows, upstreams[..|upstreams| - 1]);
      assert upstreams[..|upstreams| - 1] + [last] == upstreams;
    }
  }

  /** For a released process the input refresh merges is, but for accumulated reactions, what its direct upstreams
      determine for advancement. */
  lemma RowMergeIsDirect(b: Boundary, plan: Plan, rows: Rows, item: ProcessPlan)
    requires Scheduled(plan, rows) && RowMergedInput(b, item, plan, rows).Ok?
    requires forall u :: u in item.conduction ==> Settles(plan, CoresOf(rows), u)
    ensures DirectInput(b, item, plan, StatesOf(plan, rows)).Ok?
    ensures SameDirect(item, RowMergedInput(b, item, plan, rows).value, DirectInput(b, item, plan, StatesOf(plan, rows)).value)
  {
    SamePayloads(b, plan, rows, item.conduction);
  }

  /** Only finished upstreams have a payload. */
  lemma {:induction false} PayloadsSettle(b: Boundary, plan: Plan, rows: Rows, upstreams: seq<string>)
    requires RowPayloads(b, plan, rows, upstreams).Ok?
    ensures forall u :: u in upstreams ==> Settles(plan, CoresOf(rows), u)
    decreases |upstreams|
  {
    if upstreams != [] {
      var last := |upstreams| - 1;
      PayloadsSettle(b, plan, rows, upstreams[..last]);
      assert RowPayload(b, plan, rows, upstreams[last]).Ok?;
      assert upstreams == upstreams[..last] + [upstreams[last]];
    }
  }

  lemma {:induction false} RowReactionParts(b: Boundary, plan: Plan, rows: Rows, outputs: seq<Json>, ancestors: seq<string>, kinds: seq<string>) returns (parts: seq<seq<Json>>)
    requires Distinct(plan) && RowOutputs(plan, rows, outputs) && RowReactions(b, plan, rows, ancestors, kinds).Ok?
    ensures PartsOf(b, NodesOf(plan), outputs, ancestors, kinds, parts)
    ensures Flat(parts) == RowReactions(b, plan, rows, ancestors, kinds).value
    decreases |ancestors|
  {
    if ancestors == [] {
      parts := [];
    } else {
      var last := |ancestors| - 1;
      var before := RowReactionParts(b, plan, rows, outputs, ancestors[..last], kinds);
      var p := ProcessIndex(plan, ancestors[last]);
      if p >= 0 { assert ShowsOutput(plan.processes[p], rows, outputs[p]); }
      var part := if p < 0 then [] else b.reactions(outputs[p], kinds).value;
      parts := before + [part];
      assert parts[..|parts| - 1] == before;
      PartsExtend(b, NodesOf(plan), outputs, ancestors, kinds, before, part);
    }
  }

  /** What refresh merges holds what the upstreams conduct and pass on, read from their rows. */
  lemma RowMergedMerges(b: Boundary, plan: Plan, rows: Rows, item: ProcessPlan)
    requires Distinct(plan) && Scheduled(plan, rows) && RowMergedInput(b, item, plan, rows).Ok?
    ensures MergesRows(b, item, plan, rows, RowMergedInput(b, item, plan, rows).value)
  {
    var input, states := RowMergedInput(b, item, plan, rows).value, StatesOf(plan, rows);
    PayloadsSettle(b, plan, rows, item.conduction);
    RowMergeIsDirect(b, plan, rows, item);
    StatesAreDistinct(plan, rows);
    DirectMerges(b, item, plan, states, input);
    StatesShow(plan, rows);
    forall u | u in item.conduction ensures DoneUpstream(plan, rows, u) { SettlesIsDone(plan, rows, u); }
    RowMergedGathers(b, plan, rows, item);
    hide MergesDirect, Gathers, Shows;
  }

  lemma RowMergedGathers(b: Boundary, plan: Plan, rows: Rows, item: ProcessPlan)
    requires Distinct(plan) && Scheduled(plan, rows) && RowMergedInput(b, item, plan, rows).Ok?
    ensures var input := RowMergedInput(b, item, plan, rows).value;
      input.Obj? && exists outputs :: RowOutputs(plan, rows, outputs) && Gathers(b, item, plan, NodesOf(plan), outputs, input.fields)
  {
    var input := RowMergedInput(b, item, plan, rows).value;
    var outputs := seq(|plan.processes|, i requires 0 <= i < |plan.processes| => rows[plan.processes[i].id].output);
    forall i | 0 <= i < |plan.processes| ensures ShowsOutput(plan.processes[i], rows, outputs[i]) {}
    if Collects(item.metadata) {
      var kinds, ancestors := AcceptedKinds(item.metadata), AncestorOrder(NodesOf(plan), item.effectorId);
      KindsAreAdmitted(item.metadata);
      var parts := RowReactionParts(b, plan, rows, outputs, ancestors, kinds);
      assert input.fields["upstream_reactions"] == Arr(Flat(parts));
    }
    assert RowOutputs(plan, rows, outputs) && Gathers(b, item, plan, NodesOf(plan), outputs, input.fields);
  }

  /** For a released process the input merged by advancement and the one merged by refresh carry the same
      authored keys, the same `conduction` and the same `regulation`. */
  lemma MergesAgree(b: Boundary, plan: Plan, rows: Rows, i: nat)
    requires Scheduled(plan, rows) && i < |plan.processes| && Released(plan, CoresOf(rows), i)
    requires RowMergedInput(b, plan.processes[i], plan, rows).Ok?
    requires MergedInput(b, plan.processes[i], plan, StatesOf(plan, rows)).Ok?
    ensures SameDirect(plan.processes[i], MergedInput(b, plan.processes[i], plan, StatesOf(plan, rows)).value,
                       RowMergedInput(b, plan.processes[i], plan, rows).value)
  {
    RowMergeIsDirect(b, plan, rows, plan.processes[i]);
    MergedIsDirect(b, plan.processes[i], plan, StatesOf(plan, rows));
  }

  // ---------------------------------------------------------------- refresh

  datatype RefreshResult = Refreshed | Rejected(fault: Fault) | Halted(code: string)

  /** The row of a released process after a refresh. */
  ghost predicate RefreshedRow(b: Boundary, plan: Plan, s: Rows, t: Rows, i: nat)
    requires i < |plan.processes|
  {
    var item := plan.processes[i];
    && item.id in s && item.id in t && item.when.None? && RowMergedInput(b, item, plan, s).Ok?
    && t[item.id] == s[item.id].(status := Ready, input := RowMergedInput(b, item, plan, s).value)
  }

  /** Exactly the released processes are readied, with their merged inputs; no other row changes. */
  ghost predicate RefreshedRows(b: Boundary, plan: Plan, s: Rows, t: Rows) {
    && s.Keys == t.Keys
    && (forall i :: 0 <= i < |plan.processes| && Released(plan, CoresOf(s), i) ==> RefreshedRow(b, plan, s, t, i))
    && (forall id :: id in s && t[id] != s[id] ==> exists i :: 0 <= i < |plan.processes| && plan.processes[i].id == id && Released(plan, CoresOf(s), i))
  }

  /** Every released process can be readied by a refresh: it has no condition, and its input can be merged. */
  ghost predicate RefreshSound(b: Boundary, plan: Plan, rows: Rows) {
    forall i :: 0 <= i < |plan.processes| && Released(plan, CoresOf(rows), i) ==>
      plan.processes[i].when.None? && RowMergedInput(b, plan.processes[i], plan, rows).Ok?
  }

  method UpstreamsDone(plan: Plan, rows: Rows, item: ProcessPlan) returns (r: Outcome<bool>)
    ensures r.Ok? && r.value ==> forall u :: u in item.conduction ==> Settles(plan, CoresOf(rows), u)
    ensures r.Ok? && !r.value ==> exists u :: u in item.conduction && !Settles(plan, CoresOf(rows), u)
    ensures r.Raise? && SoundConduction(plan, item) ==> !Scheduled(plan, rows)
  {
    for k := 0 to |item.conduction|
      invariant forall l :: 0 <= l < k ==> Settles(plan, CoresOf(rows), item.conduction[l])
    {
      var p := FindNode(NodesOf(plan), item.conduction[k]);
      if p < 0 || plan.processes[p].id !in rows {
        assert item.conduction[k] in item.conduction;
        if p >= 0 { assert plan.processes[p] in plan.processes; }
        return Raise("unknown_path");
      }
      if !Terminal(rows[plan.processes[p].id].status) {
        assert !Settles(plan, CoresOf(rows), item.conduction[k]);
        return Ok(false);
      }
    }
    r := Ok(true);
  }

  ghost predicate ReleasedBelow(plan: Plan, c: Cores, k: nat, id: string)
    requires k <= |plan.processes|
  {
    exists i :: 0 <= i < k && plan.processes[i].id == id && Released(plan, c, i)
  }

  /** Candidates among the first `k` processes: the released ones, with their merged inputs. */
  ghost predicate Candidates(b: Boundary, plan: Plan, rows: Rows, k: nat, updates: map<string, Json>)
    requires k <= |plan.processes|
  {
    && (forall i :: 0 <= i < k && Released(plan, CoresOf(rows), i) ==>
          plan.processes[i].when.None? && plan.processes[i].id in updates
          && RowMergedInput(b, plan.processes[i], plan, rows) == Ok(updates[plan.processes[i].id]))
    && (forall id :: id in updates ==> ReleasedBelow(plan, CoresOf(rows), k, id))
  }

  /** One process of the pass: the input it is readied with when it is released, or nothing. */
  method Candidate(b: Boundary, plan: Plan, rows: Rows, k: nat) returns (r: Outcome<Option<Json>>)
    requires k < |plan.processes| && plan.processes[k].id in rows && SoundConduction(plan, plan.processes[k])
    ensures r.Ok? && r.value.Some? ==> Released(plan, CoresOf(rows), k) && plan.processes[k].when.None?
    ensures r.Ok? && r.value.Some? ==> RowMergedInput(b, plan.processes[k], plan, rows) == Ok(r.value.value)
    ensures r.Ok? && r.value.None? ==> !Released(plan, CoresOf(rows), k)
    ensures r.Raise? ==> !Scheduled(plan, rows) || !RefreshSound(b, plan, rows)
  {
    hide RowMergedInput, Scheduled, SoundConduction;
    var item := plan.processes[k];
    if !rows[item.id].status.Pending? { return Ok(None); }
    var done := UpstreamsDone(plan, rows, item);
    if done.Raise? { return Raise(done.code); }
    if !done.value { return Ok(None); }
    assert Released(plan, CoresOf(rows), k);
    if item.when.Some? { return Raise("conditional_requires_advance"); }
    var merged := MergeRowInput(b, item, plan, rows);
    if merged.Raise? { return Raise(merged.code); }
    r := Ok(Some(merged.value));
  }

  method CollectCandidates(b: Boundary, plan: Plan, rows: Rows) returns (r: Outcome<map<string, Json>>)
    requires Distinct(plan) && forall item :: item in plan.processes ==> SoundConduction(plan, item)
    ensures r.Ok? ==> Candidates(b, plan, rows, |plan.processes|, r.value)
    ensures r.Ok? <==> Scheduled(plan, rows) && RefreshSound(b, plan, rows)
  {
    var updates: map<string, Json> := map[];
    for k := 0 to |plan.processes|
      invariant forall i :: 0 <= i < k ==> plan.processes[i].id in rows
      invariant Candidates(b, plan, rows, k, updates)
    {
      hide RefreshSound, Released, RowMergedInput, Candidates, SoundConduction, Distinct, CoresOf;
      var item := plan.processes[k];
      assert item in plan.processes;
      if item.id !in rows { return Raise("unknown_path"); }
      ghost var before := updates;
      var candidate := Candidate(b, plan, rows, k);
      if candidate.Raise? { return Raise(candidate.code); }
      if candidate.value.Some? { updates := updates[item.id := candidate.value.value]; }
      CandidatesNext(b, plan, rows, k, before, updates);
    }
    r := Ok(updates);
  }

  lemma CandidatesNext(b: Boundary, plan: Plan, rows: Rows, k: nat, before: map<string, Json>, updates: map<string, Json>)
    requires Distinct(plan) && k < |plan.processes| && Candidates(b, plan, rows, k, before)
    requires Released(plan, CoresOf(rows), k) ==>
      && plan.processes[k].when.None? && RowMergedInput(b, plan.processes[k], plan, rows).Ok?
      && updates == before[plan.processes[k].id := RowMergedInput(b, plan.processes[k], plan, rows).value]
    requires !Released(plan, CoresOf(rows), k) ==> updates == before
    ensures Candidates(b, plan, rows, k + 1, updates)
  {
    hide Released, RowMergedInput;
    assert forall i :: 0 <= i < k ==> plan.processes[i].id != plan.processes[k].id;
    forall id | ReleasedBelow(plan, CoresOf(rows), k, id) ensures ReleasedBelow(plan, CoresOf(rows), k + 1, id) {
      var i :| 0 <= i < k && plan.processes[i].id == id && Released(plan, CoresOf(rows), i);
      assert i < k + 1;
    }
  }

  /** `_validate_plan`'s second half. */
  ghost predicate Authored(b: Boundary, plan: Plan) {
    forall item :: item in plan.processes ==> AuthoredInput(item).Ok? && MetadataFor(b, item).Ok?
  }

  method ValidatePlan(b: Boundary, plan: Plan) returns (r: RefreshResult)
    ensures r.Refreshed? <==> Persistable(plan) && Authored(b, plan)
    ensures r.Rejected? <==> !Persistable(plan)
  {
    var fault := ValidateForPersistence(plan);
    if !fault.NoFault? { return Rejected(fault); }
    for k := 0 to |plan.processes|
      invariant forall i :: 0 <= i < k ==> AuthoredInput(plan.processes[i]).Ok? && MetadataFor(b, plan.processes[i]).Ok?
    {
      assert plan.processes[k] in plan.processes;
      if AuthoredInput(plan.processes[k]).Raise? { return Halted("invalid_input"); }
      if MetadataFor(b, plan.processes[k]).Raise? { return Halted("invalid_metadata"); }
    }
    r := Refreshed;
  }

  /** correlation_persistence's `refresh_correlation_readiness`: one pass, one transaction. */
  method RefreshReadiness(b: Boundary, plan: Plan, j: RunJournal) returns (r: RefreshResult)
    modifies j`rows
    ensures r.Rejected? <==> !Persistable(plan)
    ensures r.Refreshed? <==> Persistable(plan) && Authored(b, plan) && Scheduled(plan, old(j.rows)) && RefreshSound(b, plan, old(j.rows))
    ensures r.Refreshed? ==> RefreshedRows(b, plan, old(j.rows), j.rows)
    ensures r.Refreshed? ==> DecidedRows(b, plan, old(j.rows), j.rows) && NoneDue(plan, j.rows)
    ensures r.Refreshed? ==> ReadiedFromRows(b, plan, old(j.rows), j.rows)
    ensures !r.Refreshed? ==> j.rows == old(j.rows)
  {
    r := ValidatePlan(b, plan);
    if !r.Refreshed? { return; }
    hide RefreshSound, Authored;
    var collected := CollectCandidates(b, plan, j.rows);
    if collected.Raise? { return Halted(collected.code); }
    var updates := collected.value;
    ghost var s := j.rows;
    CandidatesArePending(b, plan, s, updates);
    j.rows := map id | id in j.rows ::
      if id in updates && j.rows[id].status.Pending? then j.rows[id].(status := Ready, input := updates[id]) else j.rows[id];
    CandidatesRefresh(b, plan, s, j.rows, updates);
    RefreshDecides(b, plan, s, j.rows);
    RefreshReadiesFromRows(b, plan, s, j.rows);
  }

  lemma CandidatesArePending(b: Boundary, plan: Plan, rows: Rows, updates: map<string, Json>)
    requires Candidates(b, plan, rows, |plan.processes|, updates)
    ensures forall id :: id in updates ==> id in rows && rows[id].status.Pending?
  {
  }

  lemma CandidatesRefresh(b: Boundary, plan: Plan, s: Rows, t: Rows, updates: map<string, Json>)
    requires Candidates(b, plan, s, |plan.processes|, updates)
    requires t == map id | id in s :: if id in updates && s[id].status.Pending? then s[id].(status := Ready, input := updates[id]) else s[id]
    ensures RefreshedRows(b, plan, s, t)
  {
  }

  // ---------------------------------------------------------------- refresh and advance agree

  /** Cores of `s` with the first `k` processes readied when released. */
  ghost function ReadiedCores(plan: Plan, c: Cores, k: nat): Cores
    requires k <= |plan.processes|
  {
    if k == 0 then c
    else
      var before := ReadiedCores(plan, c, k - 1);
      if Released(plan, c, k - 1) && plan.processes[k - 1].id in before
      then before[plan.processes[k - 1].id := c[plan.processes[k - 1].id].(status := Ready)] else before
  }

  lemma {:induction false} ReadiedCoresAt(plan: Plan, c: Cores, k: nat)
    requires Distinct(plan) && k <= |plan.processes|
    ensures ReadiedCores(plan, c, k).Keys == c.Keys
    ensures forall id :: id in c ==> (ReadiedCores(plan, c, k)[id] ==
      if ReleasedBelow(plan, c, k, id) then c[id].(status := Ready) else c[id])
  {
    hide Released;
    if k > 0 {
      ReadiedCoresAt(plan, c, k - 1);
      forall id | id in c ensures ReleasedBelow(plan, c, k, id) <==>
        ReleasedBelow(plan, c, k - 1, id) || (plan.processes[k - 1].id == id && Released(plan, c, k - 1))
      {
        if ReleasedBelow(plan, c, k, id) {
          var i :| 0 <= i < k && plan.processes[i].id == id && Released(plan, c, i);
          assert i == k - 1 || ReleasedBelow(plan, c, k - 1, id);
        }
      }
    }
  }

  lemma {:induction false} ReadiedCoresReached(b: Boundary, plan: Plan, c: Cores, k: nat)
    requires Distinct(plan) && k <= |plan.processes|
    requires forall i :: 0 <= i < |plan.processes| && Released(plan, c, i) ==> plan.processes[i].when.None?
    ensures Reached(b, plan, c, ReadiedCores(plan, c, k)) && Frozen(c, ReadiedCores(plan, c, k))
    decreases k
  {
    hide Reached;
    ReadiedCoresAt(plan, c, k);
    if k == 0 {
      ReachedSelf(b, plan, c);
    } else {
      ReadiedCoresReached(b, plan, c, k - 1);
      var before, now, item := ReadiedCores(plan, c, k - 1), ReadiedCores(plan, c, k), plan.processes[k - 1];
      if Released(plan, c, k - 1) {
        ReadiedCoresAt(plan, c, k - 1);
        assert !ReleasedBelow(plan, c, k - 1, item.id);
        assert before[item.id] == c[item.id];
        StillReleased(b, plan, c, before, k - 1);
        assert Step(b, plan, before, now, k - 1);
        ReachedThen(b, plan, c, before, now, k - 1);
      }
    }
  }

  lemma RefreshKeeps(b: Boundary, plan: Plan, s: Rows, t: Rows)
    requires RefreshedRows(b, plan, s, t)
    ensures KeptRows(s, t)
  {
    forall id | id in s ensures KeptRow(s[id], t[id]) {
      if t[id] != s[id] {
        var i :| 0 <= i < |plan.processes| && plan.processes[i].id == id && Released(plan, CoresOf(s), i);
        assert RefreshedRow(b, plan, s, t, i);
      }
    }
  }

  lemma RefreshedIsDecided(b: Boundary, plan: Plan, s: Rows, t: Rows, i: nat)
    requires Distinct(plan) && Scheduled(plan, s) && RefreshedRows(b, plan, s, t) && i < |plan.processes| && Released(plan, CoresOf(s), i)
    ensures plan.processes[i].id in s && plan.processes[i].id in t && DecidedRow(b, plan, s, t, plan.processes[i])
  {
    var item, states := plan.processes[i], StatesOf(plan, t);
    assert RefreshedRow(b, plan, s, t, i);
    RefreshKeeps(b, plan, s, t);
    KeptUpstreams(plan, s, t, i);
    UpstreamsFinishedIsAllDone(plan, t, i);
    RowMergeIsDirect(b, plan, s, item);
    DirectStays(b, plan, s, t, i);
    DecisionAnswers(b, plan, t, i);
    hide Released, RefreshedRows, KeptRows, AnswersCondition, AllDone, Shows, DirectInput, SameDirect, UpstreamsFinished, RowMergedInput, MergesDirect;
    DirectMerges(b, item, plan, states, t[item.id].input);
    AnsweredIsDecided(b, plan, s, t, item, states, true);
  }

  lemma KeptUpstreams(plan: Plan, s: Rows, t: Rows, i: nat)
    requires i < |plan.processes| && KeptRows(s, t) && Released(plan, CoresOf(s), i)
    ensures UpstreamsFinished(plan, CoresOf(s), i) && UpstreamsFinished(plan, CoresOf(t), i)
  {
    forall u | u in plan.processes[i].conduction ensures Settles(plan, CoresOf(t), u) {
      assert Settles(plan, CoresOf(s), u);
      var id := plan.processes[ProcessIndex(plan, u)].id;
      assert KeptRow(s[id], t[id]);
    }
  }

  /** What was readied carries the input its finished upstreams determine in `s`, accumulated reactions included. */
  ghost predicate ReadiedFromRows(b: Boundary, plan: Plan, s: Rows, t: Rows) {
    forall item :: item in plan.processes && item.id in s && item.id in t && s[item.id].status.Pending? && t[item.id].status.Ready?
      ==> MergesRows(b, item, plan, s, t[item.id].input)
  }

  lemma RefreshReadiesFromRows(b: Boundary, plan: Plan, s: Rows, t: Rows)
    requires Distinct(plan) && Scheduled(plan, s) && RefreshedRows(b, plan, s, t)
    ensures ReadiedFromRows(b, plan, s, t)
  {
    hide MergesRows, RowMergedInput, Released;
    forall item | item in plan.processes && item.id in s && item.id in t && s[item.id].status.Pending? && t[item.id].status.Ready?
      ensures MergesRows(b, item, plan, s, t[item.id].input)
    {
      var i :| 0 <= i < |plan.processes| && plan.processes[i].id == item.id && Released(plan, CoresOf(s), i);
      var k :| 0 <= k < |plan.processes| && plan.processes[k] == item;
      assert i == k && RefreshedRow(b, plan, s, t, i);
      RowMergedMerges(b, plan, s, item);
    }
  }

  /** Whatever a refresh readied, its upstreams had finished, and afterwards nobody is due. */
  lemma RefreshDecides(b: Boundary, plan: Plan, s: Rows, t: Rows)
    requires Distinct(plan) && Scheduled(plan, s) && RefreshedRows(b, plan, s, t)
    ensures DecidedRows(b, plan, s, t) && NoneDue(plan, t)
  {
    RefreshIsQuiescent(b, plan, s, t);
    forall item | item in plan.processes && item.id in s && item.id in t && s[item.id].status.Pending? && !t[item.id].status.Pending?
      ensures DecidedRow(b, plan, s, t, item)
    {
      var i :| 0 <= i < |plan.processes| && plan.processes[i].id == item.id && Released(plan, CoresOf(s), i);
      var k :| 0 <= k < |plan.processes| && plan.processes[k] == item;
      assert i == k;
      RefreshedIsDecided(b, plan, s, t, i);
    }
    NothingReleasedNoneDue(plan, t);
  }

  /** A refresh is a run of single ready steps that leaves nothing released. */
  lemma RefreshIsQuiescent(b: Boundary, plan: Plan, s: Rows, t: Rows)
    requires Distinct(plan) && RefreshedRows(b, plan, s, t)
    ensures Reached(b, plan, CoresOf(s), CoresOf(t)) && Quiescent(b, plan, CoresOf(t))
    ensures forall i :: 0 <= i < |plan.processes| ==> !Released(plan, CoresOf(t), i)
  {
    var c, d := CoresOf(s), ReadiedCores(plan, CoresOf(s), |plan.processes|);
    ReadiedCoresReached(b, plan, c, |plan.processes|);
    ReadiedCoresAt(plan, c, |plan.processes|);
    forall id | id in s ensures CoresOf(t)[id] == d[id] {
      if ReleasedBelow(plan, c, |plan.processes|, id) {
        var i :| 0 <= i < |plan.processes| && plan.processes[i].id == id && Released(plan, c, i);
        assert RefreshedRow(b, plan, s, t, i);
      } else {
        assert t[id] == s[id];
      }
    }
    assert CoresOf(t) == d;
    forall i | 0 <= i < |plan.processes| && Released(plan, d, i) ensures false {
      RefreshReleasesNothing(plan, c, d, i);
    }
  }

  lemma RefreshReleasesNothing(plan: Plan, c: Cores, d: Cores, i: nat)
    requires i < |plan.processes| && c.Keys == d.Keys && Released(plan, d, i)
    requires forall id :: id in c ==> (d[id] == c[id] || (d[id] == c[id].(status := Ready)))
    ensures Released(plan, c, i) && d[plan.processes[i].id] == c[plan.processes[i].id]
  {
    forall u | u in plan.processes[i].conduction ensures Settles(plan, c, u) {
      assert Settles(plan, d, u);
    }
  }

  /** One refresh that readies what it can and a whole advancement of the same rows leave the same statuses, outputs and
      errors, and ready each process with the same authored keys, `conduction` and `regulation`. */
  lemma RefreshAgreesWithAdvance(b: Boundary, plan: Plan, s: Store, advanced: Store, refreshed: Rows)
    requires Advanceable(plan) && Scheduled(plan, s.rows)
    requires Progress(b, plan, s, advanced) && forall i :: 0 <= i < |plan.processes| ==> !Released(plan, CoresOf(advanced.rows), i)
    requires RefreshedRows(b, plan, s.rows, refreshed)
    ensures CoresOf(advanced.rows) == CoresOf(refreshed)
    ensures forall i :: 0 <= i < |plan.processes| && Released(plan, CoresOf(s.rows), i) ==> SameInjections(plan, advanced.rows, refreshed, i)
  {
    RefreshIsQuiescent(b, plan, s.rows, refreshed);
    Confluent(b, plan, CoresOf(s.rows), CoresOf(advanced.rows), CoresOf(refreshed));
    hide Distinct, Advanceable, SameDirect, DirectInput, RowMergedInput, Reached, Quiescent;
    forall i | 0 <= i < |plan.processes| && Released(plan, CoresOf(s.rows), i) ensures SameInjections(plan, advanced.rows, refreshed, i) {
      var item := plan.processes[i];
      assert item in plan.processes;
      assert RefreshedRow(b, plan, s.rows, refreshed, i);
      assert CoresOf(advanced.rows)[item.id] == CoresOf(refreshed)[item.id];
      assert UpstreamsFinished(plan, CoresOf(s.rows), i);
      DirectStays(b, plan, s.rows, advanced.rows, i);
      assert DirectlyMerged(b, plan, advanced.rows, item);
      RowMergeIsDirect(b, plan, s.rows, item);
      SameDirectEuclidean(item, advanced.rows[item.id].input, refreshed[item.id].input, DirectInput(b, item, plan, StatesOf(plan, s.rows)).value);
    }
  }

  lemma SameDirectEuclidean(item: ProcessPlan, x: Json, y: Json, z: Json)
    requires SameDirect(item, x, z) && SameDirect(item, y, z)
    ensures SameDirect(item, x, y)
  {
  }

  ghost predicate SameInjections(plan: Plan, s: Rows, t: Rows, i: nat)
    requires i < |plan.processes|
  {
    var item := plan.processes[i];
    item.id in s && item.id in t && SameDirect(item, s[item.id].input, t[item.id].input)
  }

  // ---------------------------------------------------------------- scheduling

  datatype PersistResult =
    | Persisted(replayed: bool)
    | InvalidPlan(fault: Fault)
    | Conflict(id: string)
    | Stopped(code: string)

  /** The missing rows of the plan are scheduled, the others left alone. */
  ghost predicate ScheduledRows(b: Boundary, plan: Plan, s: Rows, t: Rows) {
    && t.Keys == s.Keys + (set item | item in plan.processes :: item.id)
    && (forall id :: id in s ==> t[id] == s[id])
    && (forall item :: item in plan.processes && item.id !in s ==> FreshRow(b, item) == Ok(t[item.id]))
  }

  ghost predicate RowsMatch(b: Boundary, plan: Plan, rows: Rows) {
    forall item :: item in plan.processes && item.id in rows ==> SameRow(b, rows[item.id], item) == Ok(true)
  }

  /** When persisting completes: the plan is valid, the rows there are match it, and the rows with the missing ones
      scheduled can be refreshed. */
  ghost predicate Persists(b: Boundary, plan: Plan, rows: Rows) {
    && Persistable(plan) && Authored(b, plan) && RowsMatch(b, plan, rows)
    && forall scheduled :: ScheduledRows(b, plan, rows, scheduled) ==> RefreshSound(b, plan, scheduled)
  }

  /** Scheduling the missing rows has one outcome. */
  lemma ScheduledRowsUnique(b: Boundary, plan: Plan, s: Rows, t: Rows, u: Rows)
    requires ScheduledRows(b, plan, s, t) && ScheduledRows(b, plan, s, u)
    ensures t == u
  {
    hide FreshRow;
    forall id | id in t ensures id in u && t[id] == u[id] {
      if id !in s {
        var item :| item in plan.processes && item.id == id;
        assert FreshRow(b, item) == Ok(t[id]) && FreshRow(b, item) == Ok(u[id]);
      }
    }
  }

  /** Every row that was missing is there and fresh, and the others are as they were. */
  ghost predicate FreshRows(plan: Plan, s: Rows, t: Rows) {
    && (forall id :: id in s ==> id in t && t[id] == s[id])
    && forall item :: item in plan.processes && item.id !in s ==> item.id in t && FreshFor(item, t[item.id])
  }

  lemma ScheduledIsFresh(b: Boundary, plan: Plan, s: Rows, t: Rows)
    requires ScheduledRows(b, plan, s, t)
    ensures FreshRows(plan, s, t)
  {
    hide FreshRow, FreshFor;
    forall item | item in plan.processes && item.id !in s ensures FreshFor(item, t[item.id]) {
      FreshRowIsFresh(b, item, t[item.id]);
    }
  }

  lemma ScheduledRowsMatch(b: Boundary, plan: Plan, s: Rows, t: Rows)
    requires Authored(b, plan) && RowsMatch(b, plan, s) && ScheduledRows(b, plan, s, t)
    ensures RowsMatch(b, plan, t)
  {
    forall item | item in plan.processes ensures SameRow(b, t[item.id], item) == Ok(true) {
      if item.id !in s { FreshRowMatches(b, item); }
    }
  }

  method ScheduleMissing(b: Boundary, plan: Plan, rows: Rows) returns (scheduled: Rows)
    requires Distinct(plan) && Authored(b, plan)
    ensures ScheduledRows(b, plan, rows, scheduled)
  {
    hide SameRow, MetadataFor, AuthoredInput, FreshRow;
    scheduled := rows;
    for k := 0 to |plan.processes|
      invariant scheduled.Keys == rows.Keys + (set item | item in plan.processes[..k] :: item.id)
      invariant forall id :: id in rows ==> scheduled[id] == rows[id]
      invariant forall item :: item in plan.processes[..k] && item.id !in rows ==> FreshRow(b, item) == Ok(scheduled[item.id])
    {
      var item := plan.processes[k];
      assert item in plan.processes;
      assert plan.processes[..k + 1] == plan.processes[..k] + [item];
      if item.id !in rows {
        FreshRowMatches(b, item);
        scheduled := scheduled[item.id := FreshRow(b, item).value];
      }
    }
    assert plan.processes[..|plan.processes|] == plan.processes;
  }

  datatype Comparison = AllMatch(allExisting: bool) | Differs(id: string) | Unreadable(code: string)

  /** Compare every row that already exists with its planned process. */
  method CompareExisting(b: Boundary, plan: Plan, rows: Rows) returns (r: Comparison)
    ensures r.AllMatch? ==> RowsMatch(b, plan, rows) && (r.allExisting <==> Scheduled(plan, rows))
    ensures r.Differs? ==> !RowsMatch(b, plan, rows)
    ensures r.Unreadable? ==> !RowsMatch(b, plan, rows)
  {
    var allExisting := true;
    for k := 0 to |plan.processes|
      invariant allExisting <==> forall i :: 0 <= i < k ==> plan.processes[i].id in rows
      invariant forall i :: 0 <= i < k && plan.processes[i].id in rows ==> SameRow(b, rows[plan.processes[i].id], plan.processes[i]) == Ok(true)
    {
      var item := plan.processes[k];
      assert item in plan.processes;
      if item.id in rows {
        var same := SameRow(b, rows[item.id], item);
        if same.Raise? { return Unreadable(same.code); }
        if !same.value { return Differs(item.id); }
      } else {
        allExisting := false;
      }
    }
    r := AllMatch(allExisting);
  }

  /** correlation_persistence's `persist_correlation_plan`, scheduling taken as one write. */
  method PersistPlan(b: Boundary, plan: Plan, j: RunJournal) returns (r: PersistResult, ghost scheduled: Rows)
    modifies j`rows
    ensures r.InvalidPlan? <==> !Persistable(plan)
    ensures r.InvalidPlan? || r.Conflict? ==> j.rows == old(j.rows)
    // A conflict means some row does not match; rows that match are never in conflict.
    ensures r.Conflict? ==> !RowsMatch(b, plan, old(j.rows))
    // Otherwise missing rows are scheduled, everything matches, and at most a refresh follows.
    ensures r.Persisted? <==> Persists(b, plan, old(j.rows))
    ensures r.Persisted? ==> ScheduledRows(b, plan, old(j.rows), scheduled) && RefreshedRows(b, plan, scheduled, j.rows)
    // New rows hold what is authored and the path's regulation, roots are ready, and a refresh readies whoever is due.
    ensures r.Persisted? ==> FreshRows(plan, old(j.rows), scheduled)
    ensures r.Persisted? ==> DecidedRows(b, plan, scheduled, j.rows) && NoneDue(plan, j.rows) && ReadiedFromRows(b, plan, scheduled, j.rows)
    ensures r.Persisted? ==> (r.replayed <==> Scheduled(plan, old(j.rows)))
    ensures r.Stopped? ==> j.rows == old(j.rows) || (Authored(b, plan) && RowsMatch(b, plan, old(j.rows)) && ScheduledRows(b, plan, old(j.rows), j.rows))
    ensures r.Stopped? ==> j.rows == old(j.rows) || FreshRows(plan, old(j.rows), j.rows)
  {
    hide FreshRows, DecidedRows, NoneDue, ReadiedFromRows;
    hide Persistable, Authored, RowsMatch, ScheduledRows, RefreshedRows, Scheduled, RefreshSound;
    scheduled := j.rows;
    var valid := ValidatePlan(b, plan);
    if valid.Rejected? { return InvalidPlan(valid.fault), scheduled; }
    if valid.Halted? { return Stopped(valid.code), scheduled; }
    var compared := CompareExisting(b, plan, j.rows);
    if compared.Unreadable? { return Stopped(compared.code), scheduled; }
    if compared.Differs? { return Conflict(compared.id), scheduled; }
    PersistableIsDistinct(plan);
    var rows := ScheduleMissing(b, plan, j.rows);
    forall t | ScheduledRows(b, plan, j.rows, t) ensures t == rows { ScheduledRowsUnique(b, plan, j.rows, t, rows); }
    ScheduledRowsCover(b, plan, j.rows, rows);
    ScheduledIsFresh(b, plan, j.rows, rows);
    j.rows, scheduled := rows, rows;
    var refreshed := RefreshReadiness(b, plan, j);
    r := if refreshed.Halted? then Stopped(refreshed.code) else Persisted(compared.allExisting);
  }

  lemma ScheduledRowsCover(b: Boundary, plan: Plan, s: Rows, t: Rows)
    requires ScheduledRows(b, plan, s, t)
    ensures Scheduled(plan, t)
  {
  }

  lemma PersistableIsDistinct(plan: Plan)
    requires Persistable(plan)
    ensures Distinct(plan)
  {
  }

  /** Persisting a plan again over rows that match it schedules nothing, and completes exactly when the rows can be
      refreshed. */
  lemma ReplayOnlyRefreshes(b: Boundary, plan: Plan, rows: Rows)
    requires Persistable(plan) && Authored(b, plan) && Scheduled(plan, rows) && RowsMatch(b, plan, rows)
    ensures forall scheduled :: ScheduledRows(b, plan, rows, scheduled) <==> scheduled == rows
    ensures Persists(b, plan, rows) <==> RefreshSound(b, plan, rows)
  {
    assert ScheduledRows(b, plan, rows, rows) by { assert rows.Keys == rows.Keys + (set item | item in plan.processes :: item.id); }
    forall t | ScheduledRows(b, plan, rows, t) ensures t == rows { ScheduledRowsUnique(b, plan, rows, t, rows); }
  }

  // ---------------------------------------------------------------- what the engine writes is enrichment

  /** Every input the engine injects keeps the authored keys. */
  lemma InjectedKeepsAuthored(input: map<string, Json>, conduction: map<string, Json>, regulation: map<string, Json>, reactions: Option<seq<Json>>)
    requires input.Keys !! INJECTED_KEYS
    ensures Injected(input, conduction, regulation, reactions).Obj?
    ensures Injected(input, conduction, regulation, reactions).fields - INJECTED_KEYS == input
  {
    var fields := Injected(input, conduction, regulation, reactions).fields;
    forall k | k !in INJECTED_KEYS ensures (k in fields <==> k in input) && (k in input ==> fields[k] == input[k]) {}
  }

  /** The rows an advancement leaves behind still match their plan. */
  lemma AdvanceKeepsMatching(b: Boundary, plan: Plan, s: Store, t: Store)
    requires Scheduled(plan, s.rows) && Progress(b, plan, s, t) && RowsMatch(b, plan, s.rows)
    ensures RowsMatch(b, plan, t.rows)
  {
    forall item | item in plan.processes ensures SameRow(b, t.rows[item.id], item) == Ok(true) {
      AdvanceKeepsRow(b, plan, s, t, item);
    }
  }

  lemma AdvanceKeepsRow(b: Boundary, plan: Plan, s: Store, t: Store, item: ProcessPlan)
    requires Scheduled(plan, s.rows) && Progress(b, plan, s, t) && RowsMatch(b, plan, s.rows)
    requires item in plan.processes
    ensures item.id in t.rows && SameRow(b, t.rows[item.id], item) == Ok(true)
  {
    hide DirectInput, Moved, Reached;
    var row, later := s.rows[item.id], t.rows[item.id];
    assert KeptRow(row, later);
    assert SameRow(b, row, item) == Ok(true);
    if later.input != row.input {
      assert DirectlyMerged(b, plan, t.rows, item);
      DirectKeepsAuthored(b, plan, StatesOf(plan, t.rows), item, later.input);
    }
    MarkerKeeps(row.metadata, later.metadata);
    assert Enriched(b, row, later);
    MatchingIsStable(b, row, later, item);
  }

  lemma MarkerKeeps(m: Json, n: Json)
    requires m.Obj? && SameButMarker(m, n)
    ensures n.Obj? && n.fields - {WAIT_MARKER, BINDING} == m.fields - {WAIT_MARKER, BINDING}
    ensures (BINDING in n.fields <==> BINDING in m.fields) && (BINDING in m.fields ==> n.fields[BINDING] == m.fields[BINDING])
  {
    forall k | k != WAIT_MARKER ensures (k in m.fields <==> k in n.fields) && (k in m.fields ==> m.fields[k] == n.fields[k]) {
      assert k in m.fields - {WAIT_MARKER} <==> k in m.fields;
      assert k in n.fields - {WAIT_MARKER} <==> k in n.fields;
      if k in m.fields { assert (m.fields - {WAIT_MARKER})[k] == (n.fields - {WAIT_MARKER})[k]; }
    }
  }

  lemma DirectKeepsAuthored(b: Boundary, plan: Plan, states: seq<ExecutionState>, item: ProcessPlan, input: Json)
    requires AuthoredInput(item).Ok? && DirectInput(b, item, plan, states).Ok?
    requires SameDirect(item, input, DirectInput(b, item, plan, states).value)
    ensures input.Obj? && input.fields - INJECTED_KEYS == item.input.fields
  {
    var direct := DirectInput(b, item, plan, states).value;
    var upstreams := Finished(states, item.conduction).value;
    var conduction := Payloads(b, plan, states, upstreams).value;
    InjectedKeepsAuthored(item.input.fields, conduction, Inherited(states, upstreams) + RegulationOf(item.metadata), None);
    SameButReactions(input.fields, direct.fields);
  }

  lemma SameButReactions(m: map<string, Json>, n: map<string, Json>)
    requires m - {REACTIONS} == n - {REACTIONS}
    ensures m - INJECTED_KEYS == n - INJECTED_KEYS
  {
    forall k | k !in INJECTED_KEYS ensures (k in m <==> k in n) && (k in m ==> m[k] == n[k]) {
      assert k in m - {REACTIONS} <==> k in m;
      assert k in n - {REACTIONS} <==> k in n;
      if k in m { assert (m - {REACTIONS})[k] == (n - {REACTIONS})[k]; }
    }
  }

  lemma RowMergedKeepsAuthored(b: Boundary, plan: Plan, rows: Rows, item: ProcessPlan, input: Json)
    requires AuthoredInput(item).Ok? && RowMergedInput(b, item, plan, rows) == Ok(input)
    ensures input.Obj? && input.fields - INJECTED_KEYS == item.input.fields
  {
    var conduction := RowPayloads(b, plan, rows, item.conduction).value;
    var regulation := RowInherited(plan, rows, item.conduction) + RegulationOf(item.metadata);
    InjectedKeepsAuthored(item.input.fields, conduction, regulation, None);
    if Accumulates(item.metadata) {
      var reactions := RowReactions(b, plan, rows, AncestorOrder(NodesOf(plan), item.effectorId), AcceptedKinds(item.metadata)).value;
      InjectedKeepsAuthored(item.input.fields, conduction, regulation, Some(reactions));
    }
  }

  /** So do the rows a refresh leaves behind. */
  lemma RefreshKeepsMatching(b: Boundary, plan: Plan, s: Rows, t: Rows)
    requires Distinct(plan) && RefreshedRows(b, plan, s, t) && RowsMatch(b, plan, s)
    ensures RowsMatch(b, plan, t)
  {
    forall item | item in plan.processes && item.id in t ensures SameRow(b, t[item.id], item) == Ok(true) {
      assert SameRow(b, s[item.id], item) == Ok(true);
      if t[item.id] != s[item.id] {
        var i :| 0 <= i < |plan.processes| && plan.processes[i].id == item.id && Released(plan, CoresOf(s), i);
        var k :| 0 <= k < |plan.processes| && plan.processes[k] == item;
        assert i == k;
        assert RefreshedRow(b, plan, s, t, i);
        RowMergedKeepsAuthored(b, plan, s, item, t[item.id].input);
        assert Enriched(b, s[item.id], t[item.id]);
        MatchingIsStable(b, s[item.id], t[item.id], item);
      }
    }
  }
}
