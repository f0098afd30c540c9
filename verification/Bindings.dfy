/** Adapter bindings of a run and the tallies of a finished one (correlation_runtime.mojo). */
module Bindings {
  import opened ProcessStatus
  import opened CorrelationPlan

  /** A binding, with the verdict of its adapter's own validation. */
  datatype AdapterBinding = AdapterBinding(runId: string, processId: string, adapterSound: bool)

  predicate Names(binding: AdapterBinding, runId: string, processId: string) {
    binding.runId == runId && binding.processId == processId
  }

  /** Exactly one binding names the process. */
  ghost predicate BoundOnce(bindings: seq<AdapterBinding>, runId: string, processId: string) {
    exists i :: 0 <= i < |bindings| && Names(bindings[i], runId, processId)
      && forall k :: 0 <= k < |bindings| && k != i ==> !Names(bindings[k], runId, processId)
  }

  /** The sole binding of a process; -1 when there is none and -2 when there are several. */
  method BindingIndex(bindings: seq<AdapterBinding>, runId: string, processId: string) returns (found: int)
    ensures -2 <= found < |bindings|
    ensures found >= 0 <==> BoundOnce(bindings, runId, processId)
    ensures found >= 0 ==> Names(bindings[found], runId, processId)
    ensures found == -1 <==> forall k :: 0 <= k < |bindings| ==> !Names(bindings[k], runId, processId)
  {
    found := -1;
    for index := 0 to |bindings|
      invariant -1 <= found < index
      invariant found >= 0 ==> Names(bindings[found], runId, processId)
      invariant forall k :: 0 <= k < index && k != found ==> !Names(bindings[k], runId, processId)
    {
      if Names(bindings[index], runId, processId) {
        if found >= 0 {
          return -2;
        }
        found := index;
      }
    }
  }

  /** Every binding passed its own checks. */
  ghost predicate SoundBindings(plan: Plan, bindings: seq<AdapterBinding>) {
    forall binding :: binding in bindings ==>
      binding.runId != "" && binding.runId == plan.runId && binding.processId != "" && binding.adapterSound
  }

  /** What the code checks, binding by binding and process by process. */
  ghost predicate Covering(plan: Plan, bindings: seq<AdapterBinding>) {
    && |bindings| == |plan.processes|
    && SoundBindings(plan, bindings)
    && (forall item :: item in plan.processes ==> BoundOnce(bindings, plan.runId, item.id))
  }

  method CheckBindings(plan: Plan, bindings: seq<AdapterBinding>) returns (sound: bool)
    ensures sound <==> SoundBindings(plan, bindings)
  {
    for k := 0 to |bindings|
      invariant forall l :: 0 <= l < k ==>
        bindings[l].runId != "" && bindings[l].runId == plan.runId && bindings[l].processId != "" && bindings[l].adapterSound
    {
      var binding := bindings[k];
      assert binding in bindings;
      if binding.runId == "" || binding.runId != plan.runId || binding.processId == "" || !binding.adapterSound { return false; }
    }
    sound := true;
  }

  method CheckProcesses(plan: Plan, bindings: seq<AdapterBinding>) returns (bound: bool)
    ensures bound <==> forall item :: item in plan.processes ==> BoundOnce(bindings, plan.runId, item.id)
  {
    hide BoundOnce, Names;
    for k := 0 to |plan.processes|
      invariant forall l :: 0 <= l < k ==> BoundOnce(bindings, plan.runId, plan.processes[l].id)
    {
      var item := plan.processes[k];
      assert item in plan.processes;
      var index := BindingIndex(bindings, plan.runId, item.id);
      if index == -1 || index == -2 { return false; }
    }
    bound := true;
  }

  /** correlation_runtime's `_validate_bindings`. */
  method ValidateBindings(plan: Plan, bindings: seq<AdapterBinding>) returns (accepted: bool)
    ensures accepted <==> Covering(plan, bindings)
  {
    if |bindings| != |plan.processes| { return false; }
    var sound := CheckBindings(plan, bindings);
    if !sound { return false; }
    accepted := CheckProcesses(plan, bindings);
  }

  // ---------------------------------------------------------------- the bijection behind the checks

  function BoundIds(bindings: seq<AdapterBinding>): (ids: seq<string>)
    ensures |ids| == |bindings|
    ensures forall i :: 0 <= i < |ids| ==> ids[i] == bindings[i].processId
  {
    seq(|bindings|, i requires 0 <= i < |bindings| => bindings[i].processId)
  }

  function PlannedIds(plan: Plan): (ids: seq<string>)
    ensures |ids| == |plan.processes|
    ensures forall i :: 0 <= i < |ids| ==> ids[i] == plan.processes[i].id
  {
    seq(|plan.processes|, i requires 0 <= i < |plan.processes| => plan.processes[i].id)
  }

  /** A value found at one position only has multiplicity one. */
  lemma CountOnce(s: seq<string>, i: nat)
    requires i < |s| && forall k :: 0 <= k < |s| && k != i ==> s[k] != s[i]
    ensures multiset(s)[s[i]] == 1
  {
    assert s == s[..i] + [s[i]] + s[i + 1..];
    assert s[i] !in s[..i] && s[i] !in s[i + 1..];
  }

  lemma CountAtLeastTwo(s: seq<string>, i: nat, k: nat)
    requires i < k < |s| && s[i] == s[k]
    ensures multiset(s)[s[i]] >= 2
  {
    assert s == s[..k] + s[k..];
    assert s[i] in s[..k] && s[k..][0] == s[i];
  }

  /** A multiset contained in one of the same size is that one. */
  lemma ContainedOfSameSize(a: multiset<string>, b: multiset<string>)
    requires a <= b && |a| == |b|
    ensures a == b
  {
    assert b == a + (b - a);
    assert |b - a| == 0;
  }

  lemma CoveringCounts(plan: Plan, bindings: seq<AdapterBinding>)
    requires Distinct(plan) && Covering(plan, bindings)
    ensures multiset(BoundIds(bindings)) == multiset(PlannedIds(plan))
  {
    var bound, planned := BoundIds(bindings), PlannedIds(plan);
    forall id | id in multiset(planned) ensures multiset(planned)[id] <= multiset(bound)[id] {
      var i :| 0 <= i < |planned| && planned[i] == id;
      CountOnce(planned, i);
      assert plan.processes[i] in plan.processes;
      assert BoundOnce(bindings, plan.runId, id);
      var k :| 0 <= k < |bindings| && Names(bindings[k], plan.runId, id);
      assert bound[k] == id;
    }
    ContainedOfSameSize(multiset(planned), multiset(bound));
  }

  lemma CountsBindOnce(plan: Plan, bindings: seq<AdapterBinding>, j: nat)
    requires Distinct(plan) && SoundBindings(plan, bindings) && j < |plan.processes|
    requires multiset(BoundIds(bindings)) == multiset(PlannedIds(plan))
    ensures BoundOnce(bindings, plan.runId, plan.processes[j].id)
  {
    var bound, planned, id := BoundIds(bindings), PlannedIds(plan), plan.processes[j].id;
    CountOnce(planned, j);
    assert id in multiset(bound);
    var i :| 0 <= i < |bound| && bound[i] == id;
    assert bindings[i] in bindings;
    forall k | 0 <= k < |bindings| && k != i ensures !Names(bindings[k], plan.runId, id) {
      if bound[k] == id { CountAtLeastTwo(bound, if i < k then i else k, if i < k then k else i); }
    }
    assert Names(bindings[i], plan.runId, id);
  }

  /** The checks amount to a bijection: the bindings name the planned processes, each once, and nothing
      else.  No check looks for a stray binding; the counts leave no room for one. */
  lemma CoveringIsBijection(plan: Plan, bindings: seq<AdapterBinding>)
    requires Distinct(plan) && SoundBindings(plan, bindings)
    ensures Covering(plan, bindings) <==> multiset(BoundIds(bindings)) == multiset(PlannedIds(plan))
  {
    var bound, planned := BoundIds(bindings), PlannedIds(plan);
    if Covering(plan, bindings) {
      CoveringCounts(plan, bindings);
    } else if multiset(bound) == multiset(planned) {
      assert |multiset(bound)| == |bound| && |multiset(planned)| == |planned|;
      forall item | item in plan.processes ensures BoundOnce(bindings, plan.runId, item.id) {
        var j :| 0 <= j < |plan.processes| && plan.processes[j] == item;
        CountsBindOnce(plan, bindings, j);
      }
    }
  }

  // ---------------------------------------------------------------- tallies of a finished run

  datatype Tally = Tally(completed: nat, failed: nat, waiting: nat, incomplete: nat)

  function CountOf(statuses: seq<Status>, keep: Status -> bool): nat {
    if statuses == [] then 0
    else CountOf(statuses[..|statuses| - 1], keep) + if keep(statuses[|statuses| - 1]) then 1 else 0
  }

  /** correlation_runtime's `_terminal_result`: every row is counted once, and waiting rows are also
      incomplete. */
  method TallyRows(statuses: seq<Status>) returns (t: Tally)
    ensures t.completed == CountOf(statuses, (s: Status) => s.Succeeded? || s.Skipped?)
    ensures t.failed == CountOf(statuses, (s: Status) => s.Failed? || s.Cancelled? || s.TimedOut?)
    ensures t.waiting == CountOf(statuses, (s: Status) => s.Waiting?)
    ensures t.incomplete == CountOf(statuses, (s: Status) => !Terminal(s))
    ensures t.completed + t.failed + t.incomplete == |statuses| && t.waiting <= t.incomplete
  {
    t := Tally(0, 0, 0, 0);
    for k := 0 to |statuses|
      invariant t.completed == CountOf(statuses[..k], (s: Status) => s.Succeeded? || s.Skipped?)
      invariant t.failed == CountOf(statuses[..k], (s: Status) => s.Failed? || s.Cancelled? || s.TimedOut?)
      invariant t.waiting == CountOf(statuses[..k], (s: Status) => s.Waiting?)
      invariant t.incomplete == CountOf(statuses[..k], (s: Status) => !Terminal(s))
      invariant t.completed + t.failed + t.incomplete == k && t.waiting <= t.incomplete
    {
      assert statuses[..k + 1][..|statuses[..k + 1]| - 1] == statuses[..k];
      match statuses[k]
      case Succeeded => t := t.(completed := t.completed + 1);
      case Skipped => t := t.(completed := t.completed + 1);
      case Failed => t := t.(failed := t.failed + 1);
      case Cancelled => t := t.(failed := t.failed + 1);
      case TimedOut => t := t.(failed := t.failed + 1);
      case Waiting => t := t.(waiting := t.waiting + 1, incomplete := t.incomplete + 1);
      case _ => t := t.(incomplete := t.incomplete + 1);
    }
    assert statuses[..|statuses|] == statuses;
  }
}
