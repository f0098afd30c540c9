/** Durable advancement to a fixed point (correlation_advance.mojo's `advance_correlation`). */
module Advance {
  import opened Sets
  import opened Wrappers
  import opened JsonValue
  import opened ProcessStatus
  import opened Readiness
  import opened CorrelationPlan
  import opened Conveyance
  import opened Conduct
  import opened RunJournals
  import opened Confluence
  import opened Settlement
  import opened Matching
  import opened Movement
  import opened RoundBound
  import opened Completion
  import opened Outcomes
  import opened Sweep

  // ---------------------------------------------------------------- pending rows only go down

  ghost function PendingIds(plan: Plan, rows: Rows): set<string> {
    set item | item in plan.processes && item.id in rows && rows[item.id].status.Pending? :: item.id
  }

  lemma MovesPending(b: Boundary, plan: Plan, s: Store, t: Store)
    requires Moves(b, plan, s, t)
    ensures PendingIds(plan, t.rows) <= PendingIds(plan, s.rows)
  {
    forall id | id in PendingIds(plan, t.rows) ensures id in PendingIds(plan, s.rows) {
      assert KeptRow(s.rows[id], t.rows[id]);
    }
  }

  lemma ProgressPending(b: Boundary, plan: Plan, s: Store, t: Store)
    requires Scheduled(plan, s.rows) && Progress(b, plan, s, t)
    ensures PendingIds(plan, t.rows) <= PendingIds(plan, s.rows)
  {
    MovesPending(b, plan, s, t);
  }

  lemma PendingBound(plan: Plan, rows: Rows)
    ensures |PendingIds(plan, rows)| <= |plan.processes|
  {
    IdsBound(plan.processes);
    var ids := set item | item in plan.processes :: item.id;
    assert PendingIds(plan, rows) <= ids;
    SubsetSize(PendingIds(plan, rows), ids);
  }

  lemma {:induction false} IdsBound(items: seq<ProcessPlan>)
    ensures |set item | item in items :: item.id| <= |items|
  {
    if items != [] {
      IdsBound(items[1..]);
      var rest := set item | item in items[1..] :: item.id;
      assert (set item | item in items :: item.id) == rest + {items[0].id};
    }
  }

  // ---------------------------------------------------------------- one move

  lemma UpdatedRowKept(s: Rows, id: string, row: Row)
    requires id in s && KeptRow(s[id], row)
    ensures KeptRows(s, s[id := row])
  {
  }

  lemma UpdatedRowReached(b: Boundary, plan: Plan, s: Rows, i: nat, row: Row, ready: bool)
    requires i < |plan.processes| && Released(plan, CoresOf(s), i) && Decision(b, plan, CoresOf(s), i) == Ok(ready)
    requires CoreOf(row) == Applied(plan.processes[i], CoreOf(s[plan.processes[i].id]), ready)
    ensures Reached(b, plan, CoresOf(s), CoresOf(s[plan.processes[i].id := row]))
  {
    var c, d := CoresOf(s), CoresOf(s[plan.processes[i].id := row]);
    assert d == c[plan.processes[i].id := CoreOf(row)];
    assert Step(b, plan, c, d, i);
    ReachedSelf(b, plan, c);
    ReachedThen(b, plan, c, c, d, i);
  }

  lemma UpdatedRowPending(plan: Plan, s: Rows, i: nat, row: Row)
    requires i < |plan.processes| && plan.processes[i].id in s && s[plan.processes[i].id].status.Pending? && !row.status.Pending?
    ensures plan.processes[i].id in PendingIds(plan, s)
    ensures PendingIds(plan, s[plan.processes[i].id := row]) == PendingIds(plan, s) - {plan.processes[i].id}
  {
    var id, t := plan.processes[i].id, s[plan.processes[i].id := row];
    assert plan.processes[i] in plan.processes;
    forall x ensures x in PendingIds(plan, t) <==> x in PendingIds(plan, s) && x != id {
      if x in PendingIds(plan, s) && x != id {
        var item :| item in plan.processes && item.id in s && s[item.id].status.Pending? && item.id == x;
        assert item.id in t && t[item.id].status.Pending?;
      }
      if x in PendingIds(plan, t) {
        var item :| item in plan.processes && item.id in t && t[item.id].status.Pending? && item.id == x;
        assert item.id in s && s[item.id].status.Pending?;
      }
    }
  }

  /** A skip that is not a replay is one step. */
  lemma SkipMoves(b: Boundary, plan: Plan, s: Store, t: Store, i: nat)
    requires i < |plan.processes|
    requires Released(plan, CoresOf(s.rows), i) && Decision(b, plan, CoresOf(s.rows), i) == Ok(false)
    requires Skip(s, plan.processes[i].id, SkippedOutput(plan.processes[i])) == Ok(t) && t != s
    ensures Moves(b, plan, s, t) && forall id :: id in s.rows && s.rows[id].status.Pending? ==> !t.rows[id].status.Ready?
    ensures forall id :: id in s.rows && id != plan.processes[i].id ==> t.rows[id] == s.rows[id]
    ensures PendingIds(plan, t.rows) == PendingIds(plan, s.rows) - {plan.processes[i].id}
    ensures plan.processes[i].id in PendingIds(plan, s.rows)
  {
    hide Decision, Settles;
    var id := plan.processes[i].id;
    var row := t.rows[id];
    assert t.rows == s.rows[id := row];
    SkipRecorded(s, t, id, SkippedOutput(plan.processes[i]));
    hide MovesRecorded, Coherent, CommandsKept;
    UpdatedRowKept(s.rows, id, row);
    UpdatedRowReached(b, plan, s.rows, i, row, false);
    hide KeptRows, Reached, Released;
    UpdatedRowPending(plan, s.rows, i, row);
  }

  lemma SkipRecorded(s: Store, t: Store, id: string, output: Json)
    requires Skip(s, id, output) == Ok(t) && t != s
    ensures MovesRecorded(s, t) && CommandsKept(s, t) && (Coherent(s) ==> Coherent(t))
  {
  }

  /** Skipping a released process whose condition fails is one step, or a replay. */
  lemma SkipProgress(b: Boundary, plan: Plan, s: Store, t: Store, i: nat)
    requires Scheduled(plan, s.rows) && i < |plan.processes|
    requires Released(plan, CoresOf(s.rows), i) && Decision(b, plan, CoresOf(s.rows), i) == Ok(false)
    requires Skip(s, plan.processes[i].id, SkippedOutput(plan.processes[i])) == Ok(t)
    ensures Progress(b, plan, s, t)
    ensures forall id :: id in s.rows && id != plan.processes[i].id ==> t.rows[id] == s.rows[id]
    ensures t == s ==> Stuck(b, plan, s, i)
    ensures t != s ==> PendingIds(plan, t.rows) == PendingIds(plan, s.rows) - {plan.processes[i].id}
    ensures t != s ==> plan.processes[i].id in PendingIds(plan, s.rows)
  {
    if t == s {
      ProgressSelf(b, plan, s);
    } else {
      SkipMoves(b, plan, s, t, i);
      hide Skip, Moves, Released, Decision, PendingIds;
      MovesReadyingNone(b, plan, s, t);
    }
  }

  /** Moves that ready nobody write no input. */
  lemma MovesReadyingNone(b: Boundary, plan: Plan, s: Store, t: Store)
    requires Scheduled(plan, s.rows) && Moves(b, plan, s, t)
    requires forall id :: id in s.rows && s.rows[id].status.Pending? ==> !t.rows[id].status.Ready?
    ensures Progress(b, plan, s, t)
  {
    hide Reached, MovesRecorded, DirectlyMerged, MergedInput, Settled;
  }

  /** Readying a released process whose condition holds is one step, or a replay. */
  lemma ReadyMoves(b: Boundary, plan: Plan, s: Store, t: Store, i: nat, input: Json)
    requires i < |plan.processes| && plan.processes[i].id in s.rows
    requires s.rows[plan.processes[i].id].status.Pending? ==>
      Released(plan, CoresOf(s.rows), i) && Decision(b, plan, CoresOf(s.rows), i) == Ok(true)
    requires ReadyOne(s, Child(plan.processes[i].id, input)) == Ok(t)
    ensures Moves(b, plan, s, t)
    ensures plan.processes[i].id in PendingIds(plan, t.rows) ==> Stuck(b, plan, t, i)
  {
    var id := plan.processes[i].id;
    if t == s {
      ReachedSelf(b, plan, CoresOf(s.rows));
      if id in PendingIds(plan, t.rows) { assert s.rows[id].status.Pending?; }
    } else {
      var row := t.rows[id];
      assert t.rows == s.rows[id := row];
      UpdatedRowKept(s.rows, id, row);
      UpdatedRowReached(b, plan, s.rows, i, row, true);
      UpdatedRowPending(plan, s.rows, i, row);
    }
  }

  // ---------------------------------------------------------------- a batch of ready children

  /** A child decided on the snapshot `s`. */
  ghost predicate ChildSound(b: Boundary, plan: Plan, s: Rows, c: Child, i: nat)
    requires Scheduled(plan, s)
  {
    && i < |plan.processes| && plan.processes[i].id == c.id
    && Released(plan, CoresOf(s), i) && Decision(b, plan, CoresOf(s), i) == Ok(true)
    && MergedInput(b, plan.processes[i], plan, StatesOf(plan, s)) == Ok(c.input)
  }

  ghost predicate ChildrenSound(b: Boundary, plan: Plan, s: Rows, children: seq<Child>, at: seq<nat>)
    requires Scheduled(plan, s)
  {
    |at| == |children| && forall k :: 0 <= k < |children| ==> ChildSound(b, plan, s, children[k], at[k])
  }

  /** Whatever the batch changed, it changed as one of its children says. */
  ghost predicate ChangedByChildren(s: Rows, t: Rows, children: seq<Child>) {
    s.Keys == t.Keys && forall id :: id in s && t[id] != s[id] ==>
      !t[id].status.Pending? && exists k :: 0 <= k < |children| && children[k].id == id && t[id].input == children[k].input
  }

  /** Applying a batch decided on the snapshot `s` to the rows `mid`, in which its children have not moved. */
  lemma {:induction false} BatchMoves(b: Boundary, plan: Plan, s: Rows, mid: Store, children: seq<Child>, at: seq<nat>)
    requires Scheduled(plan, s) && ChildrenSound(b, plan, s, children, at)
    requires KeptRows(s, mid.rows) && forall k :: 0 <= k < |children| ==> mid.rows[children[k].id] == s[children[k].id]
    requires ReadyAll(mid, children).Ok?
    ensures Moves(b, plan, mid, ReadyAll(mid, children).value)
    ensures ChangedByChildren(mid.rows, ReadyAll(mid, children).value.rows, children)
    ensures children != [] && children[|children| - 1].id in PendingIds(plan, ReadyAll(mid, children).value.rows)
      ==> SomeStuck(b, plan, ReadyAll(mid, children).value)
    decreases |children|
  {
    if children == [] {
      ReachedSelf(b, plan, CoresOf(mid.rows));
    } else {
      var last := |children| - 1;
      var child, before := children[last], ReadyAll(mid, children[..last]).value;
      BatchMoves(b, plan, s, mid, children[..last], at[..last]);
      var t := ReadyAll(mid, children).value;
      assert ReadyOne(before, child) == Ok(t);
      assert ChildSound(b, plan, s, child, at[last]);
      assert mid.rows[child.id] == s[child.id];
      ChildMoves(b, plan, s, mid.rows, before, t, child, at[last]);
      MovesTransitive(b, plan, mid, before, t);
      ChangedByOneMore(mid.rows, before, t, children);
    }
  }

  lemma ChildMoves(b: Boundary, plan: Plan, s: Rows, mid: Rows, before: Store, t: Store, child: Child, i: nat)
    requires Scheduled(plan, s) && ChildSound(b, plan, s, child, i)
    requires KeptRows(s, mid) && KeptRows(mid, before.rows)
    requires before.rows[child.id].status.Pending? ==> before.rows[child.id] == s[child.id]
    requires ReadyOne(before, child) == Ok(t)
    ensures Moves(b, plan, before, t)
    ensures child.id in PendingIds(plan, t.rows) ==> Stuck(b, plan, t, i)
  {
    if before.rows[child.id].status.Pending? {
      KeptIsFrozen(s, mid);
      KeptIsFrozen(mid, before.rows);
      FrozenTransitive(CoresOf(s), CoresOf(mid), CoresOf(before.rows));
      StillReleased(b, plan, CoresOf(s), CoresOf(before.rows), i);
    }
    ReadyMoves(b, plan, before, t, i, child.input);
  }

  lemma KeptIsFrozen(s: Rows, t: Rows)
    requires KeptRows(s, t)
    ensures Frozen(CoresOf(s), CoresOf(t))
  {
    forall id | id in s && Terminal(s[id].status) ensures CoresOf(t)[id] == CoresOf(s)[id] {
      assert KeptRow(s[id], t[id]);
    }
  }

  lemma ChangedByOneMore(s: Rows, before: Store, t: Store, children: seq<Child>)
    requires children != [] && ChangedByChildren(s, before.rows, children[..|children| - 1])
    requires ReadyOne(before, children[|children| - 1]) == Ok(t)
    ensures ChangedByChildren(s, t.rows, children)
  {
    var last := |children| - 1;
    forall id | id in s && t.rows[id] != s[id]
      ensures !t.rows[id].status.Pending? && exists k :: 0 <= k < |children| && children[k].id == id && t.rows[id].input == children[k].input
    {
      if t.rows[id] == before.rows[id] {
        var k :| 0 <= k < last && children[..last][k].id == id && before.rows[id].input == children[..last][k].input;
        assert children[k].id == id;
      } else {
        assert children[last].id == id;
      }
    }
  }

  lemma ReadyOneLeaves(s: Store, child: Child, t: Store)
    requires Coherent(s) && ReadyOne(s, child) == Ok(t)
    ensures Coherent(t) && s.rows.Keys == t.rows.Keys && child.id in t.rows && !t.rows[child.id].status.Pending?
    ensures forall id :: id in s.rows && !s.rows[id].status.Pending? ==> !t.rows[id].status.Pending?
  {
  }

  /** Where commands agree with rows, every child of an applied batch has left pending. */
  lemma {:induction false} ChildLeaves(mid: Store, children: seq<Child>, k: nat)
    requires Coherent(mid) && k < |children| && ReadyAll(mid, children).Ok?
    ensures Coherent(ReadyAll(mid, children).value) && children[k].id in ReadyAll(mid, children).value.rows
    ensures !ReadyAll(mid, children).value.rows[children[k].id].status.Pending?
    decreases |children|
  {
    hide Coherent, ReadyOne;
    var last := |children| - 1;
    if last > 0 {
      ChildLeaves(mid, children[..last], if k < last then k else last - 1);
    }
    ReadyOneLeaves(ReadyAll(mid, children[..last]).value, children[last], ReadyAll(mid, children).value);
  }

  /** Between `s` and `t` exactly these processes were readied. */
  ghost predicate Readies(s: Rows, t: Rows, ids: seq<string>) {
    s.Keys == t.Keys && forall id :: id in s ==> (id in ids <==> s[id].status.Pending? && t[id].status.Ready?)
  }

  /** A batch only turns pending rows ready. */
  lemma {:induction false} BatchStatus(mid: Store, children: seq<Child>, id: string)
    requires ReadyAll(mid, children).Ok? && id in mid.rows
    ensures id in ReadyAll(mid, children).value.rows
    ensures var t := ReadyAll(mid, children).value.rows; t[id] == mid.rows[id] || (mid.rows[id].status.Pending? && t[id].status.Ready?)
    decreases |children|
  {
    if children != [] { BatchStatus(mid, children[..|children| - 1], id); }
  }

  lemma ChildrenPending(b: Boundary, plan: Plan, s: Rows, children: seq<Child>, at: seq<nat>)
    requires Scheduled(plan, s) && ChildrenSound(b, plan, s, children, at)
    ensures forall k :: 0 <= k < |children| ==> children[k].id in s && s[children[k].id].status.Pending?
  {
    forall k | 0 <= k < |children| ensures children[k].id in s && s[children[k].id].status.Pending? {
      assert ChildSound(b, plan, s, children[k], at[k]);
    }
  }

  /** Applying children that are there and pending cannot fail. */
  lemma {:induction false} BatchApplies(mid: Store, children: seq<Child>)
    requires forall k :: 0 <= k < |children| ==>
      children[k].id != "" && children[k].id in mid.rows && mid.rows[children[k].id].status.Pending?
    ensures ReadyAll(mid, children).Ok?
    ensures var t := ReadyAll(mid, children).value;
      forall id :: id in mid.rows && mid.rows[id].status.Pending? ==>
        id in t.rows && (t.rows[id].status.Pending? || ReadyCommand(id) in t.commands)
    decreases |children|
  {
    if children != [] {
      BatchApplies(mid, children[..|children| - 1]);
    }
  }

  lemma ChildrenApply(b: Boundary, plan: Plan, s: Rows, mid: Store, children: seq<Child>, at: seq<nat>)
    requires Advanceable(plan) && Scheduled(plan, s) && ChildrenSound(b, plan, s, children, at) && Unmoved(s, mid.rows, children)
    ensures ReadyAll(mid, children).Ok?
  {
    ChildrenPending(b, plan, s, children, at);
    forall k | 0 <= k < |children|
      ensures children[k].id != "" && children[k].id in mid.rows && mid.rows[children[k].id].status.Pending?
    {
      assert ChildSound(b, plan, s, children[k], at[k]);
      assert plan.processes[at[k]] in plan.processes;
    }
    BatchApplies(mid, children);
  }

  lemma BatchReadies(s: Rows, mid: Store, children: seq<Child>)
    requires s.Keys == mid.rows.Keys && Unmoved(s, mid.rows, children) && Coherent(mid) && ReadyAll(mid, children).Ok?
    requires forall k :: 0 <= k < |children| ==> children[k].id in s && s[children[k].id].status.Pending?
    requires NoneReadied(s, mid.rows)
    requires ChangedByChildren(mid.rows, ReadyAll(mid, children).value.rows, children)
    ensures Readies(s, ReadyAll(mid, children).value.rows, ChildIds(children))
  {
    hide Coherent, ReadyAll;
    var t := ReadyAll(mid, children).value.rows;
    forall id | id in s ensures id in ChildIds(children) <==> s[id].status.Pending? && t[id].status.Ready? {
      BatchStatus(mid, children, id);
      if id in ChildIds(children) {
        var k :| 0 <= k < |children| && ChildIds(children)[k] == id;
        ChildLeaves(mid, children, k);
        assert mid.rows[children[k].id] == s[children[k].id];
      }
      if s[id].status.Pending? && t[id].status.Ready? {
        assert t[id] != mid.rows[id];
        var k :| 0 <= k < |children| && children[k].id == id && t[id].input == children[k].input;
        assert ChildIds(children)[k] == id;
      }
    }
  }

  /** Skipping readies nobody. */
  ghost predicate NoneReadied(s: Rows, t: Rows) {
    forall id :: id in s && id in t && s[id].status.Pending? ==> !t[id].status.Ready?
  }

  function ChildIds(children: seq<Child>): (ids: seq<string>)
    ensures |ids| == |children|
  {
    seq(|children|, k requires 0 <= k < |children| => children[k].id)
  }

  /** The batch completes what was decided on the snapshot. */
  lemma BatchProgress(b: Boundary, plan: Plan, s: Store, mid: Store, children: seq<Child>, at: seq<nat>)
    requires Distinct(plan) && Scheduled(plan, s.rows) && Progress(b, plan, s, mid)
    requires ChildrenSound(b, plan, s.rows, children, at)
    requires forall k :: 0 <= k < |children| ==> mid.rows[children[k].id] == s.rows[children[k].id]
    requires ReadyAll(mid, children).Ok?
    ensures Progress(b, plan, s, ReadyAll(mid, children).value)
    ensures children == [] || PendingIds(plan, ReadyAll(mid, children).value.rows) < PendingIds(plan, s.rows)
      || SomeStuck(b, plan, ReadyAll(mid, children).value)
  {
    hide Reached, Coherent, MovesRecorded, InputsDirect, InputsMerged, Settled;
    var t := ReadyAll(mid, children).value;
    BatchMoves(b, plan, s.rows, mid, children, at);
    MovesTransitive(b, plan, s, mid, t);
    MovesPending(b, plan, s, t);
    if children != [] {
      var last := |children| - 1;
      assert ChildSound(b, plan, s.rows, children[last], at[last]);
      assert plan.processes[at[last]] in plan.processes;
      assert children[last].id in PendingIds(plan, s.rows);
    }
    BatchInputs(b, plan, s, mid, t, children, at);
  }

  /** What the batch readies carries the inputs its upstreams determine. */
  lemma BatchInputs(b: Boundary, plan: Plan, s: Store, mid: Store, t: Store, children: seq<Child>, at: seq<nat>)
    requires Distinct(plan) && Scheduled(plan, s.rows) && Progress(b, plan, s, mid) && Moves(b, plan, s, t) && Moves(b, plan, mid, t)
    requires ChildrenSound(b, plan, s.rows, children, at) && ChangedByChildren(mid.rows, t.rows, children)
    ensures InputsDirect(b, plan, s.rows, t.rows)
    ensures Settled(plan, s.rows) ==> InputsMerged(b, plan, s.rows, t.rows)
  {
    hide Reached, MovesRecorded, ChildrenSound, ChangedByChildren, Coherent, Settled, DirectlyMerged, MergedInput;
    forall item | item in plan.processes && s.rows[item.id].status.Pending? && t.rows[item.id].status.Ready?
      ensures DirectlyMerged(b, plan, t.rows, item)
      ensures Settled(plan, s.rows) ==> MergedInput(b, item, plan, StatesOf(plan, t.rows)) == Ok(t.rows[item.id].input)
    {
      var i :| 0 <= i < |plan.processes| && plan.processes[i] == item;
      BatchDirect(b, plan, s, mid, t, children, at, i);
      if Settled(plan, s.rows) { BatchInput(b, plan, s, mid, t, children, at, item); }
    }
  }

  /** The child behind a row the batch moved. */
  lemma BatchChild(b: Boundary, plan: Plan, s: Rows, mid: Rows, t: Rows, children: seq<Child>, at: seq<nat>, i: nat) returns (k: nat)
    requires Distinct(plan) && Scheduled(plan, s) && i < |plan.processes| && plan.processes[i].id in mid
    requires ChildrenSound(b, plan, s, children, at) && ChangedByChildren(mid, t, children)
    requires t[plan.processes[i].id] != mid[plan.processes[i].id]
    ensures k < |children| && ChildSound(b, plan, s, children[k], i) && t[plan.processes[i].id].input == children[k].input
  {
    var id := plan.processes[i].id;
    k :| 0 <= k < |children| && children[k].id == id && t[id].input == children[k].input;
    assert ChildSound(b, plan, s, children[k], at[k]);
    assert at[k] == i;
  }

  lemma BatchInput(b: Boundary, plan: Plan, s: Store, mid: Store, t: Store, children: seq<Child>, at: seq<nat>, item: ProcessPlan)
    requires Distinct(plan) && Scheduled(plan, s.rows) && Progress(b, plan, s, mid) && Moves(b, plan, s, t) && Moves(b, plan, mid, t)
    requires ChildrenSound(b, plan, s.rows, children, at) && ChangedByChildren(mid.rows, t.rows, children)
    requires Settled(plan, s.rows) && item in plan.processes && s.rows[item.id].status.Pending? && t.rows[item.id].status.Ready?
    ensures MergedInput(b, item, plan, StatesOf(plan, t.rows)) == Ok(t.rows[item.id].input)
  {
    var i :| 0 <= i < |plan.processes| && plan.processes[i] == item;
    if t.rows[item.id] == mid.rows[item.id] {
      ReachedKeepsSettled(b, plan, CoresOf(s.rows), CoresOf(mid.rows));
      assert UpstreamsFinished(plan, CoresOf(mid.rows), i);
      MergedStays(b, plan, mid.rows, t.rows, item, i);
    } else {
      var k := BatchChild(b, plan, s.rows, mid.rows, t.rows, children, at, i);
      assert UpstreamsFinished(plan, CoresOf(s.rows), i);
      MergedStays(b, plan, s.rows, t.rows, item, i);
    }
  }

  lemma BatchDirect(b: Boundary, plan: Plan, s: Store, mid: Store, t: Store, children: seq<Child>, at: seq<nat>, i: nat)
    requires Distinct(plan) && Scheduled(plan, s.rows) && Moves(b, plan, s, mid) && Moves(b, plan, s, t) && Moves(b, plan, mid, t)
    requires InputsDirect(b, plan, s.rows, mid.rows)
    requires ChildrenSound(b, plan, s.rows, children, at) && ChangedByChildren(mid.rows, t.rows, children)
    requires i < |plan.processes| && s.rows[plan.processes[i].id].status.Pending? && t.rows[plan.processes[i].id].status.Ready?
    ensures DirectlyMerged(b, plan, t.rows, plan.processes[i])
  {
    hide DirectInput, SameDirect, MergedInput, Reached;
    var item := plan.processes[i];
    assert item in plan.processes;
    if t.rows[item.id] == mid.rows[item.id] {
      MovedUpstreams(b, plan, s, mid, i);
      DirectStays(b, plan, mid.rows, t.rows, i);
      assert DirectlyMerged(b, plan, mid.rows, item);
    } else {
      var k := BatchChild(b, plan, s.rows, mid.rows, t.rows, children, at, i);
      MergedIsDirect(b, item, plan, StatesOf(plan, s.rows));
      DirectStays(b, plan, s.rows, t.rows, i);
    }
  }

  lemma MarkKeeps(rows: Rows, d: WaitDiagnostic)
    requires Markable(rows)
    ensures KeptRows(rows, MarkRows(rows, d)) && CoresOf(MarkRows(rows, d)) == CoresOf(rows)
  {
    forall id | id in rows ensures KeptRow(rows[id], MarkRows(rows, d)[id]) {
      assert MarkRows(rows, d)[id].metadata.fields - {WAIT_MARKER} == rows[id].metadata.fields - {WAIT_MARKER};
    }
  }

  lemma SameStatusesSamePending(plan: Plan, s: Rows, t: Rows)
    requires s.Keys == t.Keys && forall id :: id in s ==> t[id].status == s[id].status
    ensures PendingIds(plan, t) == PendingIds(plan, s)
  {
  }

  lemma MarkMoves(b: Boundary, plan: Plan, s: Store, d: WaitDiagnostic)
    requires Markable(s.rows)
    ensures Moves(b, plan, s, Store(MarkRows(s.rows, d), s.commands))
    ensures CoresOf(MarkRows(s.rows, d)) == CoresOf(s.rows)
    ensures forall id :: id in s.rows ==> MarkRows(s.rows, d)[id].status == s.rows[id].status
  {
    MarkKeeps(s.rows, d);
    ReachedSelf(b, plan, CoresOf(s.rows));
    var t := Store(MarkRows(s.rows, d), s.commands);
    forall id | id in s.rows ensures t.rows[id].status == s.rows[id].status { MarkStatus(s.rows, d, id); }
    hide MarkRows, KeptRows, Reached, CoresOf;
    StillRecorded(s, t);
  }

  lemma StillRecorded(s: Store, t: Store)
    requires t.commands == s.commands && t.rows.Keys == s.rows.Keys && forall id :: id in s.rows ==> t.rows[id].status == s.rows[id].status
    ensures CommandsKept(s, t) && MovesRecorded(s, t) && (Coherent(s) ==> Coherent(t))
  {
  }

  lemma MarkStatus(rows: Rows, d: WaitDiagnostic, id: string)
    requires Markable(rows) && id in rows
    ensures MarkRows(rows, d)[id].status == rows[id].status
  {
  }

  /** Writing or clearing markers moves nothing. */
  lemma MarkProgress(b: Boundary, plan: Plan, s: Store, d: WaitDiagnostic)
    requires Distinct(plan) && Scheduled(plan, s.rows) && Markable(s.rows)
    ensures Progress(b, plan, s, Store(MarkRows(s.rows, d), s.commands))
    ensures PendingIds(plan, MarkRows(s.rows, d)) == PendingIds(plan, s.rows)
    ensures CoresOf(MarkRows(s.rows, d)) == CoresOf(s.rows)
  {
    MarkMoves(b, plan, s, d);
    hide Moves, MarkRows, DirectlyMerged, MergedInput, PendingIds, Settled;
    SameStatusesSamePending(plan, s.rows, MarkRows(s.rows, d));
  }

  lemma ProgressFrozen(b: Boundary, plan: Plan, s: Store, t: Store)
    requires Scheduled(plan, s.rows) && Progress(b, plan, s, t)
    ensures Scheduled(plan, t.rows) && s.rows.Keys == t.rows.Keys && Frozen(CoresOf(s.rows), CoresOf(t.rows))
    ensures Coherent(s) ==> Coherent(t)
  {
    KeptIsFrozen(s.rows, t.rows);
  }

  // ---------------------------------------------------------------- one round

  method FindProcess(plan: Plan, id: string) returns (index: int)
    ensures -1 <= index < |plan.processes|
    ensures index >= 0 ==> plan.processes[index].id == id
    ensures index < 0 ==> forall k :: 0 <= k < |plan.processes| ==> plan.processes[k].id != id
  {
    index := -1;
    for k := 0 to |plan.processes|
      invariant index == -1
      invariant forall l :: 0 <= l < k ==> plan.processes[l].id != id
    {
      if plan.processes[k].id == id { return k; }
    }
  }

  /** Decide one released process on the snapshot `s`: a sound child, or a skip performed at once. */
  method DecideOne(b: Boundary, plan: Plan, j: RunJournal, states: seq<ExecutionState>, state: ExecutionState, ghost s: Store, ghost i: nat)
    returns (r: Outcome<Option<Child>>)
    requires Advanceable(plan) && Scheduled(plan, s.rows) && states == StatesOf(plan, s.rows)
    requires Progress(b, plan, s, j.Contents())
    requires i < |plan.processes| && state == states[i] && Released(plan, CoresOf(s.rows), i)
    requires j.rows[state.processId] == s.rows[state.processId]
    modifies j
    ensures Progress(b, plan, s, j.Contents())
    ensures forall id :: id in s.rows && id != state.processId ==> j.rows[id] == old(j.rows)[id]
    ensures state.processId in j.rows && !j.rows[state.processId].status.Ready?
    ensures r.Ok? && r.value.Some? ==> ChildSound(b, plan, s.rows, r.value.value, i) && j.Contents() == old(j.Contents())
    ensures r.Ok? && r.value.None? ==> PendingIds(plan, j.rows) <= PendingIds(plan, old(j.rows))
    ensures r.Ok? && r.value.None? ==> PendingIds(plan, j.rows) < PendingIds(plan, old(j.rows)) || SomeStuck(b, plan, j.Contents())
    ensures r.Raise? ==> SomeRaise(b, plan, s)
  {
    hide Progress, Moves, Condition, Decision, PendingIds, Coherent, MergedInput, AnswersCondition, Merges, CannotMove, StatesOf;
    ghost var before := j.Contents();
    ProgressFrozen(b, plan, s, before);
    var index := FindProcess(plan, state.processId);
    assert index == i;
    if index < 0 { return Raise("missing_plan"); }
    var item := plan.processes[index];
    assert item in plan.processes;
    StatesAreDistinct(plan, s.rows);
    DecisionIsCondition(b, plan, s.rows, i);
    var holds := ConditionMatches(b, item, plan, states);
    if holds.Raise? {
      CannotMoveRaises(b, plan, s, i);
      return Raise(holds.code);
    }
    if holds.value {
      var merged := MergeInput(b, item, plan, states);
      if merged.Raise? {
        CannotMoveRaises(b, plan, s, i);
        return Raise(merged.code);
      }
      return Ok(Some(Child(item.id, merged.value)));
    }
    StillReleased(b, plan, CoresOf(s.rows), CoresOf(before.rows), i);
    var skipped := j.SkipProcess(item.id, SkippedOutput(item));
    if skipped.Raise? {
      CannotMoveRaises(b, plan, before, i);
      ProgressRaises(b, plan, s, before);
      return Raise(skipped.code);
    }
    SkipProgress(b, plan, before, j.Contents(), i);
    ProgressPending(b, plan, before, j.Contents());
    ProgressTransitive(b, plan, s, before, j.Contents());
    r := Ok(None);
  }

  lemma CannotMoveRaises(b: Boundary, plan: Plan, t: Store, i: nat)
    requires Scheduled(plan, t.rows) && i < |plan.processes| && Released(plan, CoresOf(t.rows), i) && CannotMove(b, plan, t, i)
    ensures SomeRaise(b, plan, t)
  {
    RaisesNow(b, plan, t);
  }

  lemma ProgressRaises(b: Boundary, plan: Plan, s: Store, t: Store)
    requires Scheduled(plan, s.rows) && Progress(b, plan, s, t) && SomeRaise(b, plan, t)
    ensures SomeRaise(b, plan, s)
  {
    RaisesLater(b, plan, s, t);
  }

  ghost predicate Unmoved(s: Rows, t: Rows, children: seq<Child>) {
    forall k :: 0 <= k < |children| ==> children[k].id in s && children[k].id in t && t[children[k].id] == s[children[k].id]
  }

  /** The released processes from position `m` on have not moved. */
  ghost predicate LaterUnmoved(s: Rows, t: Rows, readied: seq<ExecutionState>, m: nat) {
    forall k :: m <= k < |readied| ==> readied[k].processId in s && readied[k].processId in t && t[readied[k].processId] == s[readied[k].processId]
  }

  /** Where the collected children stand in the plan: before every position still to be decided. */
  ghost predicate Earlier(at: seq<nat>, i: nat) {
    forall c :: 0 <= c < |at| ==> at[c] < i
  }

  lemma AppendChild(b: Boundary, plan: Plan, s: Rows, t: Rows, children: seq<Child>, at: seq<nat>, child: Child, i: nat)
    requires Scheduled(plan, s) && ChildrenSound(b, plan, s, children, at) && Unmoved(s, t, children) && Earlier(at, i)
    requires ChildSound(b, plan, s, child, i) && child.id in t && t[child.id] == s[child.id]
    ensures ChildrenSound(b, plan, s, children + [child], at + [i])
    ensures Unmoved(s, t, children + [child])
    ensures Earlier(at + [i], i + 1)
  {
  }

  lemma SkipKeepsChildren(b: Boundary, plan: Plan, s: Rows, mid: Rows, now: Rows, children: seq<Child>, at: seq<nat>, i: nat)
    requires Distinct(plan) && Scheduled(plan, s) && i < |plan.processes| && s.Keys == now.Keys
    requires ChildrenSound(b, plan, s, children, at) && Unmoved(s, mid, children) && Earlier(at, i)
    requires forall id :: id in s && id != plan.processes[i].id ==> id in mid && now[id] == mid[id]
    ensures Unmoved(s, now, children) && Earlier(at, i + 1)
  {
    forall k | 0 <= k < |children| ensures children[k].id in now && now[children[k].id] == s[children[k].id] {
      assert ChildSound(b, plan, s, children[k], at[k]) && at[k] < i;
    }
  }

  lemma DecisionKeepsLater(plan: Plan, s: Rows, mid: Rows, now: Rows, m: nat)
    requires Distinct(plan) && Scheduled(plan, s) && m < |Readied(StatesOf(plan, s), |plan.processes|)| && s.Keys == now.Keys
    requires LaterUnmoved(s, mid, Readied(StatesOf(plan, s), |plan.processes|), m)
    requires forall id :: id in s && id != Readied(StatesOf(plan, s), |plan.processes|)[m].processId ==> id in mid && now[id] == mid[id]
    ensures LaterUnmoved(s, now, Readied(StatesOf(plan, s), |plan.processes|), m + 1)
  {
    var states := StatesOf(plan, s);
    var readied, pos := Readied(states, |states|), ReadiedAt(states, |states|);
    ReadiedPositions(states, |states|);
    forall k | m + 1 <= k < |readied| ensures now[readied[k].processId] == s[readied[k].processId] {
      assert pos[m] < pos[k];
      assert readied[k].processId != readied[m].processId;
    }
  }

  lemma SkipReadiesNone(s: Rows, t: Rows, u: Rows, id: string)
    requires s.Keys == t.Keys == u.Keys && id in s && NoneReadied(s, t) && !u[id].status.Ready?
    requires forall k :: k in s && k != id ==> u[k] == t[k]
    ensures NoneReadied(s, u)
  {
  }

  /** The state of a round after `m` decisions: `s` is the snapshot, `t` the rows now. */
  ghost predicate Deciding(b: Boundary, plan: Plan, s: Store, t: Store, m: nat, next: nat, children: seq<Child>, at: seq<nat>, changed: bool)
    requires Scheduled(plan, s.rows)
  {
    var readied, pos := Readied(StatesOf(plan, s.rows), |plan.processes|), ReadiedAt(StatesOf(plan, s.rows), |plan.processes|);
    && |pos| == |readied| && m <= |readied|
    && Progress(b, plan, s, t)
    && LaterUnmoved(s.rows, t.rows, readied, m)
    && ChildrenSound(b, plan, s.rows, children, at) && Unmoved(s.rows, t.rows, children)
    && Earlier(at, next) && (m < |readied| ==> next <= pos[m])
    && (children == [] && !changed ==> m == 0 && t == s)
    && NoneReadied(s.rows, t.rows)
    && PendingIds(plan, t.rows) <= PendingIds(plan, s.rows)
    && (changed ==> PendingIds(plan, t.rows) < PendingIds(plan, s.rows) || SomeStuck(b, plan, t))
  }

  lemma DecidingStarts(b: Boundary, plan: Plan, s: Store)
    requires Scheduled(plan, s.rows)
    ensures Deciding(b, plan, s, s, 0, 0, [], [], false)
  {
    ReadiedPositions(StatesOf(plan, s.rows), |plan.processes|);
    ProgressSelf(b, plan, s);
    ReadiedInPlan(plan, s.rows);
  }

  /** A readied child leaves the rows alone. */
  lemma DecidingChild(b: Boundary, plan: Plan, s: Store, t: Store, m: nat, next: nat, children: seq<Child>, at: seq<nat>, changed: bool, child: Child, i: nat)
    requires Distinct(plan) && Scheduled(plan, s.rows) && Deciding(b, plan, s, t, m, next, children, at, changed)
    requires m < |Readied(StatesOf(plan, s.rows), |plan.processes|)| && i == ReadiedAt(StatesOf(plan, s.rows), |plan.processes|)[m]
    requires ChildSound(b, plan, s.rows, child, i)
    ensures Deciding(b, plan, s, t, m + 1, i + 1, children + [child], at + [i], changed)
  {
    var states := StatesOf(plan, s.rows);
    ReadiedPositions(states, |plan.processes|);
    assert Readied(states, |plan.processes|)[m].processId == child.id;
    AppendChild(b, plan, s.rows, t.rows, children, at, child, i);
    DecisionKeepsLater(plan, s.rows, t.rows, t.rows, m);
  }

  /** A skip moves only its own row. */
  lemma DecidingSkip(b: Boundary, plan: Plan, s: Store, t: Store, u: Store, m: nat, next: nat, children: seq<Child>, at: seq<nat>, changed: bool, i: nat)
    requires Distinct(plan) && Scheduled(plan, s.rows) && Deciding(b, plan, s, t, m, next, children, at, changed)
    requires m < |Readied(StatesOf(plan, s.rows), |plan.processes|)| && i == ReadiedAt(StatesOf(plan, s.rows), |plan.processes|)[m]
    requires i < |plan.processes| && Progress(b, plan, s, u) && PendingIds(plan, u.rows) <= PendingIds(plan, t.rows)
    requires PendingIds(plan, u.rows) < PendingIds(plan, t.rows) || SomeStuck(b, plan, u)
    requires s.rows.Keys == t.rows.Keys == u.rows.Keys && NoneReadied(s.rows, u.rows)
    requires forall id :: id in s.rows && id != plan.processes[i].id ==> u.rows[id] == t.rows[id]
    ensures Deciding(b, plan, s, u, m + 1, i + 1, children, at, true)
  {
    hide Progress, Distinct, ChildrenSound, Coherent, PendingIds, Unmoved;
    var states := StatesOf(plan, s.rows);
    ReadiedPositions(states, |plan.processes|);
    assert Readied(states, |plan.processes|)[m].processId == plan.processes[i].id;
    SkipKeepsChildren(b, plan, s.rows, t.rows, u.rows, children, at, i);
    DecisionKeepsLater(plan, s.rows, t.rows, u.rows, m);
  }

  /** Decide the next released process and record the outcome. */
  method DecideNext(b: Boundary, plan: Plan, j: RunJournal, states: seq<ExecutionState>, state: ExecutionState, children: seq<Child>, changed: bool,
                    ghost s: Store, ghost m: nat, ghost next: nat, ghost at: seq<nat>)
    returns (r: Outcome<seq<Child>>, changed': bool, ghost next': nat, ghost at': seq<nat>)
    requires Advanceable(plan) && Scheduled(plan, s.rows) && states == StatesOf(plan, s.rows)
    requires Deciding(b, plan, s, j.Contents(), m, next, children, at, changed)
    requires m < |Readied(states, |plan.processes|)| && state == Readied(states, |plan.processes|)[m]
    modifies j
    ensures Progress(b, plan, s, j.Contents())
    ensures r.Ok? ==> Deciding(b, plan, s, j.Contents(), m + 1, next', r.value, at', changed')
    ensures r.Raise? ==> SomeRaise(b, plan, s)
  {
    hide Progress, ChildrenSound, PendingIds, Coherent, Unmoved, Released, Earlier;
    ReadiedPositions(states, |plan.processes|);
    ghost var i, t := ReadiedAt(states, |plan.processes|)[m], j.Contents();
    EligibleIsReleased(plan, s.rows, i);
    changed', next', at' := changed, i + 1, at;
    var decided := DecideOne(b, plan, j, states, state, s, i);
    if decided.Raise? { return Raise(decided.code), changed', next', at'; }
    if decided.value.Some? {
      DecidingChild(b, plan, s, t, m, next, children, at, changed, decided.value.value, i);
      r, at' := Ok(children + [decided.value.value]), at + [i];
    } else {
      ProgressFrozen(b, plan, s, t);
      ProgressFrozen(b, plan, s, j.Contents());
      SkipReadiesNone(s.rows, t.rows, j.rows, state.processId);
      DecidingSkip(b, plan, s, t, j.Contents(), m, next, children, at, changed, i);
      r, changed' := Ok(children), true;
    }
  }

  /** All decisions of one round; skips are durable at once, readied children are collected. */
  method DecideReadied(b: Boundary, plan: Plan, j: RunJournal, states: seq<ExecutionState>, readied: seq<ExecutionState>)
    returns (r: Outcome<seq<Child>>, changed: bool, ghost at: seq<nat>)
    requires Advanceable(plan) && Scheduled(plan, j.rows) && states == StatesOf(plan, j.rows)
    requires readied == Readied(states, |plan.processes|)
    modifies j
    ensures Progress(b, plan, old(j.Contents()), j.Contents())
    ensures r.Ok? ==> exists next :: Deciding(b, plan, old(j.Contents()), j.Contents(), |readied|, next, r.value, at, changed)
    ensures r.Raise? ==> SomeRaise(b, plan, old(j.Contents()))
  {
    hide Deciding, Progress, Advanceable, Scheduled, Readied, ReadiedAt;
    ghost var s, next := j.Contents(), 0;
    DecidingStarts(b, plan, s);
    ProgressSelf(b, plan, s);
    r, changed, at := Ok([]), false, [];
    for m := 0 to |readied|
      invariant r.Ok? && Deciding(b, plan, s, j.Contents(), m, next, r.value, at, changed)
      invariant Progress(b, plan, s, j.Contents())
    {
      r, changed, next, at := DecideNext(b, plan, j, states, readied[m], r.value, changed, s, m, next, at);
      if r.Raise? { return; }
    }
  }

  lemma ReadiedInPlan(plan: Plan, rows: Rows)
    requires Scheduled(plan, rows)
    ensures LaterUnmoved(rows, rows, Readied(StatesOf(plan, rows), |plan.processes|), 0)
  {
    var states := StatesOf(plan, rows);
    ReadiedPositions(states, |states|);
    forall k | 0 <= k < |Readied(states, |states|)| ensures Readied(states, |states|)[k].processId in rows {
      assert plan.processes[ReadiedAt(states, |states|)[k]] in plan.processes;
    }
  }

  /** `_wait_diagnostic`: a plain wait is recorded as such when no cycle was found. */
  function WaitOf(computed: AdvancePlan): WaitDiagnostic {
    if computed.diagnostic.code != "" then computed.diagnostic
    else if computed.blocked == [] then WaitDiagnostic([], false, "")
    else WaitDiagnostic(ProcessesOf(computed.blocked), false, "wait_graph_unavailable")
  }

  /** The diagnosis of these states: the processes on a blocked cycle, else every process that waits. */
  ghost function WaitFor(states: seq<ExecutionState>): WaitDiagnostic {
    var blocked := Diagnosed(states);
    var named := Named(states, blocked, |blocked|);
    if named != [] then WaitDiagnostic(named, true, "feedback_cycle_wait")
    else if blocked == [] then WaitDiagnostic([], false, "")
    else WaitDiagnostic(ProcessesOf(blocked), false, "wait_graph_unavailable")
  }

  function ProcessesOf(blocked: seq<Blocked>): (ids: seq<string>)
    ensures |ids| == |blocked|
    ensures forall i :: 0 <= i < |ids| ==> ids[i] == blocked[i].processId
  {
    seq(|blocked|, i requires 0 <= i < |blocked| => blocked[i].processId)
  }

  /** The row carries the marker of the diagnosis, and is one of the deadlocked processes it names. */
  ghost predicate CarriesDiagnosis(plan: Plan, rows: Rows, id: string)
    requires Scheduled(plan, rows) && id in rows
  {
    var d := WaitFor(StatesOf(plan, rows));
    && d.deadlocked && d.code == "feedback_cycle_wait" && id in d.blockedProcessIds && rows[id].status.Pending?
    && rows[id].metadata.Obj? && WAIT_MARKER in rows[id].metadata.fields && SaysWait(rows[id].metadata.fields[WAIT_MARKER], d)
  }

  /** The diagnosis of a wait: the deadlocked processes, else every process that waits. */
  ghost predicate ReportsWait(states: seq<ExecutionState>, blocked: seq<Blocked>, d: WaitDiagnostic) {
    && (d.deadlocked <==> exists s :: Deadlocked(states, s))
    && (d.deadlocked ==> d.code == "feedback_cycle_wait" && ReportsDeadlock(states, d.blockedProcessIds))
    && (!d.deadlocked ==> d.code == (if blocked == [] then "" else "wait_graph_unavailable") && d.blockedProcessIds == ProcessesOf(blocked))
  }

  /** The wait of an advancement, told from the rows it leaves. */
  ghost predicate WaitOnRecord(plan: Plan, rows: Rows, blocked: seq<Blocked>, d: WaitDiagnostic) {
    MarksFirst(rows, d) && exists states :: Shows(plan, rows, states) && ReportsBlocked(states, blocked) && ReportsWait(states, blocked, d)
  }

  lemma WaitIsReported(states: seq<ExecutionState>)
    ensures ReportsBlocked(states, Diagnosed(states)) && ReportsWait(states, Diagnosed(states), WaitFor(states))
  {
    SweepExact(states);
    var blocked := Diagnosed(states);
    var named := Named(states, blocked, |blocked|);
    hide Diagnosed, Named, ReportsBlocked, Deadlocked;
    if named != [] { assert named[0] in named; }
    if s :| Deadlocked(states, s) { assert s.processId in named; }
  }

  lemma WaitStandsOnRecord(plan: Plan, rows: Rows)
    requires Scheduled(plan, rows) && Markable(rows) && rows == MarkRows(rows, WaitFor(StatesOf(plan, rows)))
    ensures WaitOnRecord(plan, rows, Diagnosed(StatesOf(plan, rows)), WaitFor(StatesOf(plan, rows)))
  {
    StatesShow(plan, rows);
    WaitIsReported(StatesOf(plan, rows));
    MarkedFirst(rows, WaitFor(StatesOf(plan, rows)));
    hide Shows, ReportsBlocked, ReportsWait, MarksFirst, Diagnosed, WaitFor;
  }

  /** A standstill is reported: the rows an advancement leaves then hold the marker of a deadlock, on a process of it. */
  lemma StandstillIsMarked(plan: Plan, rows: Rows)
    requires Distinct(plan) && Scheduled(plan, rows) && Standstill(StatesOf(plan, rows))
    requires Markable(rows) && rows == MarkRows(rows, WaitFor(StatesOf(plan, rows)))
    ensures exists id :: id in rows && CarriesDiagnosis(plan, rows, id)
  {
    var states := StatesOf(plan, rows);
    StatesAreDistinct(plan, rows);
    StandstillIsNamed(states);
    DiagnosisExact(states);
    var d := WaitFor(states);
    var id := d.blockedProcessIds[0];
    assert id in d.blockedProcessIds;
    var s :| CycleBlocked(states, s) && s.processId == id;
    var i :| 0 <= i < |states| && states[i] == s;
    assert plan.processes[i] in plan.processes && plan.processes[i].id == id;
    OneMarker(rows, d);
    MarkerSays(d);
    hide MarkerOf, SaysWait, CycleBlocked, Diagnosed, Named;
    assert CarriesDiagnosis(plan, rows, id);
  }

  datatype RoundResult = RoundResult(computed: AdvancePlan, wait: WaitDiagnostic, promoted: seq<string>, changed: bool)

  /** The durable moves of one round: skips as decided, then all readied children at once. */
  method MoveReadied(b: Boundary, plan: Plan, j: RunJournal, states: seq<ExecutionState>, readied: seq<ExecutionState>)
    returns (r: Outcome<seq<Child>>, changed: bool)
    requires Advanceable(plan) && Scheduled(plan, j.rows) && states == StatesOf(plan, j.rows)
    requires readied == Readied(states, |plan.processes|)
    modifies j
    ensures Progress(b, plan, old(j.Contents()), j.Contents())
    ensures r.Ok? && !changed ==> r.value == [] && readied == [] && j.Contents() == old(j.Contents())
    ensures r.Ok? && changed ==> PendingIds(plan, j.rows) < PendingIds(plan, old(j.rows)) || SomeStuck(b, plan, j.Contents())
    ensures r.Ok? && Coherent(old(j.Contents())) ==> Readies(old(j.rows), j.rows, ChildIds(r.value))
    ensures r.Raise? ==> SomeRaise(b, plan, old(j.Contents()))
  {
    ghost var s := j.Contents();
    ghost var at;
    r, changed, at := DecideReadied(b, plan, j, states, readied);
    if r.Raise? { return; }
    ghost var mid := j.Contents();
    if |r.value| > 0 {
      ChildrenApply(b, plan, s.rows, mid, r.value, at);
      var applied := j.ApplyChildren(r.value);
      assert applied.Ok?;
      BatchProgress(b, plan, s, mid, r.value, at);
      if Coherent(s) {
        BatchMoves(b, plan, s.rows, mid, r.value, at);
        ChildrenPending(b, plan, s.rows, r.value, at);
        BatchReadies(s.rows, mid, r.value);
      }
      changed := true;
    }
  }

  lemma NothingReleased(plan: Plan, rows: Rows)
    requires Advanceable(plan) && Scheduled(plan, rows) && Readied(StatesOf(plan, rows), |plan.processes|) == []
    ensures forall i :: 0 <= i < |plan.processes| ==> !Released(plan, CoresOf(rows), i)
  {
    var states := StatesOf(plan, rows);
    ReadiedMembers(states, |states|);
    forall i | 0 <= i < |plan.processes| ensures !Released(plan, CoresOf(rows), i) {
      EligibleIsReleased(plan, rows, i);
      assert states[i] in states[..|states|];
    }
  }

  /** Wait markers are invisible to the states. */
  lemma MarkedStates(plan: Plan, rows: Rows, d: WaitDiagnostic)
    requires Scheduled(plan, rows) && Markable(rows)
    ensures Scheduled(plan, MarkRows(rows, d)) && StatesOf(plan, MarkRows(rows, d)) == StatesOf(plan, rows)
    ensures forall id :: id in rows ==> MarkRows(rows, d)[id].status == rows[id].status
  {
    forall i | 0 <= i < |plan.processes| ensures StatesOf(plan, MarkRows(rows, d))[i] == StatesOf(plan, rows)[i] {
      assert plan.processes[i] in plan.processes;
    }
  }

  lemma MarkedReadies(s: Rows, rows: Rows, d: WaitDiagnostic, ids: seq<string>)
    requires Markable(rows) && Readies(s, rows, ids)
    ensures Readies(s, MarkRows(rows, d), ids)
  {
  }

  lemma MarkedPresentable(b: Boundary, plan: Plan, rows: Rows, d: WaitDiagnostic)
    requires Scheduled(plan, rows) && Markable(rows) && AllPresentable(b, plan, rows)
    ensures Scheduled(plan, MarkRows(rows, d)) && AllPresentable(b, plan, MarkRows(rows, d))
  {
    forall item | item in plan.processes ensures Presentable(b, item, MarkRows(rows, d)[item.id]) {
      assert Presentable(b, item, rows[item.id]);
    }
  }

  /** One pass of the fixed-point loop. */
  method Round(b: Boundary, plan: Plan, j: RunJournal) returns (r: Outcome<RoundResult>)
    requires Advanceable(plan) && Scheduled(plan, j.rows)
    modifies j
    ensures Progress(b, plan, old(j.Contents()), j.Contents())
    ensures r.Ok? && !r.value.changed ==>
      r.value.promoted == [] && forall i :: 0 <= i < |plan.processes| ==> !Released(plan, CoresOf(j.rows), i)
    ensures r.Ok? && r.value.changed ==> PendingIds(plan, j.rows) < PendingIds(plan, old(j.rows)) || SomeStuck(b, plan, j.Contents())
    ensures r.Ok? && !r.value.changed ==> r.value.computed.blocked == Diagnosed(StatesOf(plan, j.rows))
    ensures r.Ok? && !r.value.changed ==> r.value.wait == WaitFor(StatesOf(plan, j.rows)) && AllPresentable(b, plan, j.rows)
    ensures r.Ok? && Coherent(old(j.Contents())) ==> Readies(old(j.rows), j.rows, r.value.promoted)
    ensures r.Ok? ==> Markable(j.rows) && j.rows == MarkRows(j.rows, r.value.wait)
    ensures r.Raise? ==> SomeRaise(b, plan, old(j.Contents()))
  {
    hide Progress, Scheduled, Diagnosed, Released, Coherent, PendingIds, Projected, Named, Readies, MarkRows, StatesOf, Readied, Markable, Held, Eligible, CannotMove;
    ghost var s := j.Contents();
    ProgressSelf(b, plan, s);
    var loaded := LoadStates(b, plan, j.rows);
    if loaded.Raise? {
      RaisesNow(b, plan, s);
      return Raise(loaded.code);
    }
    var states := loaded.value;
    var computed := AdvanceStates(states);
    var moved, changed := MoveReadied(b, plan, j, states, computed.readied);
    if moved.Raise? { return Raise(moved.code); }
    ghost var before := j.Contents();
    ProgressScheduled(b, plan, s, before);
    var wait := WaitOf(computed);
    var marked := j.PersistWaitDiagnostic(wait);
    if marked.Raise? {
      RaisesNow(b, plan, before);
      ProgressRaises(b, plan, s, before);
      return Raise(marked.code);
    }
    MarkProgress(b, plan, before, wait);
    OneMarker(before.rows, wait);
    ProgressTransitive(b, plan, s, before, j.Contents());
    MarkedStates(plan, before.rows, wait);
    if Coherent(s) { MarkedReadies(s.rows, before.rows, wait, ChildIds(moved.value)); }
    if !changed {
      NothingReleased(plan, s.rows);
      MarkedPresentable(b, plan, before.rows, wait);
    }
    if SomeStuck(b, plan, before) { SomeStuckStays(b, plan, before, j.Contents()); }
    r := Ok(RoundResult(computed, wait, ChildIds(moved.value), changed));
  }

  // ---------------------------------------------------------------- the fixed point

  datatype AdvanceResult =
    | Advanced(promoted: seq<string>, blocked: seq<Blocked>, diagnostic: WaitDiagnostic, replayed: bool)
    | Invalid(fault: Fault)
    | Refused(code: string)
    | Interrupted(code: string)
    | Nonconvergent

  /** `_validate`'s checks on the JSON parts of one item. */
  predicate AuthoredShape(item: ProcessPlan) {
    && item.input.Obj? && item.config.Obj? && item.outputSchema.Obj?
    && (item.input.fields.Keys - INJECTED_KEYS) !! {"adapter", "config", "", CONFIG, SCHEMA, CONDUCTION, TIMEOUT}
  }

  /** The plan's own numbers and effector ids stand in its metadata, and its inputs have names an advancement accepts. */
  ghost predicate SelfDescribed(plan: Plan) {
    forall item :: item in plan.processes ==>
      && AuthoredShape(item)
      && item.metadata.Obj?
      && "seq" in item.metadata.fields && item.metadata.fields["seq"] == Int(item.declarationSeq)
      && "effector_id" in item.metadata.fields && item.metadata.fields["effector_id"] == Str(item.effectorId)
  }

  lemma ReadiesThen(b: Boundary, plan: Plan, s: Store, t: Store, u: Store, first: seq<string>, then_: seq<string>)
    requires Moves(b, plan, s, t) && Moves(b, plan, t, u)
    requires Readies(s.rows, t.rows, first) && Readies(t.rows, u.rows, then_)
    ensures Readies(s.rows, u.rows, first + then_)
  {
    forall id | id in s.rows ensures id in first + then_ <==> s.rows[id].status.Pending? && u.rows[id].status.Ready? {
      assert KeptRow(s.rows[id], t.rows[id]) && KeptRow(t.rows[id], u.rows[id]);
    }
  }

  /** Such rows exist: one pending process without upstreams, under a recorded readiness. */
  lemma StuckRowsExist(b: Boundary, item: ProcessPlan, row: Row, plan: Plan, s: Store)
    requires item.conduction == [] && item.when.None? && row.status.Pending?
    requires plan.processes == [item] && s == Store(map[item.id := row], map[ReadyCommand(item.id) := Null])
    ensures Stuck(b, plan, s, 0) && !Coherent(s) && BoundFails(b, plan, s)
  {
    assert CoresOf(s.rows)[item.id].status.Pending?;
    assert ReadyCommand(item.id) in s.commands;
    UnconditionalBound(b, plan, s);
  }

  /** Of the plans that can be persisted, advancement refuses those whose inputs use one of five more names. */
  lemma ShapeOfAuthored(b: Boundary, item: ProcessPlan)
    requires AuthoredInput(item).Ok? && MetadataFor(b, item).Ok?
    ensures AuthoredShape(item) <==> item.input.fields.Keys !! {"", CONFIG, SCHEMA, CONDUCTION, TIMEOUT}
  {
    var keys, five := item.input.fields.Keys, {"", CONFIG, SCHEMA, CONDUCTION, TIMEOUT};
    assert keys - INJECTED_KEYS == keys;
    assert keys !! five <==> keys !! {"adapter", "config"} + five;
    assert {"adapter", "config"} + five == {"adapter", "config", "", CONFIG, SCHEMA, CONDUCTION, TIMEOUT};
  }

  /** The rows a plan can be advanced on: every item is well formed and has a row that is its own. */
  ghost predicate Admissible(b: Boundary, plan: Plan, rows: Rows) {
    && (forall item :: item in plan.processes ==> AuthoredShape(item))
    && (forall item :: item in plan.processes ==> item.id in rows && SameDurableRow(b, rows[item.id], item) == Ok(true))
  }

  /** The checks before anything is written: the plan, the JSON of its items, and the rows that are there. */
  method Admit(b: Boundary, plan: Plan, rows: Rows) returns (refusal: Option<AdvanceResult>)
    ensures refusal.Some? ==> refusal.value.Invalid? || refusal.value.Refused?
    ensures refusal.Some? && refusal.value.Invalid? <==> !Advanceable(plan)
    ensures refusal.None? <==> Advanceable(plan) && Admissible(b, plan, rows)
  {
    var fault := ValidateForAdvance(plan);
    if !fault.NoFault? { return Some(Invalid(fault)); }
    hide SameDurableRow, AuthoredShape, Advanceable;
    for k := 0 to |plan.processes|
      invariant forall l :: 0 <= l < k ==> AuthoredShape(plan.processes[l])
    {
      assert plan.processes[k] in plan.processes;
      if !AuthoredShape(plan.processes[k]) { return Some(Refused("invalid_input")); }
    }
    for k := 0 to |plan.processes|
      invariant forall l :: 0 <= l < k ==>
        plan.processes[l].id in rows && SameDurableRow(b, rows[plan.processes[l].id], plan.processes[l]) == Ok(true)
    {
      var item := plan.processes[k];
      assert item in plan.processes;
      if item.id !in rows { return Some(Refused("missing_plan")); }
      var same := SameDurableRow(b, rows[item.id], item);
      if same.Raise? { return Some(Refused(same.code)); }
      if !same.value { return Some(Refused("duplicate_conflict")); }
    }
    refusal := None;
  }

  /** correlation_advance's `advance_correlation`. */
  method AdvanceCorrelation(b: Boundary, plan: Plan, j: RunJournal) returns (r: AdvanceResult)
    modifies j
    ensures r.Invalid? <==> !Advanceable(plan)
    ensures r.Refused? <==> Advanceable(plan) && !Admissible(b, plan, old(j.rows))
    ensures r.Invalid? || r.Refused? ==> j.Contents() == old(j.Contents())
    // Whatever the outcome, rows moved only by single steps of released processes.
    ensures !r.Invalid? && !r.Refused? ==> Scheduled(plan, old(j.rows)) && Progress(b, plan, old(j.Contents()), j.Contents())
    // Whoever was moved was decided: readied with what its upstreams conduct, or skipped on a missed condition.
    ensures !r.Invalid? && !r.Refused? ==> DecidedRows(b, plan, old(j.rows), j.rows)
    ensures !r.Invalid? && !r.Refused? && Settled(plan, old(j.rows)) ==> ReadiedInFull(b, plan, old(j.rows), j.rows)
    // It is interrupted only where single steps lead to a journal that raises.
    ensures r.Interrupted? ==> SomeRaise(b, plan, old(j.Contents()))
    // It runs out of rounds only where steps with commands to write lead to a released row with its command on record.
    ensures r.Nonconvergent? ==> BoundFails(b, plan, old(j.Contents())) && SomeStuck(b, plan, j.Contents())
    // Elsewhere it completes, and it completes nowhere else.
    ensures Advanceable(plan) && Admissible(b, plan, old(j.rows)) && !SomeRaise(b, plan, old(j.Contents())) && !BoundFails(b, plan, old(j.Contents()))
      ==> r.Advanced?
    ensures r.Advanced? ==> !BoundFails(b, plan, old(j.Contents())) && !SomeStuck(b, plan, j.Contents())
    ensures SomeStuck(b, plan, old(j.Contents())) ==> !r.Advanced?
    ensures Coherent(old(j.Contents())) ==> !r.Nonconvergent?
    ensures r.Advanced? && (Settled(plan, old(j.rows)) || NoneAccumulates(plan)) ==> !SomeRaise(b, plan, old(j.Contents()))
    // A completed advancement leaves nothing released: nobody is due, and every miss is skipped.
    ensures r.Advanced? ==> forall i :: 0 <= i < |plan.processes| ==> !Released(plan, CoresOf(j.rows), i)
    ensures r.Advanced? ==> NoneDue(plan, j.rows) && MissesSkipped(plan, old(j.rows), j.rows)
    // What it reports is the diagnosis of the final rows, and the one wait marker left behind says the same.
    ensures r.Advanced? ==> r.blocked == Diagnosed(StatesOf(plan, j.rows)) && r.diagnostic == WaitFor(StatesOf(plan, j.rows))
    ensures r.Advanced? ==> Markable(j.rows) && j.rows == MarkRows(j.rows, r.diagnostic)
    ensures r.Advanced? ==> WaitOnRecord(plan, j.rows, r.blocked, r.diagnostic)
    ensures r.Advanced? && Coherent(old(j.Contents())) ==> Readies(old(j.rows), j.rows, r.promoted)
    ensures r.Advanced? ==> (r.replayed <==> plan.replayed || r.promoted == [])
  {
    hide WaitOnRecord, DecidedRows, ReadiedInFull, NoneDue, MissesSkipped;
    var refusal := Admit(b, plan, j.rows);
    if refusal.Some? { return refusal.value; }
    ghost var s := j.Contents();
    r := Rounds(b, plan, j);
    ProgressDecides(b, plan, s, j.Contents());
    if Coherent(s) { CoherentBoundHolds(b, plan, s); }
    if SomeStuck(b, plan, s) { SomeStuckStays(b, plan, s, j.Contents()); }
    if r.Nonconvergent? { StuckMeansBoundFails(b, plan, s, j.Contents()); }
    if r.Advanced? {
      WaitStandsOnRecord(plan, j.rows);
      NothingReleasedNoneDue(plan, j.rows);
      MissIsSkipped(b, plan, s.rows, j.rows);
      QuietMeansBoundHolds(b, plan, s, j.Contents());
      if Settled(plan, s.rows) || NoneAccumulates(plan) { QuietMeansNoRaise(b, plan, s, j.Contents()); }
    }
  }

  /** The rounds, as many as there are processes and one more. */
  method Rounds(b: Boundary, plan: Plan, j: RunJournal) returns (r: AdvanceResult)
    requires Advanceable(plan) && Scheduled(plan, j.rows)
    modifies j
    ensures r.Advanced? || r.Interrupted? || r.Nonconvergent?
    ensures Progress(b, plan, old(j.Contents()), j.Contents())
    ensures r.Interrupted? ==> SomeRaise(b, plan, old(j.Contents()))
    ensures r.Nonconvergent? ==> SomeStuck(b, plan, j.Contents())
    ensures r.Advanced? ==> forall i :: 0 <= i < |plan.processes| ==> !Released(plan, CoresOf(j.rows), i)
    ensures r.Advanced? ==> r.blocked == Diagnosed(StatesOf(plan, j.rows)) && r.diagnostic == WaitFor(StatesOf(plan, j.rows))
    ensures r.Advanced? ==> AllPresentable(b, plan, j.rows) && Markable(j.rows) && j.rows == MarkRows(j.rows, r.diagnostic)
    ensures r.Advanced? && Coherent(old(j.Contents())) ==> Readies(old(j.rows), j.rows, r.promoted)
    ensures r.Advanced? ==> (r.replayed <==> plan.replayed || r.promoted == [])
  {
    ghost var s := j.Contents();
    ProgressSelf(b, plan, s);
    PendingBound(plan, j.rows);
    var promoted: seq<string> := [];
    var blocked, diagnostic := [], WaitDiagnostic([], false, "");
    var changed, rounds := true, 0;
    while changed && rounds <= |plan.processes|
      invariant 0 <= rounds <= |plan.processes| + 1
      invariant Progress(b, plan, s, j.Contents())
      invariant !changed ==> forall i :: 0 <= i < |plan.processes| ==> !Released(plan, CoresOf(j.rows), i)
      invariant changed && !SomeStuck(b, plan, j.Contents()) ==> |PendingIds(plan, j.rows)| + rounds <= |plan.processes|
      invariant !changed ==> blocked == Diagnosed(StatesOf(plan, j.rows)) && diagnostic == WaitFor(StatesOf(plan, j.rows))
      invariant !changed ==> AllPresentable(b, plan, j.rows) && Markable(j.rows) && j.rows == MarkRows(j.rows, diagnostic)
      invariant Coherent(s) ==> Readies(s.rows, j.rows, promoted)
      decreases |plan.processes| + 1 - rounds
    {
      hide Stuck, Diagnosed, MarkRows, Markable, Released, Readies, Moves, Settled, WaitFor, AllPresentable, InputsDirect, InputsMerged;
      rounds := rounds + 1;
      ghost var before := j.Contents();
      var round := Round(b, plan, j);
      ProgressTransitive(b, plan, s, before, j.Contents());
      if round.Raise? {
        ProgressRaises(b, plan, s, before);
        return Interrupted(round.code);
      }
      if Coherent(s) { ReadiesThen(b, plan, s, before, j.Contents(), promoted, round.value.promoted); }
      changed := round.value.changed;
      promoted := promoted + round.value.promoted;
      blocked, diagnostic := round.value.computed.blocked, round.value.wait;
      if changed && !SomeStuck(b, plan, j.Contents()) {
        if SomeStuck(b, plan, before) { SomeStuckStays(b, plan, before, j.Contents()); }
        SubsetSize(PendingIds(plan, j.rows), PendingIds(plan, before.rows));
      }
    }
    if changed { return Nonconvergent; }
    r := Advanced(promoted, blocked, diagnostic, plan.replayed || promoted == []);
  }
}
