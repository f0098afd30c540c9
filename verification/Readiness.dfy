/** Pure readiness and deadlock diagnosis over process projections (correlation.mojo). */
module Readiness {
  import opened JsonValue
  import opened ProcessStatus
  import opened ConductionGraph

  datatype ExecutionState = ExecutionState(
    processId: string, effectorId: string, status: Status, attempt: int, maxAttempts: int,
    output: Json, input: Json, conduction: seq<string>)

  datatype ConductionValue = ConductionValue(upstream: string, output: Json)

  datatype WaitReason = UnmetDependencies | FeedbackCycleWait

  datatype Blocked = Blocked(processId: string, effectorId: string, unmet: seq<string>, reason: WaitReason)

  datatype WaitDiagnostic = WaitDiagnostic(blockedProcessIds: seq<string>, deadlocked: bool, code: string)

  datatype AdvancePlan = AdvancePlan(
    readied: seq<ExecutionState>, conduction: seq<ConductionValue>, blocked: seq<Blocked>, diagnostic: WaitDiagnostic)

  const UPSTREAM_NOT_FOUND := Obj(map[
    "error" := Str("upstream_not_found"),
    "message" := Str("upstream effector was not instantiated or is missing")])

  function Nodes(states: seq<ExecutionState>): (nodes: seq<Node>)
    ensures |nodes| == |states|
    ensures forall i :: 0 <= i < |states| ==> nodes[i] == Node(states[i].effectorId, states[i].conduction)
  {
    seq(|states|, i requires 0 <= i < |states| => Node(states[i].effectorId, states[i].conduction))
  }

  method FindState(states: seq<ExecutionState>, effectorId: string) returns (index: int)
    ensures index == IndexOf(Nodes(states), effectorId)
  {
    index := -1;
    for i := 0 to |states|
      invariant index == -1
      invariant forall j :: 0 <= j < i ==> states[j].effectorId != effectorId
    {
      if states[i].effectorId == effectorId {
        index := i;
        break;
      }
    }
  }

  /** A declared upstream that has not finished; an undeclared one does not hold anybody back. */
  predicate Unfinished(states: seq<ExecutionState>, upstream: string) {
    var i := IndexOf(Nodes(states), upstream);
    i >= 0 && !Terminal(states[i].status)
  }

  function Unmet(states: seq<ExecutionState>, conduction: seq<string>): seq<string> {
    if conduction == [] then []
    else (if Unfinished(states, conduction[0]) then [conduction[0]] else []) + Unmet(states, conduction[1..])
  }

  function Values(states: seq<ExecutionState>, conduction: seq<string>): seq<ConductionValue> {
    if conduction == [] then [] else ValueOf(states, conduction[0]) + Values(states, conduction[1..])
  }

  lemma {:induction false} UnmetMembers(states: seq<ExecutionState>, conduction: seq<string>)
    ensures forall u :: u in Unmet(states, conduction) <==> u in conduction && Unfinished(states, u)
  {
    if conduction != [] {
      UnmetMembers(states, conduction[1..]);
    }
  }

  lemma {:induction false} UnmetSnoc(states: seq<ExecutionState>, conduction: seq<string>, k: nat)
    requires k < |conduction|
    ensures Unmet(states, conduction[..k + 1])
         == Unmet(states, conduction[..k]) + (if Unfinished(states, conduction[k]) then [conduction[k]] else [])
    decreases k
  {
    hide Unfinished;
    if k > 0 {
      UnmetSnoc(states, conduction[1..], k - 1);
      assert conduction[..k + 1][1..] == conduction[1..][..k];
      assert conduction[..k][1..] == conduction[1..][..k - 1];
    } else {
      assert conduction[..1] == [conduction[0]];
    }
  }

  /** The value one upstream contributes, if it has one. */
  function ValueOf(states: seq<ExecutionState>, upstream: string): seq<ConductionValue> {
    var i := IndexOf(Nodes(states), upstream);
    if i < 0 then [ConductionValue(upstream, UPSTREAM_NOT_FOUND)]
    else if Terminal(states[i].status) then [ConductionValue(upstream, states[i].output)]
    else []
  }

  lemma {:induction false} ValuesSnoc(states: seq<ExecutionState>, conduction: seq<string>, k: nat)
    requires k < |conduction|
    ensures Values(states, conduction[..k + 1]) == Values(states, conduction[..k]) + ValueOf(states, conduction[k])
    decreases k
  {
    hide ValueOf;
    if k > 0 {
      ValuesSnoc(states, conduction[1..], k - 1);
      assert conduction[..k + 1][1..] == conduction[1..][..k];
      assert conduction[..k][1..] == conduction[1..][..k - 1];
    } else {
      assert conduction[..1] == [conduction[0]];
    }
  }

  // ---------------------------------------------------------------- one sweep over the states

  predicate Eligible(states: seq<ExecutionState>, s: ExecutionState) {
    s.status.Pending? && Unmet(states, s.conduction) == []
  }

  predicate Held(states: seq<ExecutionState>, s: ExecutionState) {
    s.status.Pending? && Unmet(states, s.conduction) != []
  }

  /** The eligible states among the first `k`, in declaration order. */
  function Readied(states: seq<ExecutionState>, k: nat): seq<ExecutionState>
    requires k <= |states|
  {
    if k == 0 then [] else Readied(states, k - 1) + if Eligible(states, states[k - 1]) then [states[k - 1]] else []
  }

  function Projected(states: seq<ExecutionState>, k: nat): seq<ConductionValue>
    requires k <= |states|
  {
    if k == 0 then []
    else Projected(states, k - 1) + if Eligible(states, states[k - 1]) then Values(states, states[k - 1].conduction) else []
  }

  function HeldBack(states: seq<ExecutionState>, k: nat): seq<Blocked>
    requires k <= |states|
  {
    if k == 0 then []
    else
      var s := states[k - 1];
      HeldBack(states, k - 1)
      + if Held(states, s) then [Blocked(s.processId, s.effectorId, Unmet(states, s.conduction), UnmetDependencies)] else []
  }

  function EffectorsOf(blocked: seq<Blocked>): (ids: seq<string>)
    ensures |ids| == |blocked|
    ensures forall i :: 0 <= i < |blocked| ==> ids[i] == blocked[i].effectorId
  {
    seq(|blocked|, i requires 0 <= i < |blocked| => blocked[i].effectorId)
  }

  lemma {:induction false} ReadiedMembers(states: seq<ExecutionState>, k: nat)
    requires k <= |states|
    ensures forall s :: s in Readied(states, k) <==> s in states[..k] && Eligible(states, s)
    decreases k
  {
    if k > 0 {
      ReadiedMembers(states, k - 1);
      assert states[..k] == states[..k - 1] + [states[k - 1]];
    }
  }

  /** The positions of the eligible states among the first `k`. */
  ghost function ReadiedAt(states: seq<ExecutionState>, k: nat): seq<nat>
    requires k <= |states|
  {
    if k == 0 then [] else ReadiedAt(states, k - 1) + if Eligible(states, states[k - 1]) then [k - 1] else []
  }

  lemma {:induction false} ReadiedPositions(states: seq<ExecutionState>, k: nat)
    requires k <= |states|
    ensures |ReadiedAt(states, k)| == |Readied(states, k)|
    ensures forall j :: 0 <= j < |Readied(states, k)| ==>
      ReadiedAt(states, k)[j] < k && Readied(states, k)[j] == states[ReadiedAt(states, k)[j]] && Eligible(states, Readied(states, k)[j])
    ensures forall j, l :: 0 <= j < l < |ReadiedAt(states, k)| ==> ReadiedAt(states, k)[j] < ReadiedAt(states, k)[l]
    decreases k
  {
    if k > 0 { ReadiedPositions(states, k - 1); }
  }

  // ---------------------------------------------------------------- cycle membership

  /** A conduction cycle through `start` whose other members are all blocked. */
  ghost predicate OnBlockedCycle(nodes: seq<Node>, blocked: seq<string>, start: string) {
    exists p :: BlockedCycle(nodes, blocked, start, p)
  }

  ghost predicate BlockedCycle(nodes: seq<Node>, blocked: seq<string>, start: string, p: seq<string>) {
    WalkFromTo(nodes, p, start, start) && forall i :: 0 < i < |p| - 1 ==> p[i] in blocked
  }

  /** `p` leads from `start` to `b` through blocked effectors, `b` included. */
  ghost predicate BlockedWalk(nodes: seq<Node>, blocked: seq<string>, start: string, b: string, p: seq<string>) {
    |p| >= 1 && p[0] == start && p[|p| - 1] == b && Walk(nodes, p) && forall i :: 0 < i < |p| ==> p[i] in blocked
  }

  ghost predicate BlockedReach(nodes: seq<Node>, blocked: seq<string>, start: string, b: string) {
    exists p :: BlockedWalk(nodes, blocked, start, b, p)
  }

  lemma BlockedReachStep(nodes: seq<Node>, blocked: seq<string>, start: string, a: string, b: string)
    requires BlockedReach(nodes, blocked, start, a) && b in Upstreams(nodes, a)
    ensures b in blocked ==> BlockedReach(nodes, blocked, start, b)
    ensures b == start ==> OnBlockedCycle(nodes, blocked, start)
  {
    var p :| BlockedWalk(nodes, blocked, start, a, p);
    var q := p + [b];
    forall i | 0 <= i < |q| - 1 ensures q[i + 1] in Upstreams(nodes, q[i]) {}
    if b in blocked { assert BlockedWalk(nodes, blocked, start, b, q); }
    if b == start { assert BlockedCycle(nodes, blocked, start, q); }
  }

  /** The search has left nothing behind: visited effectors have no unexplored blocked upstream. */
  ghost predicate Explored(nodes: seq<Node>, blocked: seq<string>, start: string, visited: seq<string>, cursor: seq<string>) {
    forall v, u :: v in visited && u in Upstreams(nodes, v) ==> Accounted(blocked, start, visited, cursor, u)
  }

  ghost predicate Accounted(blocked: seq<string>, start: string, visited: seq<string>, cursor: seq<string>, u: string) {
    u != start && (u in blocked ==> u in visited || u in cursor)
  }

  /** Along any walk from `start` through blocked effectors, every next step is accounted for. */
  lemma {:induction false} ExploredAlongWalk(nodes: seq<Node>, blocked: seq<string>, start: string, visited: seq<string>, p: seq<string>, k: nat)
    requires Explored(nodes, blocked, start, visited, []) && start in visited
    requires Walk(nodes, p) && k < |p| - 1 && p[0] == start && forall i :: 0 < i < |p| - 1 ==> p[i] in blocked
    ensures p[k] in visited && Accounted(blocked, start, visited, [], p[k + 1])
    decreases k
  {
    if k > 0 {
      ExploredAlongWalk(nodes, blocked, start, visited, p, k - 1);
    }
    assert p[k + 1] in Upstreams(nodes, p[k]);
  }

  lemma ExploredMeansNoCycle(nodes: seq<Node>, blocked: seq<string>, start: string, visited: seq<string>)
    requires Explored(nodes, blocked, start, visited, []) && start in visited
    ensures !OnBlockedCycle(nodes, blocked, start)
  {
    forall p | WalkFromTo(nodes, p, start, start) && forall i :: 0 < i < |p| - 1 ==> p[i] in blocked
      ensures false
    {
      ExploredAlongWalk(nodes, blocked, start, visited, p, |p| - 2);
    }
  }

  ghost function Unvisited(start: string, blocked: seq<string>, visited: seq<string>): set<string> {
    {start} + (set b | b in blocked) - set v | v in visited
  }

  /** Everything waiting on the stack was reached through blocked effectors. */
  ghost predicate Waiting(nodes: seq<Node>, blocked: seq<string>, start: string, cursor: seq<string>) {
    forall c :: c in cursor ==> BlockedReach(nodes, blocked, start, c) && (c == start || c in blocked)
  }

  lemma WaitingGrows(nodes: seq<Node>, blocked: seq<string>, start: string, current: string, cursor: seq<string>, cursor': seq<string>)
    requires Waiting(nodes, blocked, start, cursor) && BlockedReach(nodes, blocked, start, current)
    requires forall c :: c in cursor' ==> c in cursor || (c in Upstreams(nodes, current) && c in blocked)
    ensures Waiting(nodes, blocked, start, cursor')
  {
    forall c | c in cursor' && c !in cursor ensures BlockedReach(nodes, blocked, start, c) {
      BlockedReachStep(nodes, blocked, start, current, c);
    }
  }

  lemma ExploredGrows(nodes: seq<Node>, blocked: seq<string>, start: string, visited: seq<string>, current: string,
                      cursor: seq<string>, cursor': seq<string>)
    requires Explored(nodes, blocked, start, visited, cursor + [current])
    requires forall c :: c in cursor ==> c in cursor'
    requires forall u :: u in Upstreams(nodes, current) ==> Accounted(blocked, start, visited + [current], cursor', u)
    ensures Explored(nodes, blocked, start, visited + [current], cursor')
  {
    forall v, u | v in visited + [current] && u in Upstreams(nodes, v)
      ensures Accounted(blocked, start, visited + [current], cursor', u)
    {
      if v in visited {
        assert Accounted(blocked, start, visited, cursor + [current], u);
        if u in blocked && u !in visited { assert u in cursor + [current]; }
      } else {
        assert v == current;
      }
    }
  }

  lemma ExploredSkips(nodes: seq<Node>, blocked: seq<string>, start: string, visited: seq<string>, current: string, cursor: seq<string>)
    requires Explored(nodes, blocked, start, visited, cursor + [current]) && current in visited
    ensures Explored(nodes, blocked, start, visited, cursor)
  {
    forall v, u | v in visited && u in Upstreams(nodes, v)
      ensures Accounted(blocked, start, visited, cursor, u)
    {
      assert Accounted(blocked, start, visited, cursor + [current], u);
      if u in blocked && u !in visited { assert u in cursor + [current]; }
    }
  }

  /** Look for `start` among the upstreams; otherwise push the blocked ones not yet visited. */
  method ExploreUpstreams(conduction: seq<string>, start: string, blocked: seq<string>, visited: seq<string>, cursor: seq<string>)
    returns (found: bool, cursor': seq<string>)
    ensures found <==> start in conduction
    ensures forall c :: c in cursor ==> c in cursor'
    ensures forall c :: c in cursor' ==> c in cursor || (c in conduction && c in blocked)
    ensures !found ==> forall u :: u in conduction && u in blocked ==> u in visited || u in cursor'
  {
    found, cursor' := false, cursor;
    for k := 0 to |conduction|
      invariant start !in conduction[..k]
      invariant forall c :: c in cursor ==> c in cursor'
      invariant forall c :: c in cursor' ==> c in cursor || (c in conduction && c in blocked)
      invariant forall j :: 0 <= j < k && conduction[j] in blocked ==> conduction[j] in visited || conduction[j] in cursor'
    {
      var upstream := conduction[k];
      if upstream == start { return true, cursor'; }
      if upstream in blocked && upstream !in visited {
        cursor' := cursor' + [upstream];
      }
    }
  }

  lemma SearchStarts(nodes: seq<Node>, blocked: seq<string>, start: string)
    ensures Explored(nodes, blocked, start, [], [start]) && BlockedReach(nodes, blocked, start, start)
  {
    assert BlockedWalk(nodes, blocked, start, start, [start]);
  }

  /** correlation.mojo's `_feedback_cycle_member`: a stack search that tolerates duplicate entries. */
  method FeedbackCycleMember(states: seq<ExecutionState>, start: string, blocked: seq<string>) returns (member: bool)
    ensures member <==> OnBlockedCycle(Nodes(states), blocked, start)
  {
    hide Explored, OnBlockedCycle, BlockedReach;
    ghost var nodes := Nodes(states);
    var cursor, visited: seq<string> := [start], [];
    SearchStarts(nodes, blocked, start);
    while |cursor| > 0
      invariant Waiting(nodes, blocked, start, cursor)
      invariant start in visited || start in cursor
      invariant Explored(nodes, blocked, start, visited, cursor)
      decreases |Unvisited(start, blocked, visited)|, |cursor|
    {
      var current := cursor[|cursor| - 1];
      ghost var popped := cursor;
      cursor := cursor[..|cursor| - 1];
      assert popped == cursor + [current];
      assert current in popped;
      if current in visited {
        ExploredSkips(nodes, blocked, start, visited, current, cursor);
        continue;
      }
      assert current in Unvisited(start, blocked, visited);
      assert Unvisited(start, blocked, visited + [current]) == Unvisited(start, blocked, visited) - {current};
      var index := FindState(states, current);
      var found, cursor' := false, cursor;
      if index >= 0 {
        found, cursor' := ExploreUpstreams(states[index].conduction, start, blocked, visited + [current], cursor);
      }
      if found {
        BlockedReachStep(nodes, blocked, start, current, start);
        return true;
      }
      WaitingGrows(nodes, blocked, start, current, cursor, cursor');
      ExploredGrows(nodes, blocked, start, visited, current, cursor, cursor');
      visited, cursor := visited + [current], cursor';
    }
    ExploredMeansNoCycle(nodes, blocked, start, visited);
    member := false;
  }

  // ---------------------------------------------------------------- the sweep and its diagnosis

  /** The wait each blocked process is reported with. */
  ghost function Diagnosed(states: seq<ExecutionState>): (blocked: seq<Blocked>)
    ensures |blocked| == |HeldBack(states, |states|)|
  {
    var held := HeldBack(states, |states|);
    seq(|held|, i requires 0 <= i < |held| =>
      if OnBlockedCycle(Nodes(states), EffectorsOf(held), held[i].effectorId)
      then held[i].(reason := FeedbackCycleWait) else held[i])
  }

  /** Process ids of the first `k` blocked entries that stand on a cycle of blocked effectors. */
  ghost function Named(states: seq<ExecutionState>, blocked: seq<Blocked>, k: nat): seq<string>
    requires k <= |blocked|
  {
    if k == 0 then []
    else
      Named(states, blocked, k - 1)
      + if blocked[k - 1].reason.FeedbackCycleWait? && OnBlockedCycle(Nodes(states), EffectorsOf(blocked), blocked[k - 1].effectorId)
        then [blocked[k - 1].processId] else []
  }

  method DiagnoseWait(states: seq<ExecutionState>, blocked: seq<Blocked>) returns (d: WaitDiagnostic)
    ensures d.blockedProcessIds == Named(states, blocked, |blocked|)
    ensures d.deadlocked <==> d.blockedProcessIds != []
    ensures d.code == if d.deadlocked then "feedback_cycle_wait" else ""
  {
    var ids := [];
    for k := 0 to |blocked|
      invariant ids == Named(states, blocked, k)
    {
      if blocked[k].reason.FeedbackCycleWait? {
        var member := FeedbackCycleMember(states, blocked[k].effectorId, EffectorsOf(blocked));
        if member { ids := ids + [blocked[k].processId]; }
      }
    }
    d := WaitDiagnostic(ids, |ids| > 0, if |ids| > 0 then "feedback_cycle_wait" else "");
  }

  method Inspect(states: seq<ExecutionState>, state: ExecutionState) returns (unmet: seq<string>, values: seq<ConductionValue>)
    ensures unmet == Unmet(states, state.conduction)
    ensures values == Values(states, state.conduction)
  {
    unmet, values := [], [];
    var conduction := state.conduction;
    for k := 0 to |conduction|
      invariant unmet == Unmet(states, conduction[..k])
      invariant values == Values(states, conduction[..k])
    {
      UnmetSnoc(states, conduction, k);
      ValuesSnoc(states, conduction, k);
      var index := FindState(states, conduction[k]);
      if index < 0 {
        values := values + [ConductionValue(conduction[k], UPSTREAM_NOT_FOUND)];
      } else if Terminal(states[index].status) {
        values := values + [ConductionValue(conduction[k], states[index].output)];
      } else {
        unmet := unmet + [conduction[k]];
      }
    }
    assert conduction[..|conduction|] == conduction;
  }

  /** correlation.mojo's `advance_correlation_states`. */
  method AdvanceStates(states: seq<ExecutionState>) returns (plan: AdvancePlan)
    ensures plan.readied == Readied(states, |states|)
    ensures plan.conduction == Projected(states, |states|)
    ensures plan.blocked == Diagnosed(states)
    ensures plan.diagnostic.blockedProcessIds == Named(states, plan.blocked, |plan.blocked|)
    ensures plan.diagnostic.deadlocked <==> plan.diagnostic.blockedProcessIds != []
    ensures plan.diagnostic.code == if plan.diagnostic.deadlocked then "feedback_cycle_wait" else ""
  {
    var readied, projected, blocked := [], [], [];
    for k := 0 to |states|
      invariant readied == Readied(states, k)
      invariant projected == Projected(states, k)
      invariant blocked == HeldBack(states, k)
    {
      if !states[k].status.Pending? { continue; }
      var unmet, values := Inspect(states, states[k]);
      if |unmet| > 0 {
        blocked := blocked + [Blocked(states[k].processId, states[k].effectorId, unmet, UnmetDependencies)];
      } else {
        projected := projected + values;
        readied := readied + [states[k]];
      }
    }
    ghost var held := blocked;
    var effectors := EffectorsOf(blocked);
    for index := 0 to |blocked|
      invariant |blocked| == |held|
      invariant EffectorsOf(blocked) == effectors
      invariant forall i :: 0 <= i < index ==> blocked[i] == Diagnosed(states)[i]
      invariant forall i :: index <= i < |held| ==> blocked[i] == held[i]
    {
      var member := FeedbackCycleMember(states, blocked[index].effectorId, effectors);
      if member {
        blocked := blocked[index := blocked[index].(reason := FeedbackCycleWait)];
      }
    }
    assert blocked == Diagnosed(states);
    var diagnostic := DiagnoseWait(states, blocked);
    plan := AdvancePlan(readied, projected, blocked, diagnostic);
  }

  /** The effectors blocked right now. */
  ghost function BlockedEffectors(states: seq<ExecutionState>): seq<string> {
    EffectorsOf(HeldBack(states, |states|))
  }

  ghost predicate DistinctEffectors(states: seq<ExecutionState>) {
    forall i, j :: 0 <= i < j < |states| ==> states[i].effectorId != states[j].effectorId
  }

  /** `s` is blocked and lies on a conduction cycle all of whose members are blocked. */
  ghost predicate CycleBlocked(states: seq<ExecutionState>, s: ExecutionState) {
    s in states && Held(states, s) && OnBlockedCycle(Nodes(states), BlockedEffectors(states), s.effectorId)
  }

  /** Exactness of the diagnosis: the named processes are those of the blocked effectors that lie on a
      conduction cycle all of whose members are blocked. */
  lemma DiagnosisExact(states: seq<ExecutionState>)
    ensures forall id :: id in Named(states, Diagnosed(states), |Diagnosed(states)|) <==>
              exists s :: CycleBlocked(states, s) && s.processId == id
  {
    var blocked := Diagnosed(states);
    assert EffectorsOf(blocked) == BlockedEffectors(states);
    NamedMembers(states, blocked, |blocked|);
    forall id
      ensures id in Named(states, blocked, |blocked|) <==> exists s :: CycleBlocked(states, s) && s.processId == id
    {
      if id in Named(states, blocked, |blocked|) {
        var i :| 0 <= i < |blocked| && NamedEntry(states, blocked, i) && blocked[i].processId == id;
        var s := NamedIsCycleBlocked(states, i);
      }
      if s :| CycleBlocked(states, s) && s.processId == id {
        var i := CycleBlockedIsNamed(states, s);
      }
    }
  }

  lemma NamedIsCycleBlocked(states: seq<ExecutionState>, i: nat) returns (s: ExecutionState)
    requires i < |Diagnosed(states)| && NamedEntry(states, Diagnosed(states), i)
    ensures CycleBlocked(states, s) && s.processId == Diagnosed(states)[i].processId
  {
    var held := HeldBack(states, |states|);
    HeldBackMembers(states, |states|);
    assert EffectorsOf(Diagnosed(states)) == BlockedEffectors(states);
    assert held[i] in held;
    s :| s in states[..|states|] && EntryOf(states, s) == held[i] && Held(states, s);
  }

  lemma CycleBlockedIsNamed(states: seq<ExecutionState>, s: ExecutionState) returns (i: nat)
    requires CycleBlocked(states, s)
    ensures i < |Diagnosed(states)| && NamedEntry(states, Diagnosed(states), i) && Diagnosed(states)[i].processId == s.processId
  {
    var held := HeldBack(states, |states|);
    HeldBackMembers(states, |states|);
    assert EffectorsOf(Diagnosed(states)) == BlockedEffectors(states);
    assert s in states[..|states|];
    assert EntryOf(states, s) in held;
    i :| 0 <= i < |held| && held[i] == EntryOf(states, s);
  }

  ghost function EntryOf(states: seq<ExecutionState>, s: ExecutionState): Blocked {
    Blocked(s.processId, s.effectorId, Unmet(states, s.conduction), UnmetDependencies)
  }

  lemma {:induction false} HeldBackMembers(states: seq<ExecutionState>, k: nat)
    requires k <= |states|
    ensures forall s :: s in states[..k] && Held(states, s) ==> EntryOf(states, s) in HeldBack(states, k)
    ensures forall b :: b in HeldBack(states, k) ==> exists s :: s in states[..k] && EntryOf(states, s) == b && Held(states, s)
    decreases k
  {
    if k > 0 {
      HeldBackMembers(states, k - 1);
      assert states[..k] == states[..k - 1] + [states[k - 1]];
      forall b | b in HeldBack(states, k) ensures exists s :: s in states[..k] && EntryOf(states, s) == b && Held(states, s) {
        if b in HeldBack(states, k - 1) {
          var s :| s in states[..k - 1] && EntryOf(states, s) == b && Held(states, s);
          assert s in states[..k];
        } else {
          assert states[k - 1] in states[..k] && EntryOf(states, states[k - 1]) == b;
        }
      }
    }
  }

  lemma BlockedIsHeld(states: seq<ExecutionState>, e: string) returns (s: ExecutionState)
    requires e in BlockedEffectors(states)
    ensures s in states && s.effectorId == e && Held(states, s)
  {
    var held := HeldBack(states, |states|);
    HeldBackMembers(states, |states|);
    var i :| 0 <= i < |held| && held[i].effectorId == e;
    assert held[i] in held;
    s :| s in states[..|states|] && EntryOf(states, s) == held[i] && Held(states, s);
  }

  lemma HeldIsBlocked(states: seq<ExecutionState>, s: ExecutionState)
    requires s in states && Held(states, s)
    ensures s.effectorId in BlockedEffectors(states)
  {
    var held := HeldBack(states, |states|);
    HeldBackMembers(states, |states|);
    assert s in states[..|states|];
    var i :| 0 <= i < |held| && held[i] == EntryOf(states, s);
    assert EffectorsOf(held)[i] == s.effectorId;
  }

  ghost predicate NamedEntry(states: seq<ExecutionState>, blocked: seq<Blocked>, i: nat)
    requires i < |blocked|
  {
    blocked[i].reason.FeedbackCycleWait? && OnBlockedCycle(Nodes(states), EffectorsOf(blocked), blocked[i].effectorId)
  }

  lemma {:induction false} NamedMembers(states: seq<ExecutionState>, blocked: seq<Blocked>, k: nat)
    requires k <= |blocked|
    ensures forall id :: id in Named(states, blocked, k) <==>
              exists i :: 0 <= i < k && NamedEntry(states, blocked, i) && blocked[i].processId == id
    decreases k
  {
    if k > 0 {
      NamedMembers(states, blocked, k - 1);
      forall id ensures id in Named(states, blocked, k) <==>
              exists i :: 0 <= i < k && NamedEntry(states, blocked, i) && blocked[i].processId == id
      {
        if id in Named(states, blocked, k - 1) {
          var i :| 0 <= i < k - 1 && NamedEntry(states, blocked, i) && blocked[i].processId == id;
          assert 0 <= i < k;
        } else if id in Named(states, blocked, k) {
          assert NamedEntry(states, blocked, k - 1);
        }
      }
    }
  }

  // ---------------------------------------------------------------- a standstill is always named

  /** Nothing can be readied, something is pending, and everything unfinished is pending. */
  ghost predicate Standstill(states: seq<ExecutionState>) {
    && Readied(states, |states|) == []
    && (exists s :: s in states && s.status.Pending?)
    && (forall s :: s in states && !Terminal(s.status) ==> s.status.Pending?)
  }

  /** Some upstream of `x` lies in `inside` too. */
  ghost predicate FedFrom(nodes: seq<Node>, inside: set<string>, x: string) {
    exists u :: u in inside && u in Upstreams(nodes, x)
  }

  ghost predicate AllFed(nodes: seq<Node>, inside: set<string>) {
    forall x {:trigger FedFrom(nodes, inside, x)} :: x in inside ==> FedFrom(nodes, inside, x)
  }

  /** In a standstill every blocked effector waits for another blocked effector. */
  lemma StandstillFeeds(states: seq<ExecutionState>, e: string)
    requires DistinctEffectors(states) && Standstill(states) && e in BlockedEffectors(states)
    ensures FedFrom(Nodes(states), (set x | x in BlockedEffectors(states)), e)
  {
    var s := BlockedIsHeld(states, e);
    var i :| 0 <= i < |states| && states[i] == s;
    assert IndexOf(Nodes(states), e) == i && Upstreams(Nodes(states), e) == s.conduction;
    UnmetMembers(states, s.conduction);
    var u := Unmet(states, s.conduction)[0];
    assert u in Unmet(states, s.conduction);
    var t := states[IndexOf(Nodes(states), u)];
    assert t in states;
    StandstillHolds(states, t);
    var inside := set x | x in BlockedEffectors(states);
    assert u in inside && u in Upstreams(Nodes(states), e);
  }

  lemma StandstillHolds(states: seq<ExecutionState>, t: ExecutionState)
    requires Standstill(states) && t in states && !Terminal(t.status)
    ensures Held(states, t) && t.effectorId in BlockedEffectors(states)
  {
    ReadiedMembers(states, |states|);
    assert states[..|states|] == states;
    assert !Eligible(states, t) by { assert t !in Readied(states, |states|); }
    HeldIsBlocked(states, t);
  }

  /** Follow such waits for `n` steps. */
  lemma {:induction false} LongWalk(nodes: seq<Node>, inside: set<string>, e: string, n: nat) returns (p: seq<string>)
    requires e in inside
    requires AllFed(nodes, inside)
    ensures |p| == n + 1 && p[0] == e && Walk(nodes, p)
    ensures forall i :: 0 <= i < |p| ==> p[i] in inside
    decreases n
  {
    if n == 0 {
      p := [e];
    } else {
      assert FedFrom(nodes, inside, e);
      var u :| u in inside && u in Upstreams(nodes, e);
      var q := LongWalk(nodes, inside, u, n - 1);
      p := [e] + q;
      forall i | 0 <= i < |p| - 1 ensures p[i + 1] in Upstreams(nodes, p[i]) {
        if i > 0 { assert p[i] == q[i - 1] && p[i + 1] == q[i - 1 + 1]; }
      }
    }
  }

  /** Pigeonhole: a sequence longer than the set it draws from repeats an element. */
  lemma {:induction false} Pigeonhole(p: seq<string>, pool: set<string>) returns (i: nat, j: nat)
    requires |p| > |pool| && forall k :: 0 <= k < |p| ==> p[k] in pool
    ensures i < j < |p| && p[i] == p[j]
    decreases |p|
  {
    var last := p[|p| - 1];
    var q := p[..|p| - 1];
    if last in q {
      i :| 0 <= i < |q| && q[i] == last;
      j := |p| - 1;
    } else {
      i, j := Pigeonhole(q, pool - {last});
    }
  }

  /** Where every member of a finite set is fed from the set, some member lies on a cycle inside it. */
  lemma FedSetHasCycle(nodes: seq<Node>, inside: set<string>, e: string) returns (c: string, cycle: seq<string>)
    requires e in inside
    requires AllFed(nodes, inside)
    ensures c in inside && WalkFromTo(nodes, cycle, c, c) && forall i :: 0 <= i < |cycle| ==> cycle[i] in inside
  {
    var p := LongWalk(nodes, inside, e, |inside|);
    var i, j := Pigeonhole(p, inside);
    c, cycle := p[i], p[i..j + 1];
    forall k | 0 <= k < |cycle| - 1 ensures cycle[k + 1] in Upstreams(nodes, cycle[k]) {
      assert p[i + k + 1] in Upstreams(nodes, p[i + k]);
    }
  }

  /** Completeness of the diagnosis: a standstill always names at least one process. */
  lemma StandstillIsNamed(states: seq<ExecutionState>)
    requires DistinctEffectors(states) && Standstill(states)
    ensures Named(states, Diagnosed(states), |Diagnosed(states)|) != []
  {
    var nodes, blocked := Nodes(states), BlockedEffectors(states);
    var inside := set x | x in blocked;
    var s :| s in states && s.status.Pending?;
    StandstillHolds(states, s);
    forall x | x in inside ensures FedFrom(nodes, inside, x) {
      StandstillFeeds(states, x);
    }
    var c, cycle := FedSetHasCycle(nodes, inside, s.effectorId);
    assert BlockedCycle(nodes, blocked, c, cycle);
    var t := BlockedIsHeld(states, c);
    var k := CycleBlockedIsNamed(states, t);
    NamedMembers(states, Diagnosed(states), |Diagnosed(states)|);
    assert t.processId in Named(states, Diagnosed(states), |Diagnosed(states)|);
  }
}
