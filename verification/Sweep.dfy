/** What one sweep over the states reports, told from the states: who is ready and with which values, who waits for
    whom, and which wait is a deadlock. */
module Sweep {
  import opened JsonValue
  import opened ProcessStatus
  import opened ConductionGraph
  import opened Readiness

  /** Positions in order, exactly those that qualify. */
  ghost predicate Positions(at: seq<nat>, qualifies: set<nat>) {
    && (forall k, l :: 0 <= k < l < |at| ==> at[k] < at[l])
    && (forall i: nat :: i in at <==> i in qualifies)
  }

  lemma PositionsExtend(at: seq<nat>, qualifies: set<nat>, next: nat)
    requires Positions(at, qualifies) && forall i :: i in qualifies ==> i < next
    ensures Positions(at + [next], qualifies + {next})
  {
    forall k, l | 0 <= k < l < |at| + 1 ensures (at + [next])[k] < (at + [next])[l] {
      if l == |at| { assert at[k] in at; }
    }
  }

  // ---------------------------------------------------------------- what an upstream is to those that wait for it

  /** The upstream is declared, and its first state has not finished. */
  ghost predicate StillRuns(states: seq<ExecutionState>, upstream: string) {
    exists i :: FirstState(states, upstream, i) && states[i].status !in {Succeeded, Failed, Skipped, Cancelled, TimedOut}
  }

  ghost predicate FirstState(states: seq<ExecutionState>, effector: string, i: int) {
    0 <= i < |states| && states[i].effectorId == effector && forall j :: 0 <= j < i ==> states[j].effectorId != effector
  }

  lemma FirstIsIndex(states: seq<ExecutionState>, effector: string, i: int)
    ensures FirstState(states, effector, i) <==> i >= 0 && i == IndexOf(Nodes(states), effector)
  {
    forall j | 0 <= j < |states| ensures Nodes(states)[j].id == states[j].effectorId {}
  }

  lemma RunningIsUnfinished(states: seq<ExecutionState>, upstream: string)
    ensures StillRuns(states, upstream) <==> Unfinished(states, upstream)
  {
    forall i ensures FirstState(states, upstream, i) <==> i >= 0 && i == IndexOf(Nodes(states), upstream) { FirstIsIndex(states, upstream, i); }
  }

  /** The upstreams still running, in the order they are declared. */
  ghost predicate ListsRunning(states: seq<ExecutionState>, conduction: seq<string>, unmet: seq<string>) {
    exists at :: ListsAt(states, conduction, unmet, at)
  }

  ghost predicate ListsAt(states: seq<ExecutionState>, conduction: seq<string>, unmet: seq<string>, at: seq<nat>) {
    && Positions(at, set i: nat | i < |conduction| && StillRuns(states, conduction[i]))
    && |unmet| == |at| && forall k :: 0 <= k < |at| ==> at[k] < |conduction| && unmet[k] == conduction[at[k]]
  }

  lemma {:induction false} UnmetLists(states: seq<ExecutionState>, conduction: seq<string>, k: nat) returns (at: seq<nat>)
    requires k <= |conduction|
    ensures ListsAt(states, conduction[..k], Unmet(states, conduction[..k]), at)
    decreases k
  {
    var prefix := conduction[..k];
    if k == 0 {
      at := [];
    } else {
      var before := conduction[..k - 1];
      hide Unmet, StillRuns, Unfinished;
      at := UnmetLists(states, conduction, k - 1);
      UnmetSnoc(states, conduction, k - 1);
      RunningIsUnfinished(states, conduction[k - 1]);
      var earlier, now := set i: nat | i < |before| && StillRuns(states, before[i]), set i: nat | i < |prefix| && StillRuns(states, prefix[i]);
      assert forall i: nat :: i < k - 1 ==> before[i] == prefix[i];
      if StillRuns(states, conduction[k - 1]) {
        PositionsExtend(at, earlier, k - 1);
        assert now == earlier + {k - 1};
        at := at + [k - 1];
      } else {
        assert now == earlier;
      }
    }
  }

  // ---------------------------------------------------------------- who is ready, and who waits

  ghost predicate Waits(states: seq<ExecutionState>, s: ExecutionState) {
    s.status.Pending? && exists u :: u in s.conduction && StillRuns(states, u)
  }

  ghost predicate MayStart(states: seq<ExecutionState>, s: ExecutionState) {
    s.status.Pending? && forall u :: u in s.conduction ==> !StillRuns(states, u)
  }

  lemma WaitingIsHeld(states: seq<ExecutionState>, s: ExecutionState)
    ensures Waits(states, s) <==> Held(states, s)
    ensures MayStart(states, s) <==> Eligible(states, s)
  {
    UnmetMembers(states, s.conduction);
    forall u ensures StillRuns(states, u) <==> Unfinished(states, u) { RunningIsUnfinished(states, u); }
    if Unmet(states, s.conduction) != [] { assert Unmet(states, s.conduction)[0] in Unmet(states, s.conduction); }
  }

  /** Exactly the processes that may start, in declaration order. */
  ghost predicate ListsReady(states: seq<ExecutionState>, readied: seq<ExecutionState>, at: seq<nat>) {
    && Positions(at, set i: nat | i < |states| && MayStart(states, states[i]))
    && |readied| == |at| && forall k :: 0 <= k < |at| ==> at[k] < |states| && readied[k] == states[at[k]]
  }

  lemma {:induction false} ReadiedLists(states: seq<ExecutionState>, k: nat)
    requires k <= |states|
    ensures Positions(ReadiedAt(states, k), set i: nat | i < k && MayStart(states, states[i]))
    decreases k
  {
    if k > 0 {
      ReadiedLists(states, k - 1);
      WaitingIsHeld(states, states[k - 1]);
      hide MayStart, Eligible;
      var earlier, now := set i: nat | i < k - 1 && MayStart(states, states[i]), set i: nat | i < k && MayStart(states, states[i]);
      if MayStart(states, states[k - 1]) {
        PositionsExtend(ReadiedAt(states, k - 1), earlier, k - 1);
        assert now == earlier + {k - 1};
      } else {
        assert now == earlier;
      }
    }
  }

  /** The report of one process that waits: the upstreams it waits for, and whether it stands on a cycle of such processes. */
  ghost predicate ReportsWaiting(states: seq<ExecutionState>, s: ExecutionState, blocked: seq<Blocked>, entry: Blocked) {
    && entry.processId == s.processId && entry.effectorId == s.effectorId
    && ListsRunning(states, s.conduction, entry.unmet)
    && (entry.reason.FeedbackCycleWait? <==> OnBlockedCycle(Nodes(states), EffectorsOf(blocked), s.effectorId))
  }

  /** Exactly the processes that wait, in declaration order. */
  ghost predicate ListsWaiting(states: seq<ExecutionState>, blocked: seq<Blocked>, at: seq<nat>) {
    && Positions(at, set i: nat | i < |states| && Waits(states, states[i]))
    && |blocked| == |at| && forall k :: 0 <= k < |at| ==> at[k] < |states| && ReportsWaiting(states, states[at[k]], blocked, blocked[k])
  }

  lemma {:induction false} HeldBackLists(states: seq<ExecutionState>, k: nat) returns (at: seq<nat>)
    requires k <= |states|
    ensures Positions(at, set i: nat | i < k && Waits(states, states[i]))
    ensures |HeldBack(states, k)| == |at| && forall j :: 0 <= j < |at| ==> at[j] < |states| && HeldBack(states, k)[j] == EntryOf(states, states[at[j]])
    decreases k
  {
    if k == 0 {
      at := [];
    } else {
      hide Waits, Held, Unmet;
      at := HeldBackLists(states, k - 1);
      WaitingIsHeld(states, states[k - 1]);
      var earlier, now := set i: nat | i < k - 1 && Waits(states, states[i]), set i: nat | i < k && Waits(states, states[i]);
      if Waits(states, states[k - 1]) {
        PositionsExtend(at, earlier, k - 1);
        assert now == earlier + {k - 1};
        at := at + [k - 1];
      } else {
        assert now == earlier;
      }
    }
  }

  lemma EntryLists(states: seq<ExecutionState>, s: ExecutionState)
    ensures ListsRunning(states, s.conduction, EntryOf(states, s).unmet)
  {
    var at := UnmetLists(states, s.conduction, |s.conduction|);
    assert s.conduction[..|s.conduction|] == s.conduction;
  }

  // ---------------------------------------------------------------- the values a ready process is given

  /** One value per upstream: what it ended with, or a marker for one that is not declared. */
  ghost predicate IsValue(states: seq<ExecutionState>, upstream: string, value: ConductionValue) {
    && value.upstream == upstream
    && (forall i :: FirstState(states, upstream, i) ==> value.output == states[i].output)
    && ((forall i :: !FirstState(states, upstream, i)) ==> value.output == Obj(map[
          "error" := Str("upstream_not_found"), "message" := Str("upstream effector was not instantiated or is missing")]))
  }

  ghost predicate ListsValues(states: seq<ExecutionState>, conduction: seq<string>, values: seq<ConductionValue>) {
    |values| == |conduction| && forall k :: 0 <= k < |conduction| ==> IsValue(states, conduction[k], values[k])
  }

  lemma {:induction false} ValuesList(states: seq<ExecutionState>, conduction: seq<string>)
    requires forall u :: u in conduction ==> !StillRuns(states, u)
    ensures ListsValues(states, conduction, Values(states, conduction))
    decreases |conduction|
  {
    if conduction != [] {
      var u := conduction[0];
      ValuesList(states, conduction[1..]);
      RunningIsUnfinished(states, u);
      forall i ensures FirstState(states, u, i) <==> i >= 0 && i == IndexOf(Nodes(states), u) { FirstIsIndex(states, u, i); }
      hide FirstState, StillRuns, Unfinished;
      assert |ValueOf(states, u)| == 1 && IsValue(states, u, ValueOf(states, u)[0]);
      hide ValueOf, IsValue;
      forall k | 0 <= k < |conduction| ensures IsValue(states, conduction[k], Values(states, conduction)[k]) {
        if k > 0 { assert conduction[k] == conduction[1..][k - 1]; }
      }
    }
  }

  /** The values of all ready processes, one process after the other. */
  ghost predicate ListsAllValues(states: seq<ExecutionState>, readied: seq<ExecutionState>, values: seq<ConductionValue>)
    decreases |readied|
  {
    if readied == [] then values == []
    else exists front, last :: ValuesOfLast(states, readied, values, front, last)
  }

  ghost predicate ValuesOfLast(states: seq<ExecutionState>, readied: seq<ExecutionState>, values: seq<ConductionValue>, front: seq<ConductionValue>, last: seq<ConductionValue>)
    requires readied != []
    decreases |readied|, 0
  {
    && values == front + last && ListsValues(states, readied[|readied| - 1].conduction, last)
    && ListsAllValues(states, readied[..|readied| - 1], front)
  }

  lemma ValuesAppend(states: seq<ExecutionState>, readied: seq<ExecutionState>, s: ExecutionState, front: seq<ConductionValue>, last: seq<ConductionValue>)
    requires ListsAllValues(states, readied, front) && ListsValues(states, s.conduction, last)
    ensures ListsAllValues(states, readied + [s], front + last)
  {
    var all := readied + [s];
    hide ListsValues;
    assert all[..|all| - 1] == readied && all[|all| - 1] == s;
    assert ValuesOfLast(states, all, front + last, front, last);
  }

  lemma {:induction false} ProjectedLists(states: seq<ExecutionState>, k: nat)
    requires k <= |states|
    ensures ListsAllValues(states, Readied(states, k), Projected(states, k))
    decreases k
  {
    if k > 0 {
      ProjectedLists(states, k - 1);
      var s, readied := states[k - 1], Readied(states, k);
      if Eligible(states, s) {
        assert readied == Readied(states, k - 1) + [s] && Projected(states, k) == Projected(states, k - 1) + Values(states, s.conduction);
        hide Eligible, ListsAllValues, Readied, Projected, Values;
        WaitingIsHeld(states, s);
        ValuesList(states, s.conduction);
        ValuesAppend(states, Readied(states, k - 1), s, Projected(states, k - 1), Values(states, s.conduction));
      } else {
        assert readied == Readied(states, k - 1) && Projected(states, k) == Projected(states, k - 1);
      }
    }
  }

  // ---------------------------------------------------------------- the whole report

  ghost predicate ReportsReady(states: seq<ExecutionState>, readied: seq<ExecutionState>, values: seq<ConductionValue>) {
    (exists at :: ListsReady(states, readied, at)) && ListsAllValues(states, readied, values)
  }

  ghost predicate ReportsBlocked(states: seq<ExecutionState>, blocked: seq<Blocked>) {
    exists at :: ListsWaiting(states, blocked, at)
  }

  /** The processes of a deadlock are exactly those that wait on a cycle of waiting processes. */
  ghost predicate ReportsDeadlock(states: seq<ExecutionState>, ids: seq<string>) {
    forall id :: id in ids <==> exists s :: Deadlocked(states, s) && s.processId == id
  }

  ghost predicate Deadlocked(states: seq<ExecutionState>, s: ExecutionState) {
    s in states && Waits(states, s) && exists p :: WaitingCycle(states, s.effectorId, p)
  }

  /** A walk from the effector back to itself through effectors of waiting processes. */
  ghost predicate WaitingCycle(states: seq<ExecutionState>, effector: string, p: seq<string>) {
    WalkFromTo(Nodes(states), p, effector, effector) && forall i :: 0 < i < |p| - 1 ==> WaitsThere(states, p[i])
  }

  ghost predicate WaitsThere(states: seq<ExecutionState>, effector: string) {
    exists s :: s in states && s.effectorId == effector && Waits(states, s)
  }

  lemma WaitingIsBlocked(states: seq<ExecutionState>, effector: string)
    ensures WaitsThere(states, effector) <==> effector in BlockedEffectors(states)
  {
    if effector in BlockedEffectors(states) {
      var s := BlockedIsHeld(states, effector);
      WaitingIsHeld(states, s);
    }
    if WaitsThere(states, effector) {
      var s :| s in states && s.effectorId == effector && Waits(states, s);
      WaitingIsHeld(states, s);
      HeldIsBlocked(states, s);
    }
  }

  lemma DeadlockedIsCycleBlocked(states: seq<ExecutionState>, s: ExecutionState)
    ensures Deadlocked(states, s) <==> CycleBlocked(states, s)
  {
    WaitingIsHeld(states, s);
    forall e ensures WaitsThere(states, e) <==> e in BlockedEffectors(states) { WaitingIsBlocked(states, e); }
    hide WaitsThere, Waits, Held, WalkFromTo;
    forall p ensures WaitingCycle(states, s.effectorId, p) <==> BlockedCycle(Nodes(states), BlockedEffectors(states), s.effectorId, p) {}
  }

  /** What a sweep over the states reports. */
  lemma SweepExact(states: seq<ExecutionState>)
    ensures ReportsReady(states, Readied(states, |states|), Projected(states, |states|))
    ensures ReportsBlocked(states, Diagnosed(states))
    ensures ReportsDeadlock(states, Named(states, Diagnosed(states), |Diagnosed(states)|))
  {
    ReadyExact(states);
    BlockedExact(states);
    DiagnosisExact(states);
    forall s ensures Deadlocked(states, s) <==> CycleBlocked(states, s) { DeadlockedIsCycleBlocked(states, s); }
    var named := Named(states, Diagnosed(states), |Diagnosed(states)|);
    hide Deadlocked, CycleBlocked, Diagnosed, Named, Readied, Projected, ReportsReady, ReportsBlocked;
    forall id ensures id in named <==> exists s :: Deadlocked(states, s) && s.processId == id {}
  }

  lemma ReadyExact(states: seq<ExecutionState>)
    ensures ReportsReady(states, Readied(states, |states|), Projected(states, |states|))
  {
    ReadiedPositions(states, |states|);
    ReadiedLists(states, |states|);
    ProjectedLists(states, |states|);
    assert ListsReady(states, Readied(states, |states|), ReadiedAt(states, |states|));
  }

  lemma BlockedExact(states: seq<ExecutionState>)
    ensures ReportsBlocked(states, Diagnosed(states))
  {
    var at := HeldBackLists(states, |states|);
    var blocked := Diagnosed(states);
    var held := HeldBack(states, |states|);
    assert EffectorsOf(blocked) == EffectorsOf(held);
    hide Waits, OnBlockedCycle, ListsRunning, HeldBack;
    forall k | 0 <= k < |at| ensures ReportsWaiting(states, states[at[k]], blocked, blocked[k]) {
      EntryLists(states, states[at[k]]);
      assert held[k] == EntryOf(states, states[at[k]]);
    }
    assert ListsWaiting(states, blocked, at);
  }
}
