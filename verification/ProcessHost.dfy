/** The child-process handle (native_process_host.c): start, poll, wait, cancel and destroy over one child, with its
    signals, its reaping and its saturating 64-bit deadlines.

    The operating system is a nondeterministic environment that logs what is asked of it: any call may fail or be
    interrupted, and the child may end at any moment.  The one promise made for it is that probes which leave the
    child unreaped do not go on for ever. */
module ProcessHost {

  newtype int64 = x: int | -0x8000_0000_0000_0000 <= x < 0x8000_0000_0000_0000

  const INT64_MAX: int64 := 0x7FFF_FFFF_FFFF_FFFF

  // ---------------------------------------------------------------- the environment

  datatype WaitStatus = WExited(code: int) | WSignaled(signal: int)

  datatype Errno = EINTR | ECHILD | ESRCH | EOTHER(code: int)

  datatype WaitAnswer = Reaped(status: WaitStatus) | StillRunning | WaitFailed(errno: Errno)

  datatype Signal = SIGTERM | SIGKILL

  datatype SysCall =
    | Waited(answer: WaitAnswer)
    | Signalled(signal: Signal, at: nat)
    | ClockRead(now: int64)
    | Slept

  class Os {
    ghost var log: seq<SysCall>
    var time: nat         // milliseconds on the monotonic clock
    var patience: nat     // fruitless probes the environment may still cause

    constructor (patience: nat)
      ensures log == [] && this.patience == patience
    {
      log, time, this.patience := [], 0, patience;
    }

    method Pass()
      modifies this`time
      ensures time >= old(time)
    {
      var later: nat :| later >= 0;
      time := time + later;
    }

    /** waitpid: a probe that leaves the child unreaped costs patience, unless it fails for good. */
    method WaitPid(hang: bool) returns (answer: WaitAnswer)
      modifies this
      ensures log == old(log) + [Waited(answer)] && time >= old(time)
      ensures patience <= old(patience)
      ensures answer.StillRunning? ==> !hang
      ensures answer.StillRunning? || answer == WaitFailed(EINTR) || answer == WaitFailed(ECHILD) ==> patience < old(patience)
    {
      answer := *;
      var fruitless := answer.StillRunning? || answer == WaitFailed(EINTR) || answer == WaitFailed(ECHILD);
      if fruitless && (patience == 0 || (hang && answer.StillRunning?)) {
        var code := *;
        answer := Reaped(WExited(code));
      } else if fruitless {
        patience := patience - 1;
      }
      Pass();
      log := log + [Waited(answer)];
    }

    method KillGroup(signal: Signal) returns (failure: bool, errno: Errno)
      modifies this`log, this`time
      ensures time >= old(time)
      ensures log == old(log) + [Signalled(signal, time)]
    {
      failure, errno := *, *;
      Pass();
      log := log + [Signalled(signal, time)];
    }

    /** monotonic_ms: -1 when the clock fails, otherwise the time, saturated at INT64_MAX. */
    method Now() returns (now: int64)
      modifies this`log, this`time
      ensures time >= old(time) && log == old(log) + [ClockRead(now)]
      ensures 0 <= now ==> now as int <= time && (now < INT64_MAX ==> now as int == time)
    {
      Pass();
      if * { now := -1; } else { now := if time <= INT64_MAX as int then time as int64 else INT64_MAX; }
      log := log + [ClockRead(now)];
    }

    method Sleep()
      modifies this`log, this`time
      ensures time >= old(time) && log == old(log) + [Slept]
    {
      Pass();
      log := log + [Slept];
    }
  }

  // ---------------------------------------------------------------- what a log of calls may say

  /** A child is reaped at most once, and nothing is asked about it afterwards. */
  ghost predicate ReapedLast(log: seq<SysCall>) {
    forall i :: 0 <= i < |log| - 1 ==> !IsReap(log[i])
  }

  predicate IsReap(call: SysCall) {
    call.Waited? && call.answer.Reaped?
  }

  predicate IsSignal(call: SysCall, signal: Signal) {
    call.Signalled? && call.signal == signal
  }

  /** A wait that fails for a reason other than an interruption. */
  predicate IsHardFailure(call: SysCall) {
    call.Waited? && call.answer.WaitFailed? && call.answer.errno != EINTR
  }

  ghost predicate HardFailure(log: seq<SysCall>) {
    exists i :: 0 <= i < |log| && IsHardFailure(log[i])
  }

  lemma FailurePersists(was: seq<SysCall>, log: seq<SysCall>)
    requires was <= log
    ensures HardFailure(was) ==> HardFailure(log)
  {
    if HardFailure(was) {
      var i :| 0 <= i < |was| && IsHardFailure(was[i]);
      assert log[i] == was[i];
    }
  }

  /** The signal before the one at k is a SIGTERM, sent at least `grace` milliseconds earlier. */
  ghost predicate TermedBefore(log: seq<SysCall>, k: nat, grace: int)
    requires k < |log| && log[k].Signalled?
  {
    exists j :: 0 <= j < k && TermAt(log, j, k) && log[j].at + grace <= log[k].at
  }

  predicate TermAt(log: seq<SysCall>, j: nat, k: nat)
    requires j < k <= |log|
  {
    IsSignal(log[j], SIGTERM) && forall i :: j < i < k ==> !log[i].Signalled?
  }

  ghost predicate KillsAfterGrace(log: seq<SysCall>, grace: int) {
    forall k :: 0 <= k < |log| && IsSignal(log[k], SIGKILL) ==> TermedBefore(log, k, grace)
  }

  lemma AppendKeepsGrace(log: seq<SysCall>, call: SysCall, grace: int)
    requires KillsAfterGrace(log, grace)
    requires IsSignal(call, SIGKILL) ==> TermedBefore(log + [call], |log|, grace)
    ensures KillsAfterGrace(log + [call], grace)
  {
    var longer := log + [call];
    forall k | 0 <= k < |longer| && IsSignal(longer[k], SIGKILL) ensures TermedBefore(longer, k, grace) {
      if k < |log| {
        assert IsSignal(log[k], SIGKILL) && TermedBefore(log, k, grace);
        var j :| 0 <= j < k && TermAt(log, j, k) && log[j].at + grace <= log[k].at;
        assert TermAt(longer, j, k);
      }
    }
  }

  // ---------------------------------------------------------------- deadlines

  /** The moment `span` milliseconds after `from`, saturated at the largest 64-bit integer. */
  function SaturatingSum(from: int64, span: int64): (deadline: int64)
    requires from >= 0 && span >= 0
    ensures deadline as int == if from as int + span as int <= INT64_MAX as int then from as int + span as int else INT64_MAX as int
  {
    if span <= INT64_MAX - from then from + span else INT64_MAX
  }

  /** The test poll applies to one clock reading. */
  predicate PollHit(timeout: int64, started: int64, now: int64) {
    timeout >= 0 && started >= 0 && now >= 0 && now >= SaturatingSum(started, timeout)
  }

  /** The deadline wait and the grace period work with: the largest integer stands for "never". */
  function AbsoluteDeadline(timeout: int64, started: int64): int64 {
    if timeout >= 0 && started >= 0 then SaturatingSum(started, timeout) else INT64_MAX
  }

  /** The test wait applies: a deadline that saturates stands for "never". */
  predicate WaitHit(timeout: int64, started: int64, now: int64) {
    var deadline := AbsoluteDeadline(timeout, started);
    deadline != INT64_MAX && now >= 0 && now >= deadline
  }

  /** The absolute deadline, over the integers. */
  predicate Overdue(timeout: int64, started: int64, now: int64) {
    timeout >= 0 && started >= 0 && now as int >= started as int + timeout as int
  }

  /** Below the largest integer, poll and wait share one deadline, and it is the exact one. */
  lemma OneDeadline(timeout: int64, started: int64, now: int64)
    requires now < INT64_MAX
    ensures PollHit(timeout, started, now) == Overdue(timeout, started, now)
    ensures WaitHit(timeout, started, now) == Overdue(timeout, started, now)
  {
  }

  /** The two part company exactly when the clock reads the largest integer and the deadline saturates there. */
  lemma DeadlinesPart(timeout: int64, started: int64, now: int64)
    ensures PollHit(timeout, started, now) != WaitHit(timeout, started, now)
      <==> timeout >= 0 && started >= 0 && now == INT64_MAX && started as int + timeout as int >= INT64_MAX as int
    ensures WaitHit(timeout, started, now) ==> PollHit(timeout, started, now)
  {
  }

  type Deadline = (int64, int64, int64) -> bool

  /** A probe found the child alive and the clock read next was past the deadline. */
  predicate LateProbe(log: seq<SysCall>, i: nat, hit: Deadline, timeout: int64, started: int64)
    requires i + 1 < |log|
  {
    log[i] == Waited(StillRunning) && log[i + 1].ClockRead? && hit(timeout, started, log[i + 1].now)
  }

  predicate Unsignalled(log: seq<SysCall>, from: nat, to: nat)
    requires to <= |log|
  {
    forall i :: from <= i < to ==> !log[i].Signalled?
  }

  predicate LateAt(log: seq<SysCall>, from: nat, i: nat, hit: Deadline, timeout: int64, started: int64)
    requires from <= i && i + 1 < |log|
  {
    Unsignalled(log, from, i + 2) && LateProbe(log, i, hit, timeout, started)
  }

  /** Among the calls made since `from` and before any signal, some probe was late. */
  ghost predicate Late(log: seq<SysCall>, from: nat, hit: Deadline, timeout: int64, started: int64) {
    exists i :: from <= i < |log| - 1 && LateAt(log, from, i, hit, timeout, started)
  }

  lemma StaysOnTime(was: seq<SysCall>, log: seq<SysCall>, from: nat, hit: Deadline, timeout: int64, started: int64)
    requires was <= log && !Late(was, from, hit, timeout, started)
    requires forall i :: |was| - 1 <= i < |log| - 1 && i >= 0 ==> !LateProbe(log, i, hit, timeout, started)
    ensures !Late(log, from, hit, timeout, started)
  {
    forall i | from <= i < |log| - 1 ensures !LateAt(log, from, i, hit, timeout, started) {
      if i < |was| - 1 {
        assert !LateAt(was, from, i, hit, timeout, started);
        assert was[i] == log[i] && was[i + 1] == log[i + 1];
        assert Unsignalled(log, from, i + 2) ==> Unsignalled(was, from, i + 2);
      }
    }
  }

  ghost predicate ReadingsBelowMax(log: seq<SysCall>, from: nat) {
    forall i :: from <= i < |log| && log[i].ClockRead? ==> log[i].now < INT64_MAX
  }

  /** Over readings below the largest integer, "late" does not depend on whether poll or wait asks. */
  lemma LateForBoth(log: seq<SysCall>, from: nat, timeout: int64, started: int64)
    requires ReadingsBelowMax(log, from)
    ensures Late(log, from, PollHit, timeout, started) == Late(log, from, Overdue, timeout, started)
    ensures Late(log, from, WaitHit, timeout, started) == Late(log, from, Overdue, timeout, started)
  {
    forall i | from <= i < |log| - 1
      ensures LateAt(log, from, i, PollHit, timeout, started) == LateAt(log, from, i, Overdue, timeout, started)
      ensures LateAt(log, from, i, WaitHit, timeout, started) == LateAt(log, from, i, Overdue, timeout, started)
    {
      if log[i + 1].ClockRead? {
        OneDeadline(timeout, started, log[i + 1].now);
      }
    }
  }

  /** After the SIGTERM at j and the clock reading behind it, a later reading is past the grace period. */
  predicate GraceOverAt(log: seq<SysCall>, j: nat, i: nat, grace: int64) {
    j + 1 < i < |log| && log[j + 1].ClockRead? && log[i].ClockRead? && WaitHit(grace, log[j + 1].now, log[i].now)
  }

  ghost predicate GraceRanOut(log: seq<SysCall>, j: nat, grace: int64) {
    exists i :: 0 <= i < |log| && GraceOverAt(log, j, i, grace)
  }

  ghost predicate KilledSince(log: seq<SysCall>, j: nat) {
    exists k :: j < k < |log| && IsSignal(log[k], SIGKILL)
  }

  /** Calls that are no SIGKILL and no late reading leave a child in its grace period. */
  lemma StaysInGrace(was: seq<SysCall>, log: seq<SysCall>, j: nat, grace: int64)
    requires was <= log && j + 1 < |was| && !KilledSince(was, j) && !GraceRanOut(was, j, grace)
    requires forall i :: |was| <= i < |log| ==> !log[i].Signalled? && !GraceOverAt(log, j, i, grace)
    ensures !KilledSince(log, j) && !GraceRanOut(log, j, grace)
  {
    forall i | 0 <= i < |log| ensures !GraceOverAt(log, j, i, grace) {
      if i < |was| {
        assert !GraceOverAt(was, j, i, grace);
        assert was[j + 1] == log[j + 1] && was[i] == log[i];
      }
    }
    forall k | j < k < |log| ensures !IsSignal(log[k], SIGKILL) {
      if k < |was| { assert was[k] == log[k]; }
    }
  }

  /** Once the grace period ran out and SIGKILL was sent, both stay on the log. */
  lemma KilledAfterGrace(was: seq<SysCall>, log: seq<SysCall>, j: nat, grace: int64)
    requires was < log && j + 1 < |was| && IsSignal(log[|was|], SIGKILL)
    requires GraceOverAt(was, j, |was| - 1, grace)
    ensures KilledSince(log, j) && GraceRanOut(log, j, grace)
  {
    assert was[j + 1] == log[j + 1] && was[|was| - 1] == log[|was| - 1];
    assert GraceOverAt(log, j, |was| - 1, grace);
  }

  // ---------------------------------------------------------------- why a child was ended

  /** The last two calls are a late probe. */
  predicate LateTail(log: seq<SysCall>, timeout: int64, started: int64) {
    |log| >= 2 && LateProbe(log, |log| - 2, PollHit, timeout, started)
  }

  /** A SIGTERM sent right after a late probe, or without one. */
  predicate TermFor(log: seq<SysCall>, k: nat, late: bool, timeout: int64, started: int64) {
    k < |log| && IsSignal(log[k], SIGTERM) && (late <==> LateTail(log[..k], timeout, started))
  }

  ghost predicate EndedFor(log: seq<SysCall>, late: bool, timeout: int64, started: int64) {
    exists k: nat :: TermFor(log, k, late, timeout, started)
  }

  /** Calls that send no SIGTERM give no new reason. */
  lemma SameReasons(was: seq<SysCall>, log: seq<SysCall>, late: bool, timeout: int64, started: int64)
    requires was <= log && forall i :: |was| <= i < |log| ==> !IsSignal(log[i], SIGTERM)
    ensures EndedFor(log, late, timeout, started) <==> EndedFor(was, late, timeout, started)
  {
    forall k: nat ensures TermFor(log, k, late, timeout, started) <==> TermFor(was, k, late, timeout, started) {
      if k < |was| { assert log[..k] == was[..k]; }
    }
  }

  /** One SIGTERM gives one, told by the calls right before it. */
  lemma OneReason(was: seq<SysCall>, log: seq<SysCall>, late: bool, timeout: int64, started: int64)
    requires was < log && IsSignal(log[|was|], SIGTERM)
    requires forall i :: |was| < i < |log| ==> !IsSignal(log[i], SIGTERM)
    ensures EndedFor(log, late, timeout, started) <==>
      EndedFor(was, late, timeout, started) || (late <==> LateTail(was, timeout, started))
  {
    hide LateTail;
    assert log[..|was|] == was;
    forall k: nat | k != |was| ensures TermFor(log, k, late, timeout, started) <==> TermFor(was, k, late, timeout, started) {
      if k < |was| { assert log[..k] == was[..k]; }
    }
    if (late <==> LateTail(was, timeout, started)) { assert TermFor(log, |was|, late, timeout, started); }
  }

  // ---------------------------------------------------------------- the handle

  datatype Status = RUNNING | EXITED | SIGNALED | STATUS_TIMED_OUT | STATUS_CANCELLED | STATUS_ERROR

  datatype Result = OK | INVALID_ARGUMENT | SYSTEM_ERROR | TIMED_OUT | CANCELLED

  datatype Failure = NoFailure | Failure(call: string, errno: Errno)

  const DEFAULT_GRACE: int64 := 100

  function EffectiveGrace(graceMs: int64): (g: int64)
    ensures g >= 0
  {
    if graceMs < 0 then DEFAULT_GRACE else graceMs
  }

  /** What poll and wait answer for a child reaped before, told by the calls on record: "timed out" when the group was sent
      a SIGTERM right after a late probe, "cancelled" when it was sent one only without, an error when the start failed. */
  ghost predicate LogSays(log: seq<SysCall>, timeout: int64, started: int64, r: Result) {
    && (r == TIMED_OUT <==> EndedFor(log, true, timeout, started))
    && (r == CANCELLED <==> EndedFor(log, false, timeout, started) && !EndedFor(log, true, timeout, started))
    && (r == SYSTEM_ERROR <==> log == [])
    && r != INVALID_ARGUMENT
  }

  predicate ReapsLast(log: seq<SysCall>) {
    log != [] && IsReap(log[|log| - 1])
  }

  predicate FailsLast(log: seq<SysCall>) {
    log != [] && IsHardFailure(log[|log| - 1])
  }

  /** What the handle reports of a child that ended this way. */
  function StatusOf(ended: WaitStatus, timedOut: bool, cancelled: bool): Status {
    match ended
    case WExited(_) => EXITED
    case WSignaled(_) => if timedOut then STATUS_TIMED_OUT else if cancelled then STATUS_CANCELLED else SIGNALED
  }

  class Process {
    const os: Os
    const timeoutMs: int64
    const graceMs: int64
    var startedMs: int64
    var status: Status
    var exitCode: int
    var termSignal: int
    var timedOut: bool
    var cancelled: bool
    var error: Failure
    var reaped: bool

    ghost predicate Valid()
      reads this, os
    {
      SoundHandle(this)
    }

    /** The flags tell why the child was ended: a SIGTERM after a late probe, or one sent without. */
    ghost predicate Reasons()
      reads this, os
    {
      && (timedOut <==> EndedFor(os.log, true, timeoutMs, startedMs))
      && (cancelled <==> EndedFor(os.log, false, timeoutMs, startedMs))
    }

    ghost predicate Reports(ended: WaitStatus)
      reads this
    {
      && status == StatusOf(ended, timedOut, cancelled)
      && (ended.WExited? ==> exitCode == ended.code && termSignal == 0)
      && (ended.WSignaled? ==> exitCode == -1 && termSignal == ended.signal)
    }

    /** The handle between calls of the same operation: flags may already be raised. */
    ghost predicate Running()
      reads this, os
    {
      && !reaped && os.log != []
      && (forall i :: 0 <= i < |os.log| ==> !IsReap(os.log[i]))
      && KillsAfterGrace(os.log, EffectiveGrace(graceMs) as int)
    }

    /** Everything but the child's own report stays. */
    twostate predicate SameRequest()
      reads this
    {
      startedMs == old(startedMs) && timedOut == old(timedOut) && cancelled == old(cancelled)
    }

    twostate predicate Unchanged()
      reads this, os
    {
      && SameRequest() && status == old(status) && exitCode == old(exitCode) && termSignal == old(termSignal)
      && error == old(error) && reaped == old(reaped) && os.log == old(os.log)
    }

    function Verdict(): (r: Result)
      reads this
    {
      if timedOut then TIMED_OUT else if cancelled then CANCELLED else if status == STATUS_ERROR then SYSTEM_ERROR else OK
    }

    /** A handle over a child just spawned, or over a start that failed; options out of range give no handle. */
    static method Start(os: Os, timeoutMs: int64, graceMs: int64, spawned: bool) returns (r: Result, process: Process?)
      requires os.log == []
      modifies os
      ensures r == INVALID_ARGUMENT <==> timeoutMs < -1 || graceMs < -1
      ensures r == INVALID_ARGUMENT <==> process == null
      ensures process != null ==> fresh(process) && process.os == os && process.Valid()
      ensures process != null ==> process.timeoutMs == timeoutMs && process.graceMs == graceMs
      ensures r == OK ==> process.status == RUNNING && !process.reaped && !process.timedOut && !process.cancelled
      ensures r == OK ==> os.log == [ClockRead(process.startedMs)]
      ensures r == SYSTEM_ERROR ==> process.status == STATUS_ERROR && process.reaped && os.log == []
      ensures r != INVALID_ARGUMENT ==> r == if spawned then OK else SYSTEM_ERROR
    {
      if timeoutMs < -1 || graceMs < -1 {
        return INVALID_ARGUMENT, null;
      }
      process := new Process(os, timeoutMs, graceMs);
      if !spawned {
        process.reaped := true;
        return SYSTEM_ERROR, process;
      }
      process.startedMs := os.Now();
      process.status := RUNNING;
      r := OK;
    }

    constructor (os: Os, timeoutMs: int64, graceMs: int64)
      ensures this.os == os && this.timeoutMs == timeoutMs && this.graceMs == graceMs
      ensures status == STATUS_ERROR && !reaped && !timedOut && !cancelled
    {
      this.os, this.timeoutMs, this.graceMs := os, timeoutMs, graceMs;
      startedMs, status, exitCode, termSignal := 0, STATUS_ERROR, -1, 0;
      timedOut, cancelled, error, reaped := false, false, NoFailure, false;
    }

    method RecordWait(ended: WaitStatus)
      modifies this`reaped, this`status, this`exitCode, this`termSignal
      ensures reaped && Reports(ended)
    {
      reaped := true;
      if ended.WExited? {
        status, exitCode, termSignal := EXITED, ended.code, 0;
      } else {
        status := if timedOut then STATUS_TIMED_OUT else if cancelled then STATUS_CANCELLED else SIGNALED;
        exitCode, termSignal := -1, ended.signal;
      }
    }

    method Fail(call: string, errno: Errno)
      modifies this`error
      ensures error == Failure(call, errno)
    {
      error := Failure(call, errno);
    }

    /** waitpid, again while it is interrupted: the calls made are interruptions, then one answer. */
    method Probe(hang: bool) returns (answer: WaitAnswer)
      requires Running()
      modifies os
      ensures Interrupted(old(os.log), os.log, answer)
      ensures answer != WaitFailed(EINTR) && (answer.StillRunning? ==> !hang)
      ensures os.patience <= old(os.patience)
      ensures answer.StillRunning? || answer == WaitFailed(ECHILD) ==> os.patience < old(os.patience)
      ensures KillsAfterGrace(os.log, EffectiveGrace(graceMs) as int)
    {
      answer := os.WaitPid(hang);
      AppendKeepsGrace(old(os.log), Waited(answer), EffectiveGrace(graceMs) as int);
      while answer == WaitFailed(EINTR)
        invariant Interrupted(old(os.log), os.log, answer)
        invariant answer.StillRunning? ==> !hang
        invariant os.patience <= old(os.patience)
        invariant answer.StillRunning? || answer == WaitFailed(EINTR) || answer == WaitFailed(ECHILD) ==> os.patience < old(os.patience)
        invariant KillsAfterGrace(os.log, EffectiveGrace(graceMs) as int)
        decreases os.patience, answer == WaitFailed(EINTR)
      {
        ghost var was := os.log;
        answer := os.WaitPid(hang);
        AppendKeepsGrace(was, Waited(answer), EffectiveGrace(graceMs) as int);
      }
    }

    /** How an attempt to end the child leaves the handle: reaped, or with a failed wait behind it. */
    ghost predicate Ended()
      reads this, os
    {
      && os.log != []
      && ReapedLast(os.log)
      && KillsAfterGrace(os.log, EffectiveGrace(graceMs) as int)
      && (reaped <==> IsReap(os.log[|os.log| - 1]))
      && (reaped ==> Reports(os.log[|os.log| - 1].answer.status))
      && (!reaped ==> status == STATUS_ERROR && FailsLast(os.log) && HardFailure(os.log))
      && os.log[|os.log| - 1].Waited?
    }

    /** Takes in a wait that reaped the child or failed for good. */
    method Settle(answer: WaitAnswer, ghost was: seq<SysCall>)
      requires !reaped && Interrupted(was, os.log, answer) && answer != WaitFailed(EINTR) && !answer.StillRunning?
      requires forall i :: 0 <= i < |was| ==> !IsReap(was[i])
      requires KillsAfterGrace(os.log, EffectiveGrace(graceMs) as int)
      modifies this
      ensures Ended() && SameRequest() && reaped == answer.Reaped?
    {
      if answer.Reaped? {
        RecordWait(answer.status);
      } else {
        Fail("waitpid", answer.errno);
        status := STATUS_ERROR;
        assert IsHardFailure(os.log[|os.log| - 1]);
      }
    }

    method ReapBlocking()
      requires Running()
      modifies this, os
      ensures Ended() && SameRequest() && old(os.log) <= os.log
      ensures forall i :: |old(os.log)| <= i < |os.log| ==> os.log[i].Waited?
    {
      var answer := Probe(true);
      Settle(answer, old(os.log));
    }

    method ReadClock() returns (now: int64)
      requires Running()
      modifies os`log, os`time
      ensures Running() && os.log == old(os.log) + [ClockRead(now)] && os.time >= old(os.time)
      ensures 0 <= now ==> now as int <= os.time && (now < INT64_MAX ==> now as int == os.time)
    {
      now := os.Now();
      AppendKeepsGrace(old(os.log), ClockRead(now), EffectiveGrace(graceMs) as int);
    }

    method Rest()
      requires Running()
      modifies os`log, os`time
      ensures Running() && os.log == old(os.log) + [Slept]
    {
      os.Sleep();
      AppendKeepsGrace(old(os.log), Slept, EffectiveGrace(graceMs) as int);
    }

    /** Sends SIGTERM and works out when the grace period ends; a clock that fails, or a sum that saturates, means never. */
    method Term() returns (deadline: int64)
      requires Running()
      modifies this`error, os`log, os`time
      ensures Running() && |os.log| == |old(os.log)| + 2 && old(os.log) < os.log
      ensures TermAt(os.log, |old(os.log)|, |os.log|)
      ensures deadline != INT64_MAX ==> deadline as int >= os.log[|old(os.log)|].at + EffectiveGrace(graceMs) as int
      ensures os.log[|old(os.log)| + 1].ClockRead?
      ensures deadline == AbsoluteDeadline(EffectiveGrace(graceMs), os.log[|old(os.log)| + 1].now)
    {
      var failure, errno := os.KillGroup(SIGTERM);
      if failure && errno != ESRCH {
        Fail("killpg(SIGTERM)", errno);
      }
      AppendKeepsGrace(old(os.log), os.log[|old(os.log)|], EffectiveGrace(graceMs) as int);
      var grace := EffectiveGrace(graceMs);
      deadline := ReadClock();
      if deadline >= 0 && grace <= INT64_MAX - deadline {
        deadline := deadline + grace;
      } else {
        deadline := INT64_MAX;
      }
    }

    /** Sends SIGKILL once the grace period since the SIGTERM at j is over, and waits for the child to end. */
    method KillAndReap(ghost j: nat)
      requires Running() && j < |os.log| && TermAt(os.log, j, |os.log|)
      requires os.time >= os.log[j].at + EffectiveGrace(graceMs) as int
      modifies this, os
      ensures Ended() && SameRequest() && old(os.log) < os.log
      ensures IsSignal(os.log[|old(os.log)|], SIGKILL)
      ensures forall i :: |old(os.log)| < i < |os.log| ==> os.log[i].Waited?
    {
      ghost var was := os.log;
      var failure, errno := os.KillGroup(SIGKILL);
      assert TermAt(os.log, j, |was|);
      AppendKeepsGrace(was, os.log[|was|], EffectiveGrace(graceMs) as int);
      if failure && errno != ESRCH {
        Fail("killpg(SIGKILL)", errno);
      }
      ReapBlocking();
    }

    /** One probe of a child in its grace period; when the probe does not settle it, a look at the clock and a rest. */
    method GraceTurn(deadline: int64, ghost j: nat) returns (settled: bool, over: bool)
      requires Running() && j + 1 < |os.log| && TermAt(os.log, j, |os.log|) && os.log[j + 1].ClockRead?
      requires !KilledSince(os.log, j) && !GraceRanOut(os.log, j, EffectiveGrace(graceMs))
      requires deadline == AbsoluteDeadline(EffectiveGrace(graceMs), os.log[j + 1].now)
      requires deadline != INT64_MAX ==> deadline as int >= os.log[j].at + EffectiveGrace(graceMs) as int
      modifies this, os
      ensures SameRequest() && old(os.log) < os.log
      ensures settled ==> Ended() && !over
      ensures !settled ==> Running()
      ensures TermAt(os.log, j, |os.log|)
      ensures !over ==> !KilledSince(os.log, j) && !GraceRanOut(os.log, j, EffectiveGrace(graceMs))
      ensures over ==> GraceOverAt(os.log, j, |os.log| - 1, EffectiveGrace(graceMs))
      ensures over ==> os.time >= os.log[j].at + EffectiveGrace(graceMs) as int
      ensures !settled && !over ==> os.patience < old(os.patience)
    {
      hide KillsAfterGrace, ReapedLast, HardFailure, KilledSince, GraceRanOut;
      settled, over := false, false;
      ghost var was := os.log;
      var answer := Probe(false);
      StaysInGrace(was, os.log, j, EffectiveGrace(graceMs));
      if answer.Reaped? || (answer.WaitFailed? && answer.errno != ECHILD) {
        Settle(answer, was);
        return true, false;
      }
      was := os.log;
      if deadline != INT64_MAX {
        var now := ReadClock();
        if now >= 0 && now >= deadline {
          return false, true;
        }
      }
      Rest();
      StaysInGrace(was, os.log, j, EffectiveGrace(graceMs));
    }

    /** SIGTERM to the group, probes until the grace period is over, then SIGKILL and a wait to the end: SIGKILL is
        sent exactly when a reading of the clock finds the grace period over. */
    method TerminateGroup()
      requires Running()
      modifies this, os
      ensures Ended() && SameRequest() && old(os.log) < os.log
      ensures IsSignal(os.log[|old(os.log)|], SIGTERM)
      ensures forall i :: |old(os.log)| < i < |os.log| ==> !IsSignal(os.log[i], SIGTERM)
      ensures KilledSince(os.log, |old(os.log)|) <==> GraceRanOut(os.log, |old(os.log)|, EffectiveGrace(graceMs))
    {
      ghost var j, grace := |old(os.log)|, EffectiveGrace(graceMs);
      var deadline := Term();
      assert !KilledSince(os.log, j) && !GraceRanOut(os.log, j, grace);
      hide KillsAfterGrace, ReapedLast, HardFailure, KilledSince, GraceRanOut, WaitHit;
      while true
        invariant Running() && SameRequest() && old(os.log) < os.log && j + 1 < |os.log|
        invariant TermAt(os.log, j, |os.log|) && os.log[j + 1].ClockRead?
        invariant !KilledSince(os.log, j) && !GraceRanOut(os.log, j, grace)
        invariant deadline == AbsoluteDeadline(grace, os.log[j + 1].now)
        invariant deadline != INT64_MAX ==> deadline as int >= os.log[j].at + grace as int
        decreases os.patience
      {
        var settled, over := GraceTurn(deadline, j);
        if settled { return; }
        if over { break; }
      }
      ghost var was := os.log;
      KillAndReap(j);
      KilledAfterGrace(was, os.log, j, grace);
    }

    /** Ends a child whose last probe was late. */
    method TimeOut(ghost from: nat, ghost hit: Deadline)
      requires Running() && from <= |os.log| - 2
      requires LateAt(os.log, from, |os.log| - 2, hit, timeoutMs, startedMs) && LateTail(os.log, timeoutMs, startedMs)
      requires Reasons()
      modifies this, os
      ensures Reasons()
      ensures Ended() && old(os.log) < os.log && startedMs == old(startedMs) && cancelled == old(cancelled) && timedOut
      ensures Late(os.log, from, hit, timeoutMs, startedMs)
    {
      timedOut := true;
      TerminateGroup();
      OneReason(old(os.log), os.log, true, timeoutMs, startedMs);
      OneReason(old(os.log), os.log, false, timeoutMs, startedMs);
      assert LateAt(os.log, from, |old(os.log)| - 2, hit, timeoutMs, startedMs);
    }

    /** One probe without blocking; a child found alive past its deadline is ended. */
    method Poll() returns (r: Result)
      requires Valid()
      modifies this, os
      ensures Valid() && startedMs == old(startedMs) && cancelled == old(cancelled)
      ensures old(reaped) ==> Unchanged() && r == Verdict() && LogSays(os.log, timeoutMs, startedMs, r)
      ensures !old(reaped) ==> old(os.log) < os.log && Answers(this, r, |old(os.log)|, PollHit, old(timedOut))
      ensures !old(reaped) && !reaped && r == OK ==> status == old(status)
    {
      if reaped {
        VerdictIsOnRecord(this);
        return Verdict();
      }
      assert Running();
      assert !HardFailure(os.log) ==> !timedOut && !cancelled;
      hide KillsAfterGrace, ReapedLast, HardFailure, EndedFor, StatusOf, SoundHandle, Answers;
      ghost var from := |old(os.log)|;
      var answer := Probe(false);
      FailurePersists(old(os.log), os.log);
      KeepReasons(this, old(os.log));
      if !answer.StillRunning? {
        Settle(answer, old(os.log));
        EndedIsValid(this);
        AnswersEnd(this, from, PollHit);
        return if answer.Reaped? then OK else SYSTEM_ERROR;
      }
      r := CheckDeadline(from);
    }

    /** A child just found alive is ended when its deadline has passed. */
    method CheckDeadline(ghost from: nat) returns (r: Result)
      requires Running() && Reasons() && from < |os.log| && os.log[|os.log| - 1] == Waited(StillRunning)
      requires Unsignalled(os.log, from, |os.log|) && !Late(os.log, from, PollHit, timeoutMs, startedMs)
      requires timedOut || cancelled || status != RUNNING ==> HardFailure(os.log)
      modifies this, os
      ensures Valid() && startedMs == old(startedMs) && cancelled == old(cancelled) && old(os.log) <= os.log
      ensures Answers(this, r, from, PollHit, old(timedOut))
      ensures !reaped && r == OK ==> status == old(status)
    {
      hide KillsAfterGrace, ReapedLast, HardFailure, EndedFor, StatusOf, SoundHandle, Answers, Late;
      ghost var was := os.log;
      if timeoutMs >= 0 && startedMs >= 0 {
        var now := ReadClock();
        var deadline := SaturatingSum(startedMs, timeoutMs);
        KeepReasons(this, was);
        if now >= 0 && now >= deadline {
          TimeOut(from, PollHit);
          FailurePersists(was, os.log);
          EndedIsValid(this);
          AnswersLate(this, from, PollHit, old(timedOut));
          return TIMED_OUT;
        }
        StaysOnTime(was, os.log, from, PollHit, timeoutMs, startedMs);
      }
      FailurePersists(was, os.log);
      RunningIsValid(this);
      AnswersAlive(this, from, PollHit);
      return OK;
    }

    /** One turn of wait: a probe, a look at the clock unless there is no deadline, and a millisecond's sleep. */
    method Turn(deadline: int64, ghost from: nat) returns (late: bool, answer: WaitAnswer)
      requires Running() && from <= |os.log| && deadline == AbsoluteDeadline(timeoutMs, startedMs)
      requires Unsignalled(os.log, from, |os.log|) && !Late(os.log, from, WaitHit, timeoutMs, startedMs)
      modifies this, os
      ensures SameRequest() && old(os.log) < os.log && Unsignalled(os.log, |old(os.log)|, |os.log|)
      ensures late || answer.StillRunning? ==> Running() && status == old(status) && Unsignalled(os.log, from, |os.log|)
      ensures late ==> from <= |os.log| - 2 && LateAt(os.log, from, |os.log| - 2, WaitHit, timeoutMs, startedMs)
      ensures !late ==> !Late(os.log, from, WaitHit, timeoutMs, startedMs)
      ensures !late && !answer.StillRunning? ==> Ended() && reaped == answer.Reaped?
      ensures !late && answer.StillRunning? ==> os.patience < old(os.patience)
    {
      hide KillsAfterGrace, HardFailure, Late, ReapedLast;
      late := false;
      ghost var was := os.log;
      answer := Probe(false);
      StaysOnTime(was, os.log, from, WaitHit, timeoutMs, startedMs);
      if !answer.StillRunning? {
        Settle(answer, was);
        return;
      }
      was := os.log;
      if deadline != INT64_MAX {
        var now := ReadClock();
        if now >= 0 && now >= deadline {
          return true, answer;
        }
      }
      Rest();
      StaysOnTime(was, os.log, from, WaitHit, timeoutMs, startedMs);
    }

    /** Probes until the child is reaped, its deadline passes or a wait fails. */
    method Wait() returns (r: Result)
      requires Valid()
      modifies this, os
      ensures Valid() && startedMs == old(startedMs) && cancelled == old(cancelled)
      ensures old(reaped) ==> Unchanged() && r == Verdict() && LogSays(os.log, timeoutMs, startedMs, r)
      ensures !old(reaped) ==> old(os.log) < os.log && Answers(this, r, |old(os.log)|, WaitHit, old(timedOut))
      ensures r == OK ==> reaped
    {
      if reaped {
        VerdictIsOnRecord(this);
        return Verdict();
      }
      ghost var from := |old(os.log)|;
      var deadline := AbsoluteDeadline(timeoutMs, startedMs);
      assert !Late(os.log, from, WaitHit, timeoutMs, startedMs);
      hide KillsAfterGrace, HardFailure, Late, ReapedLast, EndedFor, StatusOf, SoundHandle, Answers;
      while true
        invariant Running() && SameRequest() && status == old(status) && old(os.log) <= os.log
        invariant Unsignalled(os.log, from, |os.log|) && !Late(os.log, from, WaitHit, timeoutMs, startedMs)
        invariant Reasons()
        decreases os.patience
      {
        ghost var before := os.log;
        var late, answer := Turn(deadline, from);
        FailurePersists(old(os.log), os.log);
        KeepReasons(this, before);
        if late {
          DeadlinesPart(timeoutMs, startedMs, os.log[|os.log| - 1].now);
          TimeOut(from, WaitHit);
          FailurePersists(old(os.log), os.log);
          EndedIsValid(this);
          AnswersLate(this, from, WaitHit, old(timedOut));
          return TIMED_OUT;
        }
        if !answer.StillRunning? {
          EndedIsValid(this);
          AnswersEnd(this, from, WaitHit);
          return if answer.Reaped? then OK else SYSTEM_ERROR;
        }
      }
    }

    /** Asks for the end of the child; a child already reaped is left as it is. */
    method Cancel() returns (r: Result)
      requires Valid()
      modifies this, os
      ensures Valid() && startedMs == old(startedMs) && timedOut == old(timedOut)
      ensures old(reaped) ==> Unchanged()
      ensures !old(reaped) ==> cancelled && old(os.log) < os.log && IsSignal(os.log[|old(os.log)|], SIGTERM)
      ensures !old(reaped) && !HardFailure(os.log) ==> reaped
      ensures r == if status == STATUS_ERROR then SYSTEM_ERROR else CANCELLED
      ensures r == if ReapsLast(os.log) then CANCELLED else SYSTEM_ERROR
    {
      Abandon();
      if reaped { StatusIsOnRecord(this); }
      return if status == STATUS_ERROR then SYSTEM_ERROR else CANCELLED;
    }

    /** Ends the child before the handle is freed. */
    method Destroy()
      requires Valid()
      modifies this, os
      ensures Valid() && old(os.log) <= os.log
      ensures old(reaped) ==> Unchanged()
      ensures reaped || HardFailure(os.log)
    {
      Abandon();
    }

    method Abandon()
      requires Valid()
      modifies this, os
      ensures Valid() && startedMs == old(startedMs) && timedOut == old(timedOut) && old(os.log) <= os.log
      ensures old(reaped) ==> Unchanged()
      ensures !old(reaped) ==> cancelled && old(os.log) < os.log && IsSignal(os.log[|old(os.log)|], SIGTERM)
      ensures reaped || HardFailure(os.log)
      ensures !reaped ==> status == STATUS_ERROR && !ReapsLast(os.log)
    {
      if !reaped {
        cancelled := true;
        TerminateGroup();
        OneReason(old(os.log), os.log, true, timeoutMs, startedMs);
        OneReason(old(os.log), os.log, false, timeoutMs, startedMs);
        FailurePersists(old(os.log), os.log);
      }
    }
  }

  /** What the log of calls says of a handle. */
  ghost predicate SoundHandle(p: Process)
    reads p, p.os
  {
    && ReapedLast(p.os.log)
    && KillsAfterGrace(p.os.log, EffectiveGrace(p.graceMs) as int)
    && (p.reaped <==> p.os.log == [] || IsReap(p.os.log[|p.os.log| - 1]))
    && (p.reaped && p.os.log == [] ==> p.status == STATUS_ERROR && !p.timedOut && !p.cancelled)
    && (p.reaped && p.os.log != [] ==> p.Reports(p.os.log[|p.os.log| - 1].answer.status))
    && (p.timedOut && p.cancelled ==> HardFailure(p.os.log))
    && ((p.timedOut || p.cancelled || p.status != RUNNING) && !p.reaped ==> HardFailure(p.os.log))
    && p.Reasons()
    && (!p.reaped ==> !LateTail(p.os.log, p.timeoutMs, p.startedMs))
  }

  /** What a poll or wait over a live child answers, from the calls it made. */
  ghost predicate Answers(p: Process, r: Result, from: nat, hit: Deadline, wasTimedOut: bool)
    reads p, p.os
  {
    && (r == TIMED_OUT <==> Late(p.os.log, from, hit, p.timeoutMs, p.startedMs))
    && (p.timedOut <==> wasTimedOut || r == TIMED_OUT)
    && (r == SYSTEM_ERROR ==> HardFailure(p.os.log) && !p.reaped)
    && (r == SYSTEM_ERROR <==> r != TIMED_OUT && FailsLast(p.os.log))
    && (p.reaped && !HardFailure(p.os.log) ==> r == p.Verdict())
    && r != CANCELLED && r != INVALID_ARGUMENT
  }

  /** The verdict on a reaped child is what the calls on record say. */
  lemma VerdictIsOnRecord(p: Process)
    requires p.Valid() && p.reaped
    ensures LogSays(p.os.log, p.timeoutMs, p.startedMs, p.Verdict())
  {
    hide KillsAfterGrace, ReapedLast, LateTail, HardFailure;
  }

  /** What a handle reports of its child: its own code when it exited, otherwise the signal that ended it and why it was
      sent. */
  lemma StatusIsOnRecord(p: Process)
    requires p.Valid() && p.reaped
    ensures p.status == STATUS_ERROR <==> p.os.log == []
    ensures p.os.log != [] ==> IsReap(p.os.log[|p.os.log| - 1])
    ensures p.os.log != [] ==>
      match p.os.log[|p.os.log| - 1].answer.status
      case WExited(code) => p.status == EXITED && p.exitCode == code && p.termSignal == 0
      case WSignaled(signal) =>
        && p.exitCode == -1 && p.termSignal == signal
        && (p.status == STATUS_TIMED_OUT <==> EndedFor(p.os.log, true, p.timeoutMs, p.startedMs))
        && (p.status == STATUS_CANCELLED <==>
              EndedFor(p.os.log, false, p.timeoutMs, p.startedMs) && !EndedFor(p.os.log, true, p.timeoutMs, p.startedMs))
        && p.status in {STATUS_TIMED_OUT, STATUS_CANCELLED, SIGNALED}
  {
    hide KillsAfterGrace, ReapedLast, LateTail, HardFailure, EndedFor;
  }

  /** Calls that send no SIGTERM leave the reasons alone. */
  lemma KeepReasons(p: Process, was: seq<SysCall>)
    requires was <= p.os.log && forall i :: |was| <= i < |p.os.log| ==> !IsSignal(p.os.log[i], SIGTERM)
    requires p.timedOut <==> EndedFor(was, true, p.timeoutMs, p.startedMs)
    requires p.cancelled <==> EndedFor(was, false, p.timeoutMs, p.startedMs)
    ensures p.Reasons()
  {
    SameReasons(was, p.os.log, true, p.timeoutMs, p.startedMs);
    SameReasons(was, p.os.log, false, p.timeoutMs, p.startedMs);
  }

  /** A handle whose child was ended is sound again, once its flags tell why. */
  lemma EndedIsValid(p: Process)
    requires p.Ended() && p.Reasons() && (p.timedOut && p.cancelled ==> HardFailure(p.os.log))
    ensures p.Valid()
  {
    hide KillsAfterGrace, ReapedLast, EndedFor;
  }

  /** So is a handle whose child goes on running. */
  lemma RunningIsValid(p: Process)
    requires p.Running() && p.Reasons() && !LateTail(p.os.log, p.timeoutMs, p.startedMs)
    requires p.timedOut || p.cancelled || p.status != RUNNING ==> HardFailure(p.os.log)
    ensures p.Valid()
  {
    hide KillsAfterGrace, EndedFor, LateTail;
  }

  /** What it answers when the child is ended, or lost to a failed wait, before it is late. */
  lemma AnswersEnd(p: Process, from: nat, hit: Deadline)
    requires p.Ended() && !Late(p.os.log, from, hit, p.timeoutMs, p.startedMs)
    requires p.timedOut || p.cancelled ==> HardFailure(p.os.log)
    ensures Answers(p, if p.reaped then OK else SYSTEM_ERROR, from, hit, p.timedOut)
  {
    hide Late, KillsAfterGrace, ReapedLast;
  }

  /** When it is found alive in time. */
  lemma AnswersAlive(p: Process, from: nat, hit: Deadline)
    requires !p.reaped && !FailsLast(p.os.log) && !Late(p.os.log, from, hit, p.timeoutMs, p.startedMs)
    ensures Answers(p, OK, from, hit, p.timedOut)
  {
    hide Late;
  }

  /** And when it was late. */
  lemma AnswersLate(p: Process, from: nat, hit: Deadline, wasTimedOut: bool)
    requires p.timedOut && Late(p.os.log, from, hit, p.timeoutMs, p.startedMs)
    ensures Answers(p, TIMED_OUT, from, hit, wasTimedOut)
  {
    hide Late;
  }

  /** The calls after `was` are interrupted waits followed by one wait that gave `answer`. */
  ghost predicate Interrupted(was: seq<SysCall>, log: seq<SysCall>, answer: WaitAnswer) {
    && |was| < |log| && log[..|was|] == was
    && log[|log| - 1] == Waited(answer)
    && forall i :: |was| <= i < |log| - 1 ==> log[i] == Waited(WaitFailed(EINTR))
  }

  /** Both flags are up exactly when the group was sent SIGTERM twice, once right after a late probe and once without
      one, which takes a wait that failed. */
  lemma BothFlags(process: Process)
    requires process.Valid()
    ensures process.timedOut && process.cancelled <==>
      EndedFor(process.os.log, true, process.timeoutMs, process.startedMs) && EndedFor(process.os.log, false, process.timeoutMs, process.startedMs)
    ensures process.timedOut && process.cancelled ==> HardFailure(process.os.log)
  {
  }

  // ---------------------------------------------------------------- whole lives

  datatype Call = PollCall | WaitCall | CancelCall

  /** The answers of poll and wait, where calls came after the child was reaped, are all one. */
  ghost predicate OneVerdict(calls: seq<Call>, reapedBefore: seq<bool>, answers: seq<Result>)
    requires |calls| == |reapedBefore| == |answers|
  {
    forall i, j :: 0 <= i < j < |calls| && reapedBefore[i] && calls[i] != CancelCall && calls[j] != CancelCall
      ==> answers[i] == answers[j]
  }

  /** No poll or wait says "timed out" of a child of which another says "cancelled". */
  ghost predicate NeverBoth(calls: seq<Call>, answers: seq<Result>)
    requires |calls| == |answers|
  {
    forall i, j :: 0 <= i < |calls| && 0 <= j < |calls| && calls[i] != CancelCall && calls[j] != CancelCall
      ==> !(answers[i] == TIMED_OUT && answers[j] == CANCELLED)
  }

  /** One call on the handle. */
  method Make(process: Process, call: Call) returns (answer: Result)
    requires process.Valid()
    modifies process, process.os
    ensures process.Valid() && (process.os.log == [] <==> old(process.os.log) == [])
    ensures process.startedMs == old(process.startedMs) && old(process.os.log) <= process.os.log
    ensures old(process.reaped) ==> process.os.log == old(process.os.log)
    ensures call == CancelCall && old(process.reaped) ==> answer == if process.os.log == [] then SYSTEM_ERROR else CANCELLED
    ensures old(process.reaped) ==> process.reaped && process.Verdict() == old(process.Verdict())
    ensures old(process.reaped) ==> process.timedOut == old(process.timedOut)
    ensures old(process.timedOut) ==> process.timedOut
    ensures call != CancelCall && old(process.reaped) ==> answer == process.Verdict()
    ensures call != CancelCall && answer == TIMED_OUT ==> process.timedOut
    ensures call != CancelCall && answer == CANCELLED ==> process.reaped && !process.timedOut
  {
    hide ReapedLast, KillsAfterGrace, HardFailure, EndedFor, LateTail, Late;
    if process.reaped { StatusIsOnRecord(process); }
    match call {
      case PollCall => answer := process.Poll();
      case WaitCall => answer := process.Wait();
      case CancelCall => answer := process.Cancel();
    }
  }

  /** The time the child was started, which is the first thing on record. */
  ghost function StartOf(log: seq<SysCall>): int64 {
    if log != [] && log[0].ClockRead? then log[0].now else 0
  }

  lemma LifeIsOnRecord(p: Process)
    requires p.Valid() && p.reaped && (p.os.log != [] ==> p.os.log[0] == ClockRead(p.startedMs))
    ensures LogSays(p.os.log, p.timeoutMs, StartOf(p.os.log), p.Verdict())
  {
    VerdictIsOnRecord(p);
    hide SoundHandle;
    if p.os.log == [] {
      assert forall late, started :: !EndedFor([], late, p.timeoutMs, started);
    }
  }

  /** What the answers given so far say of the handle now. */
  ghost predicate Told(process: Process, calls: seq<Call>, reapedBefore: seq<bool>, answers: seq<Result>)
    requires |answers| == |reapedBefore| <= |calls|
    reads process, process.os
  {
    forall i :: 0 <= i < |answers| ==> ToldOne(process, calls[i], reapedBefore[i], answers[i])
  }

  ghost predicate ToldOne(process: Process, call: Call, reapedBefore: bool, answer: Result)
    reads process, process.os
  {
    && (reapedBefore ==> process.reaped)
    && (call != CancelCall && reapedBefore ==> answer == process.Verdict())
    && (call == CancelCall && reapedBefore ==> answer == if process.os.log == [] then SYSTEM_ERROR else CANCELLED)
    && (call != CancelCall && answer == TIMED_OUT ==> process.timedOut)
    && (call != CancelCall && answer == CANCELLED ==> process.reaped && !process.timedOut)
  }

  /** Any calls in any order on one handle. */
  method MakeAll(process: Process, calls: seq<Call>) returns (answers: seq<Result>, reapedBefore: seq<bool>)
    requires process.Valid()
    modifies process, process.os
    ensures process.Valid() && process.startedMs == old(process.startedMs) && old(process.os.log) <= process.os.log
    ensures |answers| == |reapedBefore| == |calls| && Told(process, calls, reapedBefore, answers)
    ensures OneVerdict(calls, reapedBefore, answers) && NeverBoth(calls, answers)
    ensures old(process.os.log) == [] <==> process.os.log == []
  {
    answers, reapedBefore := [], [];
    while |answers| < |calls|
      invariant |answers| == |reapedBefore| <= |calls| && process.Valid()
      invariant process.startedMs == old(process.startedMs) && old(process.os.log) <= process.os.log
      invariant old(process.os.log) == [] <==> process.os.log == []
      invariant Told(process, calls, reapedBefore, answers)
      invariant OneVerdict(calls[..|answers|], reapedBefore, answers)
    {
      hide SoundHandle, LogSays, KillsAfterGrace, ReapedLast, EndedFor;
      var done := process.reaped;
      var answer := Make(process, calls[|answers|]);
      answers, reapedBefore := answers + [answer], reapedBefore + [done];
    }
    assert calls[..|answers|] == calls;
    assert forall i :: 0 <= i < |answers| ==> ToldOne(process, calls[i], reapedBefore[i], answers[i]);
  }

  /** Any calls in any order on one child, from its start to the destruction of its handle. */
  method Life(os: Os, timeoutMs: int64, graceMs: int64, spawned: bool, calls: seq<Call>)
    returns (answers: seq<Result>, reapedBefore: seq<bool>)
    requires os.log == [] && timeoutMs >= -1 && graceMs >= -1
    modifies os
    ensures |answers| == |reapedBefore| == |calls| && OneVerdict(calls, reapedBefore, answers)
    ensures ReapedLast(os.log) && KillsAfterGrace(os.log, if graceMs == -1 then 100 else graceMs as int)
    ensures spawned && !HardFailure(os.log) ==> os.log != [] && IsReap(os.log[|os.log| - 1])
    ensures NeverBoth(calls, answers)
    ensures !spawned ==> os.log == []
    // What is answered about a child reaped before is what the calls on record say.
    ensures forall i :: 0 <= i < |calls| && reapedBefore[i] && calls[i] != CancelCall ==> LogSays(os.log, timeoutMs, StartOf(os.log), answers[i])
    ensures forall i :: 0 <= i < |calls| && reapedBefore[i] && calls[i] == CancelCall ==> answers[i] == if spawned then CANCELLED else SYSTEM_ERROR
  {
    var r, process := Process.Start(os, timeoutMs, graceMs, spawned);
    answers, reapedBefore := MakeAll(process, calls);
    ghost var done := process.reaped;
    process.Destroy();
    if done { LifeIsOnRecord(process); }
    hide LogSays, KillsAfterGrace, ReapedLast, EndedFor, HardFailure, OneVerdict, NeverBoth;
    assert forall i :: 0 <= i < |answers| && reapedBefore[i] ==> done;
  }
}
