/** The build cache (_build.py): processes that race for one artifact take a lock, look again, build to a temporary
    file, publish it by an atomic rename and prune what is stale.  Any of them may crash at any step. */
module NativeBuild {
  import opened Wrappers

  // ---------------------------------------------------------------- file names

  const STEM := "_native.hash-"
  const SUFFIX := ".so"
  const TEMP_SUFFIX := ".tmp.so"

  predicate EndsWith(name: string, suffix: string) {
    |suffix| <= |name| && name[|name| - |suffix|..] == suffix
  }

  /** What the pattern `_native.hash-*.so` matches, and its variant for temporary files. */
  predicate Globbed(name: string, suffix: string) {
    |STEM| + |suffix| <= |name| && STEM <= name && EndsWith(name, suffix)
  }

  function ArtifactName(digest: string): string { STEM + digest + SUFFIX }

  function TempName(digest: string, random: string): string { STEM + digest + "." + random + TEMP_SUFFIX }

  /** A digest has no dot, so no artifact passes for a temporary file, and every temporary file is globbed as one. */
  lemma NamesApart(digest: string, random: string)
    requires '.' !in digest
    ensures Globbed(ArtifactName(digest), SUFFIX) && !EndsWith(ArtifactName(digest), TEMP_SUFFIX)
    ensures Globbed(TempName(digest, random), TEMP_SUFFIX) && Globbed(TempName(digest, random), SUFFIX)
  {
    var name := ArtifactName(digest);
    assert name[|name| - |SUFFIX|..] == SUFFIX;
    var at := |name| - |TEMP_SUFFIX|;
    assert name[at] == if |digest| >= 4 then digest[|digest| - 4] else STEM[|STEM| + |digest| - 4];
    assert name[at..][0] == name[at] != '.';
    var temp := TempName(digest, random);
    assert temp[|temp| - |TEMP_SUFFIX|..] == TEMP_SUFFIX;
    assert temp[|temp| - |SUFFIX|..] == SUFFIX;
  }

  class CacheDirectory {
    var files: set<string>

    /** `_prune_stale_native_artifacts`: first the other artifacts, then the temporary files. */
    method PruneStale(keep: string)
      modifies this
      ensures files == set name | name in old(files) && (name == keep || !Globbed(name, SUFFIX))
    {
      var listing := set name | name in files && Globbed(name, SUFFIX);
      ghost var was := files;
      var left := listing;
      while left != {}
        invariant left <= listing
        invariant files == set name | name in was && !(name in listing - left && name != keep && !EndsWith(name, TEMP_SUFFIX))
        decreases left
      {
        var entry :| entry in left;
        left := left - {entry};
        if entry == keep { continue; }
        if EndsWith(entry, TEMP_SUFFIX) { continue; }
        files := files - {entry};
      }
      assert files == set name | name in was && !(Globbed(name, SUFFIX) && name != keep && !EndsWith(name, TEMP_SUFFIX));
      ghost var mid := files;
      listing := set name | name in files && Globbed(name, TEMP_SUFFIX);
      left := listing;
      while left != {}
        invariant left <= listing
        invariant files == set name | name in mid && !(name in listing - left && name != keep)
        decreases left
      {
        var entry :| entry in left;
        left := left - {entry};
        if entry == keep { continue; }
        files := files - {entry};
      }
      forall name | EndsWith(name, TEMP_SUFFIX) && Globbed(name, SUFFIX) ensures Globbed(name, TEMP_SUFFIX) {
        GlobbedTemp(name);
      }
      assert forall name :: Globbed(name, TEMP_SUFFIX) ==> Globbed(name, SUFFIX) by {
        forall name | Globbed(name, TEMP_SUFFIX) ensures Globbed(name, SUFFIX) {
          assert name[|name| - |SUFFIX|..] == name[|name| - |TEMP_SUFFIX|..][4..];
        }
      }
    }
  }

  /** A name that starts as an artifact and ends as a temporary file has room for both. */
  lemma GlobbedTemp(name: string)
    requires Globbed(name, SUFFIX) && EndsWith(name, TEMP_SUFFIX)
    ensures Globbed(name, TEMP_SUFFIX)
  {
    var at := |name| - |TEMP_SUFFIX|;
    assert forall k :: 0 <= k < |TEMP_SUFFIX| ==> name[at + k] == name[at..][k];
    assert name[at] == '.' && name[at + 1] == 't';
    assert forall k :: 0 <= k < |STEM| ==> name[k] == STEM[k];
  }

  // ---------------------------------------------------------------- racing builders

  datatype Content = Empty | Partial | Complete(digest: string)

  /** The files of the cache: one artifact per digest, and temporary files whose names are never used twice. */
  datatype File = Artifact(digest: string) | Temp(nonce: nat)

  datatype Phase =
    | Idle
    | Looking
    | Waiting                              // for the lock
    | Checking                             // the lock is held from here ...
    | Creating
    | Building(temp: nat)
    | Publishing(temp: nat)
    | Cleaning(temp: nat, built: bool)
    | Pruning
    | Releasing(built: bool)               // ... to here
    | Returned
    | Failed

  predicate Critical(phase: Phase) {
    !phase.Idle? && !phase.Looking? && !phase.Waiting? && !phase.Returned? && !phase.Failed?
  }

  datatype Proc = Proc(digest: string, phase: Phase)

  /** `published` and `removed` count, per digest, the renames onto an artifact and the artifacts pruned. */
  datatype Cache = Cache(
    dir: map<File, Content>, procs: seq<Proc>, lock: Option<nat>, unused: nat,
    published: map<string, nat>, removed: map<string, nat>)
  {
    predicate Has(i: nat) { i < |procs| }
    predicate At(i: nat, phase: Phase) { Has(i) && procs[i].phase == phase }
    function To(i: nat, phase: Phase): Cache
      requires Has(i)
    {
      this.(procs := procs[i := procs[i].(phase := phase)])
    }
  }

  function Count(counts: map<string, nat>, digest: string): nat {
    if digest in counts then counts[digest] else 0
  }

  datatype Action =
    | Begin(i: nat, digest: string)
    | Look(i: nat)
    | Acquire(i: nat)
    | Recheck(i: nat)
    | Create(i: nat)
    | Write(i: nat, content: Content)
    | Finish(i: nat, ok: bool)
    | Publish(i: nat)
    | Clean(i: nat)
    | Prune(i: nat, file: File)
    | Pruned(i: nat)
    | Release(i: nat)
    | Crash(i: nat)
    | Orphan(nonce: nat, content: Content)

  /** A live process still means to use this temporary file. */
  ghost predicate InUse(c: Cache, nonce: nat) {
    exists i :: 0 <= i < |c.procs| && Uses(c.procs[i].phase, nonce)
  }

  predicate Uses(phase: Phase, nonce: nat) {
    (phase.Building? || phase.Publishing? || phase.Cleaning?) && phase.temp == nonce
  }

  /** A compiler that reports success has written a complete artifact, unless the file is missing or empty. */
  predicate CompilerTruthful(c: Cache, i: nat) {
    c.Has(i) && c.procs[i].phase.Building? && Temp(c.procs[i].phase.temp) in c.dir ==>
      var content := c.dir[Temp(c.procs[i].phase.temp)];
      content.Empty? || content == Complete(c.procs[i].digest)
  }

  ghost predicate Possible(c: Cache, action: Action) {
    match action
    case Begin(i, _) => c.Has(i) && !Critical(c.procs[i].phase)
    case Look(i) => c.At(i, Looking)
    case Acquire(i) => c.At(i, Waiting) && c.lock.None?
    case Recheck(i) => c.At(i, Checking)
    case Create(i) => c.At(i, Creating)
    case Write(i, _) => c.Has(i) && c.procs[i].phase.Building?
    case Finish(i, ok) => c.Has(i) && c.procs[i].phase.Building? && (ok ==> CompilerTruthful(c, i))
    case Publish(i) => c.Has(i) && c.procs[i].phase.Publishing? && Temp(c.procs[i].phase.temp) in c.dir
    case Clean(i) => c.Has(i) && c.procs[i].phase.Cleaning?
    case Prune(i, file) => c.At(i, Pruning) && file in c.dir && file != Artifact(c.procs[i].digest)
    case Pruned(i) => c.At(i, Pruning)
    case Release(i) => c.Has(i) && c.procs[i].phase.Releasing?
    case Crash(i) => c.Has(i)
    case Orphan(nonce, _) => nonce < c.unused && !InUse(c, nonce)
  }

  /** The compiler of a crashed process may go on writing to its temporary file. */
  function Applied(c: Cache, action: Action): Cache
    requires Possible(c, action)
  {
    match action
    case Begin(i, digest) => c.(procs := c.procs[i := Proc(digest, Looking)])
    case Look(i) => c.To(i, if Artifact(c.procs[i].digest) in c.dir then Returned else Waiting)
    case Acquire(i) => c.To(i, Checking).(lock := Some(i))
    case Recheck(i) => c.To(i, if Artifact(c.procs[i].digest) in c.dir then Pruning else Creating)
    case Create(i) => c.To(i, Building(c.unused)).(dir := c.dir[Temp(c.unused) := Empty], unused := c.unused + 1)
    case Write(i, content) => c.(dir := c.dir[Temp(c.procs[i].phase.temp) := content])
    case Finish(i, ok) =>
      var temp := c.procs[i].phase.temp;
      if ok && Temp(temp) in c.dir && c.dir[Temp(temp)] != Empty then c.To(i, Publishing(temp)) else c.To(i, Cleaning(temp, false))
    case Publish(i) =>
      var temp, digest := c.procs[i].phase.temp, c.procs[i].digest;
      c.To(i, Cleaning(temp, true)).(
        dir := c.dir[Artifact(digest) := c.dir[Temp(temp)]] - {Temp(temp)},
        published := c.published[digest := Count(c.published, digest) + 1])
    case Clean(i) =>
      c.To(i, if c.procs[i].phase.built then Pruning else Releasing(false)).(dir := c.dir - {Temp(c.procs[i].phase.temp)})
    case Prune(i, file) =>
      c.(dir := c.dir - {file},
         removed := if file.Artifact? then c.removed[file.digest := Count(c.removed, file.digest) + 1] else c.removed)
    case Pruned(i) => c.To(i, Releasing(true))
    case Release(i) => c.To(i, if c.procs[i].phase.built then Returned else Failed).(lock := None)
    case Crash(i) => c.To(i, Idle).(lock := if c.lock == Some(i) then None else c.lock)
    case Orphan(nonce, content) => c.(dir := c.dir[Temp(nonce) := content])
  }

  /** A sequence of possible actions leads from one state to another. */
  ghost predicate Leads(c: Cache, actions: seq<Action>, d: Cache)
    decreases |actions|
  {
    if actions == [] then c == d
    else Possible(c, actions[0]) && Leads(Applied(c, actions[0]), actions[1..], d)
  }

  // ---------------------------------------------------------------- what every run keeps

  /** Nothing is under way; the cache may hold complete artifacts and debris. */
  ghost predicate Initial(c: Cache) {
    && c.lock.None? && (forall i :: 0 <= i < |c.procs| ==> c.procs[i].phase.Idle?)
    && ArtifactsComplete(c)
    && c.published == map[] && c.removed == map[]
  }

  ghost predicate ArtifactsComplete(c: Cache) {
    forall digest :: Artifact(digest) in c.dir ==> c.dir[Artifact(digest)] == Complete(digest)
  }

  predicate Built(phase: Phase) {
    phase.Pruning? || (phase.Cleaning? && phase.built) || (phase.Releasing? && phase.built)
  }

  predicate Unbuilt(phase: Phase) {
    phase.Creating? || phase.Building? || phase.Publishing?
  }

  /** What is true of one process. */
  predicate ProcSound(c: Cache, i: nat)
    requires c.Has(i)
  {
    var digest, phase := c.procs[i].digest, c.procs[i].phase;
    && (Critical(phase) <==> c.lock == Some(i))
    && (phase.Building? || phase.Publishing? || phase.Cleaning? ==> phase.temp < c.unused)
    && (phase.Building? || phase.Publishing? ==> Temp(phase.temp) in c.dir)
    && (phase.Publishing? ==> c.dir[Temp(phase.temp)] == Complete(digest))
    && (Unbuilt(phase) ==> Artifact(digest) !in c.dir)
    && (Built(phase) ==> Artifact(digest) in c.dir)
  }

  function Present(c: Cache, digest: string): nat {
    if Artifact(digest) in c.dir then 1 else 0
  }

  /** Every artifact was there at the start or published, and is there still or removed. */
  ghost predicate Conserved(start: Cache, c: Cache) {
    forall digest :: Present(start, digest) + Count(c.published, digest) == Present(c, digest) + Count(c.removed, digest)
  }

  ghost predicate Invariant(start: Cache, c: Cache) {
    && (forall i :: 0 <= i < |c.procs| ==> ProcSound(c, i))
    && ArtifactsComplete(c)
    && Conserved(start, c)
  }

  lemma OwnStepKeeps(c: Cache, action: Action, i: nat)
    requires Possible(c, action) && c.Has(i) && ProcSound(c, i) && !action.Orphan? && action.i == i
    ensures ProcSound(Applied(c, action), i)
  {
  }

  /** Past the lock a process is alone, so the steps of others leave its files and its lock. */
  lemma OtherStepKeeps(c: Cache, action: Action, i: nat)
    requires Possible(c, action) && c.Has(i) && ProcSound(c, i) && !action.Orphan? && action.i != i && ProcSound(c, action.i)
    ensures ProcSound(Applied(c, action), i)
  {
    var d := Applied(c, action);
    assert d.procs[i] == c.procs[i];
    if Critical(c.procs[i].phase) {
      assert d.lock == c.lock && d.dir == c.dir;
    }
  }

  lemma ProcKeeps(c: Cache, action: Action, i: nat)
    requires (forall j :: 0 <= j < |c.procs| ==> ProcSound(c, j)) && Possible(c, action) && c.Has(i)
    ensures ProcSound(Applied(c, action), i)
  {
    assert ProcSound(c, i);
    if action.Orphan? {
      assert !Uses(c.procs[i].phase, action.nonce);
    } else if action.i == i {
      OwnStepKeeps(c, action, i);
    } else {
      OtherStepKeeps(c, action, i);
    }
  }

  lemma CompleteKeeps(start: Cache, c: Cache, action: Action)
    requires Invariant(start, c) && Possible(c, action)
    ensures ArtifactsComplete(Applied(c, action))
  {
    hide Conserved;
    if action.Publish? {
      assert ProcSound(c, action.i);
    }
  }

  lemma ConservedKeeps(start: Cache, c: Cache, action: Action)
    requires Invariant(start, c) && Possible(c, action)
    ensures Conserved(start, Applied(c, action))
  {
    hide ArtifactsComplete;
    if action.Publish? {
      assert ProcSound(c, action.i);
    }
  }

  lemma ActionKeeps(start: Cache, c: Cache, action: Action)
    requires Invariant(start, c) && Possible(c, action)
    ensures Invariant(start, Applied(c, action))
  {
    hide ProcSound;
    forall i | 0 <= i < |c.procs| ensures ProcSound(Applied(c, action), i) {
      ProcKeeps(c, action, i);
    }
    CompleteKeeps(start, c, action);
    ConservedKeeps(start, c, action);
  }

  lemma {:induction false} RunKeeps(start: Cache, c: Cache, actions: seq<Action>, d: Cache)
    requires Invariant(start, c) && Leads(c, actions, d)
    ensures Invariant(start, d)
    decreases |actions|
  {
    if actions != [] {
      ActionKeeps(start, c, actions[0]);
      RunKeeps(start, Applied(c, actions[0]), actions[1..], d);
    }
  }

  /** Over every run, whatever crashes: one process at most is past the lock, published artifacts are complete, the
      temporary file of a live builder is never pruned, and no artifact is published where one is present. */
  lemma CacheIsSafe(start: Cache, actions: seq<Action>, c: Cache)
    requires Initial(start) && Leads(start, actions, c)
    ensures forall i, j :: 0 <= i < |c.procs| && 0 <= j < |c.procs| && Critical(c.procs[i].phase) && Critical(c.procs[j].phase) ==> i == j
    ensures ArtifactsComplete(c) && Conserved(start, c)
    ensures forall i :: 0 <= i < |c.procs| && (c.procs[i].phase.Building? || c.procs[i].phase.Publishing?) ==> Temp(c.procs[i].phase.temp) in c.dir
    ensures forall i :: 0 <= i < |c.procs| && c.procs[i].phase.Publishing? ==> Artifact(c.procs[i].digest) !in c.dir
  {
    RunKeeps(start, start, actions, c);
    forall i, j | 0 <= i < |c.procs| && 0 <= j < |c.procs| && Critical(c.procs[i].phase) && Critical(c.procs[j].phase) ensures i == j {
      assert ProcSound(c, i) && ProcSound(c, j);
    }
    forall i | 0 <= i < |c.procs|
      ensures c.procs[i].phase.Building? || c.procs[i].phase.Publishing? ==> Temp(c.procs[i].phase.temp) in c.dir
      ensures c.procs[i].phase.Publishing? ==> Artifact(c.procs[i].digest) !in c.dir
    {
      assert ProcSound(c, i);
    }
  }

  /** The only step that takes a published artifact away is a prune by a process of another digest; in particular a
      failed build, or a crash, takes nothing away and no step changes an artifact's contents. */
  lemma OnlyOthersPrune(start: Cache, c: Cache, action: Action, digest: string)
    requires Invariant(start, c) && Possible(c, action) && Artifact(digest) in c.dir
    ensures Artifact(digest) !in Applied(c, action).dir <==>
      action.Prune? && action.file == Artifact(digest) && c.procs[action.i].digest != digest
    ensures Artifact(digest) in Applied(c, action).dir ==> Applied(c, action).dir[Artifact(digest)] == c.dir[Artifact(digest)]
  {
    if action.Publish? {
      assert ProcSound(c, action.i);
    }
  }

  // ---------------------------------------------------------------- one digest, and two

  predicate OnlyDigest(actions: seq<Action>, digest: string) {
    forall k :: 0 <= k < |actions| && actions[k].Begin? ==> actions[k].digest == digest
  }

  ghost predicate OneDigest(c: Cache, digest: string) {
    && (forall i :: 0 <= i < |c.procs| && !c.procs[i].phase.Idle? ==> c.procs[i].digest == digest)
    && Count(c.removed, digest) == 0
    && (forall i :: 0 <= i < |c.procs| && c.procs[i].phase.Returned? ==> Artifact(digest) in c.dir)
  }

  lemma OneDigestKeeps(start: Cache, c: Cache, action: Action, digest: string)
    requires Invariant(start, c) && Possible(c, action) && OneDigest(c, digest)
    requires action.Begin? ==> action.digest == digest
    ensures OneDigest(Applied(c, action), digest)
  {
    var d := Applied(c, action);
    if action.Release? {
      assert ProcSound(c, action.i);
    }
    if Artifact(digest) in c.dir {
      OnlyOthersPrune(start, c, action, digest);
    }
  }

  lemma {:induction false} OneDigestRun(start: Cache, c: Cache, actions: seq<Action>, d: Cache, digest: string)
    requires Invariant(start, c) && OneDigest(c, digest) && OnlyDigest(actions, digest) && Leads(c, actions, d)
    ensures Invariant(start, d) && OneDigest(d, digest)
    decreases |actions|
  {
    if actions != [] {
      ActionKeeps(start, c, actions[0]);
      OneDigestKeeps(start, c, actions[0], digest);
      OneDigestRun(start, Applied(c, actions[0]), actions[1..], d, digest);
    }
  }

  /** When every process wants the same digest, at most one build is published, never over an artifact that was
      there already, and what a process was given is there, complete, for good. */
  lemma PublishedOnce(start: Cache, actions: seq<Action>, c: Cache, digest: string)
    requires Initial(start) && OnlyDigest(actions, digest) && Leads(start, actions, c)
    ensures Present(start, digest) + Count(c.published, digest) == Present(c, digest) <= 1
    ensures forall i :: 0 <= i < |c.procs| && c.procs[i].phase.Returned? ==>
      c.procs[i].digest == digest && Artifact(digest) in c.dir && c.dir[Artifact(digest)] == Complete(digest)
  {
    OneDigestRun(start, start, actions, c, digest);
  }

  lemma Onward(start: Cache, actions: seq<Action>, c: Cache, action: Action) returns (longer: seq<Action>, d: Cache)
    requires Leads(start, actions, c) && Possible(c, action)
    ensures longer == actions + [action] && d == Applied(c, action) && Leads(start, longer, d)
    decreases |actions|
  {
    longer, d := actions + [action], Applied(c, action);
    if actions == [] {
      assert longer[1..] == [];
    } else {
      var rest, e := Onward(Applied(start, actions[0]), actions[1..], c, action);
      assert longer[1..] == rest;
    }
  }

  lemma FoundThenLocked(mine: string, other: string) returns (start: Cache, actions: seq<Action>, c: Cache)
    requires mine != other
    ensures Initial(start) && Leads(start, actions, c)
    ensures c == Cache(map[Artifact(mine) := Complete(mine)], [Proc(mine, Returned), Proc(other, Checking)], Some(1), 0, map[], map[])
  {
    start := Cache(map[Artifact(mine) := Complete(mine)], [Proc(mine, Idle), Proc(other, Idle)], None, 0, map[], map[]);
    c, actions := start, [];
    assert Leads(start, [], start);
    hide Leads;
    actions, c := Onward(start, actions, c, Begin(0, mine));
    actions, c := Onward(start, actions, c, Look(0));
    actions, c := Onward(start, actions, c, Begin(1, other));
    actions, c := Onward(start, actions, c, Look(1));
    actions, c := Onward(start, actions, c, Acquire(1));
  }

  /** A process finds its artifact, and one with another digest builds its own. */
  lemma FoundThenBuilt(mine: string, other: string) returns (start: Cache, actions: seq<Action>, c: Cache)
    requires mine != other
    ensures Initial(start) && Leads(start, actions, c)
    ensures c == Cache(map[Artifact(mine) := Complete(mine), Temp(0) := Complete(other)],
      [Proc(mine, Returned), Proc(other, Publishing(0))], Some(1), 1, map[], map[])
  {
    hide Leads;
    start, actions, c := FoundThenLocked(mine, other);
    actions, c := Onward(start, actions, c, Recheck(1));
    actions, c := Onward(start, actions, c, Create(1));
    actions, c := Onward(start, actions, c, Write(1, Complete(other)));
    actions, c := Onward(start, actions, c, Finish(1, true));
  }

  /** With two digests in one cache, a process may be given an artifact that another then prunes. */
  lemma OtherDigestPrunes(mine: string, other: string) returns (start: Cache, actions: seq<Action>, c: Cache)
    requires mine != other
    ensures Initial(start) && Leads(start, actions, c)
    ensures |c.procs| == 2 && c.procs[0] == Proc(mine, Returned) && Artifact(mine) !in c.dir
  {
    hide Leads;
    start, actions, c := FoundThenBuilt(mine, other);
    actions, c := Onward(start, actions, c, Publish(1));
    actions, c := Onward(start, actions, c, Clean(1));
    actions, c := Onward(start, actions, c, Prune(1, Artifact(mine)));
  }
}
