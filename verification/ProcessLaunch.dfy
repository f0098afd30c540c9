/** What a child is started with (native_process_host.c): its argument and environment vectors, packed one string
    after the other, and the executable its name stands for. */
module ProcessLaunch {
  import opened Wrappers
  import opened Text

  const NUL: char := '\0'

  // ---------------------------------------------------------------- packed vectors

  /** Every string, each followed by a NUL. */
  function Packed(strings: seq<string>): string {
    if strings == [] then "" else strings[0] + [NUL] + Packed(strings[1..])
  }

  predicate NulFree(strings: seq<string>) {
    forall i :: 0 <= i < |strings| ==> Free(strings[i], NUL)
  }

  /** A buffer holds these strings at its front. */
  predicate Holds(blob: string, strings: seq<string>) {
    NulFree(strings) && Packed(strings) <= blob
  }

  lemma FirstNul(x: string, y: string, restX: string, restY: string)
    requires Free(x, NUL) && Free(y, NUL)
    requires x + [NUL] + restX <= y + [NUL] + restY || y + [NUL] + restY <= x + [NUL] + restX
    ensures x == y
  {
    var left, right := x + [NUL] + restX, y + [NUL] + restY;
    assert forall i :: 0 <= i < |x| ==> left[i] == x[i] != NUL;
    assert forall i :: 0 <= i < |y| ==> right[i] == y[i] != NUL;
    assert left[|x|] == NUL && right[|y|] == NUL;
    assert forall i :: 0 <= i < |left| && i < |right| ==> left[i] == right[i];
    assert |x| == |y|;
    assert left[..|x|] == x && right[..|y|] == y;
  }

  /** A buffer holds at most one vector of a given length: packing loses nothing. */
  lemma {:induction false} HoldsOne(blob: string, xs: seq<string>, ys: seq<string>)
    requires Holds(blob, xs) && Holds(blob, ys) && |xs| == |ys|
    ensures xs == ys
  {
    if xs != [] {
      var restX, restY := Packed(xs[1..]), Packed(ys[1..]);
      assert Free(xs[0], NUL) && Free(ys[0], NUL);
      var left, right := xs[0] + [NUL] + restX, ys[0] + [NUL] + restY;
      assert left <= blob && right <= blob;
      assert left <= right || right <= left;
      FirstNul(xs[0], ys[0], restX, restY);
      var n := |xs[0]| + 1;
      assert left[n..] == restX && right[n..] == restY;
      assert Holds(blob[n..], xs[1..]) by { Within(blob, xs[0] + [NUL], restX); }
      assert Holds(blob[n..], ys[1..]) by { Within(blob, ys[0] + [NUL], restY); }
      HoldsOne(blob[n..], xs[1..], ys[1..]);
    }
  }

  lemma Within(blob: string, head: string, rest: string)
    requires head + rest <= blob
    ensures rest <= blob[|head|..]
  {
    assert (head + rest)[|head|..] == rest;
    assert blob == (head + rest) + blob[|head + rest|..];
    assert blob[|head|..] == rest + blob[|head + rest|..];
  }

  /** strlen of the string at `at`. */
  method NulAt(blob: string, at: nat, ghost text: string) returns (end: nat)
    requires at <= |blob| && Free(text, NUL) && text + [NUL] <= blob[at..]
    ensures end == at + |text| < |blob| && blob[at..end] == text && blob[end] == NUL
  {
    assert blob[at..][|text|] == NUL;
    assert blob[at..][..|text|] == text;
    assert forall k :: at <= k < at + |text| ==> blob[k] == text[k - at] != NUL;
    end := at;
    while blob[end] != NUL
      invariant at <= end <= at + |text| < |blob|
      invariant blob[at + |text|] == NUL
      decreases |blob| - end
    {
      end := end + 1;
    }
  }

  /** The vector packed in a buffer; a negative count, or strings wanted of no buffer, give none. */
  method BlobVector(blob: Option<string>, count: int, ghost strings: seq<string>) returns (r: Option<seq<string>>)
    requires blob.Some? && count > 0 ==> |strings| == count && Holds(blob.value, strings)
    ensures r.None? <==> count < 0 || (count > 0 && blob.None?)
    ensures count == 0 ==> r == Some([])
    ensures count > 0 && blob.Some? ==> r == Some(strings)
  {
    if count < 0 || (count > 0 && blob.None?) {
      return None;
    }
    var values: seq<string> := [];
    var at: nat := 0;
    while |values| < count
      invariant |values| <= count
      invariant count > 0 ==> values == strings[..|values|] && at <= |blob.value| && Holds(blob.value[at..], strings[|values|..])
    {
      ghost var left := strings[|values|..];
      assert left[0] == strings[|values|] && left[1..] == strings[|values| + 1..];
      assert left[0] + [NUL] <= Packed(left);
      assert Free(left[0], NUL);
      var end := NulAt(blob.value, at, left[0]);
      Within(blob.value[at..], left[0] + [NUL], Packed(left[1..]));
      assert blob.value[at..][|left[0]| + 1..] == blob.value[end + 1..];
      values := values + [blob.value[at..end]];
      at := end + 1;
    }
    assert count > 0 ==> strings[..|values|] == strings;
    r := Some(values);
  }

  // ---------------------------------------------------------------- the executable

  function JoinPaths(base: string, suffix: string): string {
    if base != "" && base[|base| - 1] != '/' then base + "/" + suffix else base + suffix
  }

  function WorkingDir(current: string, cwd: string): string {
    if cwd == "" then current else if cwd[0] == '/' then cwd else JoinPaths(current, cwd)
  }

  /** The file a directory of the search path offers for a name; an empty directory is the working one. */
  function Candidate(working: string, directory: string, name: string): string {
    if directory == "" then JoinPaths(working, name)
    else if directory[0] == '/' then directory + "/" + name
    else JoinPaths(working, directory + "/" + name)
  }

  const PATH_PREFIX := "PATH="
  const DEFAULT_PATH := "/usr/bin:/bin"

  /** The first PATH of an environment. */
  function SearchPath(env: seq<string>): string {
    if env == [] then DEFAULT_PATH
    else if PATH_PREFIX <= env[0] then env[0][|PATH_PREFIX|..]
    else SearchPath(env[1..])
  }

  /** The entry that names the search path: the first that starts with `PATH=`. */
  ghost predicate FirstPath(env: seq<string>, k: int) {
    0 <= k < |env| && "PATH=" <= env[k] && forall i :: 0 <= i < k ==> !("PATH=" <= env[i])
  }

  lemma {:induction false} SearchPathExact(env: seq<string>)
    ensures forall k :: FirstPath(env, k) ==> "PATH=" + SearchPath(env) == env[k]
    ensures (forall k :: !FirstPath(env, k)) ==> SearchPath(env) == "/usr/bin:/bin"
  {
    if env != [] {
      SearchPathExact(env[1..]);
      if PATH_PREFIX <= env[0] {
        assert FirstPath(env, 0);
      } else {
        forall k | FirstPath(env, k) ensures FirstPath(env[1..], k - 1) {
          forall i | 0 <= i < k - 1 ensures !("PATH=" <= env[1..][i]) { assert env[1..][i] == env[i + 1]; }
        }
        forall k | FirstPath(env[1..], k) ensures FirstPath(env, k + 1) {
          forall i | 0 <= i < k + 1 ensures !("PATH=" <= env[i]) { if i > 0 { assert env[1..][i - 1] == env[i]; } }
        }
      }
    }
  }

  /** The files a name may stand for, in the order they are considered. */
  function Candidates(name: string, env: seq<string>, working: string): seq<string> {
    if name == "" then []
    else if name[0] == '/' then [name]
    else if '/' in name then [JoinPaths(working, name)]
    else Offers(working, Split(SearchPath(env), ':'), name)
  }

  function Offers(working: string, directories: seq<string>, name: string): (offers: seq<string>)
    ensures |offers| == |directories|
    ensures forall i :: 0 <= i < |offers| ==> offers[i] == Candidate(working, directories[i], name)
  {
    seq(|directories|, i requires 0 <= i < |directories| => Candidate(working, directories[i], name))
  }

  /** The answer is the first candidate that may be executed, or there is none. */
  ghost predicate FirstExecutable(candidates: seq<string>, executable: string -> bool, r: Option<string>) {
    match r
    case None => forall i :: 0 <= i < |candidates| ==> !executable(candidates[i])
    case Some(file) => exists k :: 0 <= k < |candidates| && candidates[k] == file && FirstAt(candidates, executable, k)
  }

  predicate FirstAt(candidates: seq<string>, executable: string -> bool, k: nat)
    requires k < |candidates|
  {
    executable(candidates[k]) && forall i :: 0 <= i < k ==> !executable(candidates[i])
  }

  method Colon(path: string, from: nat) returns (end: nat)
    requires from <= |path|
    ensures from <= end <= |path| && Free(path[from..end], ':')
    ensures end < |path| ==> path[end] == ':'
  {
    end := from;
    while end < |path| && path[end] != ':'
      invariant from <= end <= |path| && Free(path[from..end], ':')
    {
      assert path[from..end + 1] == path[from..end] + [path[end]];
      end := end + 1;
    }
  }

  method ResolveExecutable(name: string, env: seq<string>, current: string, cwd: string, executable: string -> bool)
    returns (r: Option<string>)
    ensures FirstExecutable(Candidates(name, env, WorkingDir(current, cwd)), executable, r)
  {
    if name == "" {
      return None;
    }
    var working := WorkingDir(current, cwd);
    if name[0] == '/' {
      assert executable(name) ==> FirstAt([name], executable, 0);
      return if executable(name) then Some(name) else None;
    }
    var path := SearchPath(env);
    if '/' in name {
      var candidate := JoinPaths(working, name);
      assert executable(candidate) ==> FirstAt([candidate], executable, 0);
      return if executable(candidate) then Some(candidate) else None;
    }
    r := SearchDirectories(working, path, name, executable);
  }

  /** Each directory of the search path in turn. */
  method SearchDirectories(working: string, path: string, name: string, executable: string -> bool) returns (r: Option<string>)
    ensures FirstExecutable(Offers(working, Split(path, ':'), name), executable, r)
  {
    ghost var directories := Split(path, ':');
    ghost var offers := Offers(working, directories, name);
    var cursor := 0;
    ghost var tried := 0;
    assert path[0..] == path && directories[0..] == directories;
    while true
      invariant Standing(directories, path, cursor, tried) && NoneBefore(offers, executable, tried)
      decreases |path| - cursor
    {
      hide Split, Candidate, FirstExecutable;
      var end := Colon(path, cursor);
      var directory := path[cursor..end];
      NextStanding(directories, path, cursor, end, tried);
      hide Standing;
      var candidate := Candidate(working, directory, name);
      assert offers[tried] == candidate;
      if executable(candidate) {
        FirstFound(offers, executable, tried);
        return Some(candidate);
      }
      if end == |path| {
        NoneFound(offers, executable);
        return None;
      }
      cursor, tried := end + 1, tried + 1;
    }
  }

  /** The directories from `tried` on are what the path spells from `cursor` on. */
  ghost predicate Standing(directories: seq<string>, path: string, cursor: nat, tried: nat) {
    cursor <= |path| && tried < |directories| && directories[tried..] == Split(path[cursor..], ':')
  }

  predicate NoneBefore(offers: seq<string>, executable: string -> bool, k: nat) {
    k <= |offers| && forall i :: 0 <= i < k ==> !executable(offers[i])
  }

  lemma NextStanding(directories: seq<string>, path: string, cursor: nat, end: nat, tried: nat)
    requires Standing(directories, path, cursor, tried)
    requires cursor <= end <= |path| && Free(path[cursor..end], ':') && (end < |path| ==> path[end] == ':')
    ensures tried < |directories| && directories[tried] == path[cursor..end]
    ensures end == |path| ==> |directories| == tried + 1
    ensures end < |path| ==> Standing(directories, path, end + 1, tried + 1)
  {
    hide Split;
    NextDirectory(path, cursor, end);
    assert directories[tried] == directories[tried..][0];
    assert directories[tried + 1..] == directories[tried..][1..];
  }

  lemma FirstFound(offers: seq<string>, executable: string -> bool, k: nat)
    requires k < |offers| && executable(offers[k]) && NoneBefore(offers, executable, k)
    ensures FirstExecutable(offers, executable, Some(offers[k]))
  {
    assert FirstAt(offers, executable, k);
  }

  lemma NoneFound(offers: seq<string>, executable: string -> bool)
    requires NoneBefore(offers, executable, |offers|)
    ensures FirstExecutable(offers, executable, None)
  {
  }

  /** The path from one directory on: that directory, and what follows its colon. */
  lemma NextDirectory(path: string, cursor: nat, end: nat)
    requires cursor <= end <= |path| && Free(path[cursor..end], ':') && (end < |path| ==> path[end] == ':')
    ensures Split(path[cursor..], ':') == [path[cursor..end]] + if end < |path| then Split(path[end + 1..], ':') else []
  {
    if end == |path| {
      assert path[cursor..] == path[cursor..end];
      SplitAtom(path[cursor..end], ':');
    } else {
      assert path[cursor..] == path[cursor..end] + [':'] + path[end + 1..];
      SplitPrefix(path[cursor..end], path[end + 1..], ':');
    }
  }

  predicate Absolute(file: string) {
    file != "" && file[0] == '/'
  }

  /** From an absolute current directory, only absolute files are ever considered. */
  lemma CandidatesAreAbsolute(name: string, env: seq<string>, current: string, cwd: string, k: nat)
    requires Absolute(current) && k < |Candidates(name, env, WorkingDir(current, cwd))|
    ensures Absolute(Candidates(name, env, WorkingDir(current, cwd))[k])
  {
    var working := WorkingDir(current, cwd);
    assert Absolute(working);
    if name[0] != '/' && '/' !in name {
      var directories := Split(SearchPath(env), ':');
      assert Candidates(name, env, working)[k] == Candidate(working, directories[k], name);
    }
  }

  /** Where each directory of a path offers its candidate: the search path is the directories joined by colons. */
  lemma PathIsItsDirectories(name: string, env: seq<string>, working: string, directories: seq<string>, k: nat)
    requires name != "" && '/' !in name
    requires directories != [] && forall i :: 0 <= i < |directories| ==> Free(directories[i], ':')
    requires SearchPath(env) == Join(directories, ':') && k < |directories|
    ensures |Candidates(name, env, working)| == |directories|
    ensures Candidates(name, env, working)[k] == Candidate(working, directories[k], name)
  {
    SplitOfJoin(directories, ':');
    assert name[0] in name;
  }
}
