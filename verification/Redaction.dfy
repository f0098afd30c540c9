/** Scrubbing secrets from operator streams (adapters.mojo): secrets longest first, each replaced by a marker
    in one walk over codepoint boundaries. */
module Redaction {
  import opened Utf8

  /** The bytes of "<redacted>". */
  const MARKER: Bytes := [0x3C, 0x72, 0x65, 0x64, 0x61, 0x63, 0x74, 0x65, 0x64, 0x3E]

  // ---------------------------------------------------------------- which secrets, in which order

  datatype Variable = Variable(name: string, value: Bytes)

  /** Ambient variables are not secrets. */
  const AMBIENT := {"PATH", "HOME", "TMPDIR", "LANG", "LC_ALL", "TZ"}

  /** Nonempty values of non-ambient variables, in the order of the environment. */
  function Secrets(environment: seq<Variable>): (secrets: seq<Bytes>)
    ensures forall s :: s in secrets <==> s != [] && exists v :: v in environment && v.value == s && v.name !in AMBIENT
  {
    if environment == [] then []
    else
      var v := environment[|environment| - 1];
      var before := Secrets(environment[..|environment| - 1]);
      assert environment == environment[..|environment| - 1] + [v];
      if v.value == [] || v.name in AMBIENT then before else before + [v.value]
  }

  /** Insert behind everything that is at least as long. */
  function InsertLongest(sorted: seq<Bytes>, x: Bytes): seq<Bytes> {
    if sorted == [] || |sorted[|sorted| - 1]| >= |x| then sorted + [x]
    else InsertLongest(sorted[..|sorted| - 1], x) + [sorted[|sorted| - 1]]
  }

  function LongestFirst(s: seq<Bytes>): seq<Bytes> {
    if s == [] then [] else InsertLongest(LongestFirst(s[..|s| - 1]), s[|s| - 1])
  }

  predicate NonIncreasing(s: seq<Bytes>) {
    forall i, j :: 0 <= i < j < |s| ==> |s[i]| >= |s[j]|
  }

  /** The members of one length, in order. */
  function OfLength(s: seq<Bytes>, n: nat): seq<Bytes> {
    if s == [] then [] else OfLength(s[..|s| - 1], n) + if |s[|s| - 1]| == n then [s[|s| - 1]] else []
  }

  lemma SplitLast(s: seq<Bytes>, x: Bytes)
    ensures (s + [x])[..|s + [x]| - 1] == s && (s + [x])[|s + [x]| - 1] == x
  {
  }

  lemma {:induction false} InsertMembers(sorted: seq<Bytes>, x: Bytes)
    ensures multiset(InsertLongest(sorted, x)) == multiset(sorted) + multiset{x}
    ensures forall i :: 0 <= i < |InsertLongest(sorted, x)| ==> InsertLongest(sorted, x)[i] == x || InsertLongest(sorted, x)[i] in sorted
    decreases |sorted|
  {
    if sorted != [] && |sorted[|sorted| - 1]| < |x| {
      var before, last := sorted[..|sorted| - 1], sorted[|sorted| - 1];
      InsertMembers(before, x);
      assert sorted == before + [last];
    }
  }

  lemma {:induction false} InsertSorted(sorted: seq<Bytes>, x: Bytes)
    requires NonIncreasing(sorted)
    ensures NonIncreasing(InsertLongest(sorted, x))
    decreases |sorted|
  {
    if sorted != [] && |sorted[|sorted| - 1]| < |x| {
      var before, last := sorted[..|sorted| - 1], sorted[|sorted| - 1];
      InsertSorted(before, x);
      InsertMembers(before, x);
      var result := InsertLongest(before, x);
      forall i | 0 <= i < |result| ensures |result[i]| >= |last| {
        if result[i] != x {
          var k :| 0 <= k < |before| && before[k] == result[i];
          assert before[k] == sorted[k];
        }
      }
    }
  }

  lemma {:induction false} InsertStable(sorted: seq<Bytes>, x: Bytes, n: nat)
    ensures OfLength(InsertLongest(sorted, x), n) == OfLength(sorted, n) + if |x| == n then [x] else []
    decreases |sorted|
  {
    SplitLast(sorted, x);
    if sorted != [] && |sorted[|sorted| - 1]| < |x| {
      var before, last := sorted[..|sorted| - 1], sorted[|sorted| - 1];
      InsertStable(before, x, n);
      SplitLast(InsertLongest(before, x), last);
    }
  }

  /** The secrets are visited longest first, as a stable rearrangement of the collected ones. */
  lemma {:induction false} LongestFirstSorts(s: seq<Bytes>)
    ensures NonIncreasing(LongestFirst(s)) && multiset(LongestFirst(s)) == multiset(s)
    ensures forall n: nat :: OfLength(LongestFirst(s), n) == OfLength(s, n)
    decreases |s|
  {
    if s != [] {
      var before, last := s[..|s| - 1], s[|s| - 1];
      LongestFirstSorts(before);
      InsertSorted(LongestFirst(before), last);
      InsertMembers(LongestFirst(before), last);
      assert s == before + [last];
      forall n: nat ensures OfLength(LongestFirst(s), n) == OfLength(s, n) {
        InsertStable(LongestFirst(before), last, n);
      }
    }
  }

  /** Shifting the shorter ones up by one and filling the hole is insertion. */
  lemma {:induction false} ShiftedIsInserted(sorted: seq<Bytes>, x: Bytes, j: nat, result: seq<Bytes>)
    requires j <= |sorted| && (j == 0 || |sorted[j - 1]| >= |x|) && |result| == |sorted| + 1
    requires forall k :: j <= k < |sorted| ==> |sorted[k]| < |x|
    requires forall k :: 0 <= k < j ==> result[k] == sorted[k]
    requires result[j] == x
    requires forall k :: j < k < |result| ==> result[k] == sorted[k - 1]
    ensures result == InsertLongest(sorted, x)
    decreases |sorted|
  {
    if j < |sorted| {
      ShiftedIsInserted(sorted[..|sorted| - 1], x, j, result[..|sorted|]);
      assert result == result[..|sorted|] + [sorted[|sorted| - 1]];
    } else {
      assert result == sorted + [x];
    }
  }

  lemma LongestFirstOne(s: seq<Bytes>)
    requires s != []
    ensures LongestFirst(s[..1]) == s[..1]
  {
    SplitLast([], s[0]);
    assert s[..1] == [] + [s[0]];
  }

  lemma LongestFirstNext(s: seq<Bytes>, i: nat)
    requires i < |s|
    ensures LongestFirst(s[..i + 1]) == InsertLongest(LongestFirst(s[..i]), s[i])
  {
    assert s[..i + 1] == s[..i] + [s[i]];
    SplitLast(s[..i], s[i]);
  }

  /** Move one element down to its place, shifting the shorter ones up. */
  method SinkOne(secrets: array<Bytes>, i: nat)
    requires i < secrets.Length
    modifies secrets
    ensures secrets[..i + 1] == InsertLongest(old(secrets[..i]), old(secrets[i]))
    ensures forall k :: i < k < secrets.Length ==> secrets[k] == old(secrets[k])
  {
    ghost var sorted := secrets[..i];
    var current := secrets[i];
    var j := i;
    while j > 0 && |secrets[j - 1]| < |current|
      invariant 0 <= j <= i
      invariant forall k :: 0 <= k < j ==> secrets[k] == sorted[k]
      invariant forall k :: j < k <= i ==> secrets[k] == sorted[k - 1]
      invariant forall k :: i < k < secrets.Length ==> secrets[k] == old(secrets[k])
      invariant forall k :: j <= k < i ==> |sorted[k]| < |current|
    {
      secrets[j] := secrets[j - 1];
      j := j - 1;
    }
    secrets[j] := current;
    ShiftedIsInserted(sorted, current, j, secrets[..i + 1]);
  }

  /** The in-place insertion sort of `_redaction_values`. */
  method SortLongestFirst(secrets: array<Bytes>)
    modifies secrets
    ensures secrets[..] == LongestFirst(old(secrets[..]))
  {
    ghost var was := secrets[..];
    if secrets.Length == 0 { return; }
    LongestFirstOne(was);
    var i := 1;
    while i < secrets.Length
      invariant 1 <= i <= secrets.Length
      invariant secrets[..i] == LongestFirst(was[..i])
      invariant forall k :: i <= k < secrets.Length ==> secrets[k] == was[k]
    {
      LongestFirstNext(was, i);
      SinkOne(secrets, i);
      i := i + 1;
    }
    assert was[..i] == was && secrets[..i] == secrets[..];
  }

  /** adapters.mojo's `_redaction_values`. */
  method RedactionValues(environment: seq<Variable>) returns (secrets: seq<Bytes>)
    ensures secrets == LongestFirst(Secrets(environment))
  {
    var collected: seq<Bytes> := [];
    for k := 0 to |environment|
      invariant collected == Secrets(environment[..k])
    {
      assert environment[..k + 1][..k] == environment[..k];
      if environment[k].value == [] || environment[k].name in AMBIENT { continue; }
      collected := collected + [environment[k].value];
    }
    assert environment[..|environment|] == environment;
    var a := new Bytes[|collected|](i requires 0 <= i < |collected| => collected[i]);
    assert a[..] == collected;
    SortLongestFirst(a);
    secrets := a[..];
  }

  // ---------------------------------------------------------------- one secret

  /** The reference: leftmost, non-overlapping replacement, byte by byte from `i` on. */
  function Replace(text: Bytes, secret: Bytes, i: nat): Bytes
    requires secret != [] && i <= |text|
    decreases |text| - i
  {
    if OccursAt(text, i, secret) then MARKER + Replace(text, secret, i + |secret|)
    else if i < |text| then [text[i]] + Replace(text, secret, i + 1)
    else []
  }

  /** adapters.mojo's `_utf8_codepoint_end`. */
  method CodepointEnd(value: Bytes, start: nat) returns (end: nat)
    ensures start >= |value| ==> end == start
    ensures start < |value| ==> start < end <= |value| && (end < |value| ==> !Continuation(value[end]))
    ensures start < |value| ==> forall k :: start < k < end ==> Continuation(value[k])
  {
    if start >= |value| { return start; }
    end := start + 1;
    while end < |value|
      invariant start < end <= |value|
      invariant forall k :: start < k < end ==> Continuation(value[k])
    {
      if !Continuation(value[end]) { break; }
      end := end + 1;
    }
  }

  /** adapters.mojo's `_bytes_equal_at`. */
  method BytesEqualAt(value: Bytes, index: int, secret: Bytes) returns (equal: bool)
    ensures equal <==> index >= 0 && secret != [] && OccursAt(value, index, secret)
  {
    if index < 0 || |secret| == 0 || index + |secret| > |value| { return false; }
    for offset := 0 to |secret|
      invariant forall k :: 0 <= k < offset ==> value[index + k] == secret[k]
    {
      if value[index + offset] != secret[offset] {
        assert value[index..index + |secret|][offset] != secret[offset];
        return false;
      }
    }
    equal := true;
  }

  /** A string slice, which aborts unless both ends are codepoint boundaries. */
  function Slice(value: Bytes, lo: nat, hi: nat): Bytes
    requires lo <= hi && Boundary(value, lo) && Boundary(value, hi)
  {
    value[lo..hi]
  }

  lemma Associate(a: Bytes, b: Bytes, c: Bytes)
    ensures a + (b + c) == (a + b) + c
  {
  }

  /** Inside a codepoint no valid secret begins, so the reference copies the codepoint whole. */
  lemma {:induction false} ReplaceCopies(text: Bytes, secret: Bytes, i: nat, k: nat, end: nat)
    requires secret != [] && !Continuation(secret[0]) && i < k <= end <= |text|
    requires forall m :: i < m < end ==> Continuation(text[m])
    ensures Replace(text, secret, k) == text[k..end] + Replace(text, secret, end)
    decreases end - k
  {
    if k < end {
      ReplaceCopies(text, secret, i, k + 1, end);
      var rest := Replace(text, secret, end);
      assert text[k..end] == [text[k]] + text[k + 1..end];
      Associate([text[k]], text[k + 1..end], rest);
    } else {
      assert text[k..end] == [];
    }
  }

  lemma EndIsNextBoundary(text: Bytes, i: nat, end: nat)
    requires Valid(text) && Boundary(text, i) && i < end <= |text|
    requires end < |text| ==> !Continuation(text[end])
    requires forall k :: i < k < end ==> Continuation(text[k])
    ensures Boundary(text, end)
    ensures Valid(text[i..end])
  {
    hide CodepointLength, Valid;
    BoundaryIff(text, end);
    assert text[i..] == text[i..end] + text[end..];
    NextBoundary(text, i);
    var n := CodepointLength(text[i..]);
    BoundaryIff(text, i + n);
    assert end == i + n;
    OneCodepoint(text[i..]);
    assert text[i..][..n] == text[i..end];
  }

  /** Where the secret stands, one marker replaces it and the walk goes on at a boundary. */
  lemma MatchStep(text: Bytes, secret: Bytes, index: nat, replaced: Bytes)
    requires Valid(text) && Valid(secret) && secret != [] && index <= |text| && Valid(replaced) && OccursAt(text, index, secret)
    ensures Boundary(text, index + |secret|) && Valid(replaced + MARKER)
    ensures replaced + Replace(text, secret, index) == (replaced + MARKER) + Replace(text, secret, index + |secret|)
  {
    hide CodepointLength, Valid;
    OccurrenceIsAligned(text, index, secret);
    MarkerIsValid();
    ValidConcat(replaced, MARKER);
    Associate(replaced, MARKER, Replace(text, secret, index + |secret|));
  }

  /** Elsewhere one whole codepoint is copied. */
  lemma CopyStep(text: Bytes, secret: Bytes, index: nat, next: nat, replaced: Bytes)
    requires Valid(text) && Valid(secret) && secret != [] && Valid(replaced) && Boundary(text, index)
    requires index < next <= |text| && !OccursAt(text, index, secret)
    requires next < |text| ==> !Continuation(text[next])
    requires forall k :: index < k < next ==> Continuation(text[k])
    ensures Boundary(text, next) && Valid(replaced + text[index..next])
    ensures replaced + Replace(text, secret, index) == (replaced + text[index..next]) + Replace(text, secret, next)
  {
    hide CodepointLength;
    EndIsNextBoundary(text, index, next);
    CodepointShape(secret);
    ReplaceCopies(text, secret, index, index + 1, next);
    ValidConcat(replaced, text[index..next]);
    var rest := Replace(text, secret, next);
    assert text[index..next] == [text[index]] + text[index + 1..next];
    Associate([text[index]], text[index + 1..next], rest);
    Associate(replaced, text[index..next], rest);
  }

  /** One pass of `redact_environment`: the walk over codepoints computes the reference replacement, cuts
      only at boundaries, and leaves valid text. */
  method RedactOne(text: Bytes, secret: Bytes) returns (replaced: Bytes)
    requires Valid(text) && Valid(secret) && secret != []
    ensures replaced == Replace(text, secret, 0)
    ensures Valid(replaced)
  {
    hide CodepointLength;
    var index: nat := 0;
    replaced := [];
    assert text[..0] == [] && text[0..] == text;
    while index < |text|
      invariant Boundary(text, index) && Valid(replaced)
      invariant replaced + Replace(text, secret, index) == Replace(text, secret, 0)
      decreases |text| - index
    {
      var found := BytesEqualAt(text, index, secret);
      if found {
        MatchStep(text, secret, index, replaced);
        replaced := replaced + MARKER;
        index := index + |secret|;
      } else {
        var next := CodepointEnd(text, index);
        CopyStep(text, secret, index, next, replaced);
        replaced := replaced + Slice(text, index, next);
        index := next;
      }
    }
    assert replaced + [] == replaced;
  }

  lemma MarkerIsValid()
    ensures Valid(MARKER)
  {
    hide Valid;
    AsciiIsValid(MARKER);
  }

  lemma {:induction false} AsciiIsValid(s: Bytes)
    requires forall i :: 0 <= i < |s| ==> s[i] <= 0x7F
    ensures Valid(s)
    decreases |s|
  {
    if s != [] { AsciiIsValid(s[1..]); }
  }

  // ---------------------------------------------------------------- all secrets

  ghost function ReplaceAll(text: Bytes, secrets: seq<Bytes>): Bytes {
    if secrets == [] then text
    else
      var before, last := ReplaceAll(text, secrets[..|secrets| - 1]), secrets[|secrets| - 1];
      if last == [] then before else Replace(before, last, 0)
  }

  /** adapters.mojo's `redact_environment`. */
  method RedactEnvironment(value: Bytes, environment: seq<Variable>) returns (redacted: Bytes)
    requires Valid(value) && forall v :: v in environment ==> Valid(v.value)
    ensures redacted == ReplaceAll(value, LongestFirst(Secrets(environment)))
    ensures Valid(redacted)
  {
    hide CodepointLength, LongestFirst;
    var secrets := RedactionValues(environment);
    SecretsKept(environment);
    redacted := value;
    for k := 0 to |secrets|
      invariant redacted == ReplaceAll(value, secrets[..k]) && Valid(redacted)
    {
      assert secrets[..k + 1][..k] == secrets[..k];
      assert secrets[k] in secrets;
      if |secrets[k]| == 0 { continue; }
      redacted := RedactOne(redacted, secrets[k]);
    }
    assert secrets[..|secrets|] == secrets;
  }

  lemma SecretsKept(environment: seq<Variable>)
    ensures forall s :: s in LongestFirst(Secrets(environment)) <==> s in Secrets(environment)
  {
    LongestFirstSorts(Secrets(environment));
    forall s ensures s in LongestFirst(Secrets(environment)) <==> s in Secrets(environment) {
      assert s in multiset(LongestFirst(Secrets(environment))) <==> s in multiset(Secrets(environment));
    }
  }

  // ---------------------------------------------------------------- nothing survives

  predicate Occurs(text: Bytes, needle: Bytes) {
    exists i :: 0 <= i <= |text| && OccursAt(text, i, needle)
  }

  /** No byte in common with the marker. */
  predicate Foreign(s: Bytes) {
    forall i :: 0 <= i < |s| ==> s[i] !in MARKER
  }

  /** A foreign string at the front of the replaced text stood there before, unreplaced. */
  lemma {:induction false} FrontOrigin(text: Bytes, secret: Bytes, i: nat, s: Bytes)
    requires secret != [] && i <= |text| && Foreign(s) && s != []
    requires OccursAt(Replace(text, secret, i), 0, s)
    ensures OccursAt(text, i, s) && !OccursAt(text, i, secret)
    decreases |s|
  {
    var out := Replace(text, secret, i);
    assert out[0] == out[0..|s|][0] == s[0];
    if !OccursAt(text, i, secret) {
      var rest := Replace(text, secret, i + 1);
      assert out == [text[i]] + rest;
      if |s| > 1 {
        assert rest[0..|s| - 1] == out[0..|s|][1..] == s[1..];
        FrontOrigin(text, secret, i + 1, s[1..]);
        assert text[i..i + |s|] == [text[i]] + text[i + 1..i + |s|];
        assert s == [s[0]] + s[1..];
      } else {
        assert text[i..i + 1] == [text[i]] == s;
      }
    }
  }

  lemma PastMarker(rest: Bytes, p: nat, s: Bytes)
    requires Foreign(s) && s != [] && OccursAt(MARKER + rest, p, s)
    ensures p >= |MARKER| && OccursAt(rest, p - |MARKER|, s)
  {
    var out := MARKER + rest;
    assert out[p] == out[p..p + |s|][0] == s[0];
    assert p >= |MARKER|;
    assert rest[p - |MARKER|..p - |MARKER| + |s|] == out[p..p + |s|];
  }

  lemma PastByte(first: Byte, rest: Bytes, p: nat, s: Bytes)
    requires p > 0 && OccursAt([first] + rest, p, s)
    ensures OccursAt(rest, p - 1, s)
  {
    assert rest[p - 1..p - 1 + |s|] == ([first] + rest)[p..p + |s|];
  }

  /** Every foreign string in the replaced text stood in the text, at a place where no secret did. */
  lemma {:induction false} Origin(text: Bytes, secret: Bytes, i: nat, p: nat, s: Bytes) returns (q: nat)
    requires secret != [] && i <= |text| && Foreign(s) && s != []
    requires OccursAt(Replace(text, secret, i), p, s)
    ensures q <= |text| && OccursAt(text, q, s) && !OccursAt(text, q, secret)
    decreases |text| - i
  {
    hide Foreign;
    var out := Replace(text, secret, i);
    if OccursAt(text, i, secret) {
      PastMarker(Replace(text, secret, i + |secret|), p, s);
      q := Origin(text, secret, i + |secret|, p - |MARKER|, s);
    } else if p == 0 {
      FrontOrigin(text, secret, i, s);
      q := i;
    } else {
      var rest := Replace(text, secret, i + 1);
      PastByte(text[i], rest, p, s);
      q := Origin(text, secret, i + 1, p - 1, s);
    }
  }

  /** One pass removes its own secret, and never creates another foreign one across an inserted marker. */
  lemma PassRemoves(text: Bytes, secret: Bytes, s: Bytes)
    requires secret != [] && Foreign(s) && s != []
    ensures Occurs(Replace(text, secret, 0), s) ==> Occurs(text, s) && s != secret
  {
    var out := Replace(text, secret, 0);
    if p :| 0 <= p <= |out| && OccursAt(out, p, s) {
      var q := Origin(text, secret, 0, p, s);
    }
  }

  /** After all passes no secret that shares no byte with the marker occurs anywhere in the output, inserted
      markers included. */
  lemma {:induction false} NoSecretSurvives(text: Bytes, secrets: seq<Bytes>, s: Bytes)
    requires Foreign(s) && s != []
    ensures Occurs(ReplaceAll(text, secrets), s) ==> Occurs(text, s) && s !in secrets
    decreases |secrets|
  {
    if secrets != [] {
      var before, last := secrets[..|secrets| - 1], secrets[|secrets| - 1];
      NoSecretSurvives(text, before, s);
      if last != [] { PassRemoves(ReplaceAll(text, before), last, s); }
      assert secrets == before + [last];
    }
  }

  /** The same, for the environment the stream is scrubbed against. */
  lemma StreamsAreClean(value: Bytes, environment: seq<Variable>, secret: Variable)
    requires secret in environment && secret.name !in AMBIENT && secret.value != [] && Foreign(secret.value)
    ensures !Occurs(ReplaceAll(value, LongestFirst(Secrets(environment))), secret.value)
  {
    SecretsKept(environment);
    NoSecretSurvives(value, LongestFirst(Secrets(environment)), secret.value);
  }

  /** Text in which no secret occurs passes through unchanged. */
  lemma {:induction false} UntouchedWithoutSecret(text: Bytes, secret: Bytes, i: nat)
    requires secret != [] && i <= |text| && !Occurs(text, secret)
    ensures Replace(text, secret, i) == text[i..]
    decreases |text| - i
  {
    assert !OccursAt(text, i, secret);
    if i < |text| {
      UntouchedWithoutSecret(text, secret, i + 1);
      assert text[i..] == [text[i]] + text[i + 1..];
    }
  }
}
