/** UTF-8 as sections 3 and 4 of RFC 3629 define it: the well-formed byte sequences and where their
    codepoints begin and end. */
module Utf8 {

  type Byte = b: int | 0 <= b < 0x100
  type Bytes = seq<Byte>

  /** Continuation bytes have the form 10xxxxxx. */
  predicate Continuation(b: Byte) {
    b / 0x40 == 2
  }

  predicate Tail(s: Bytes, i: nat) {
    i < |s| && 0x80 <= s[i] <= 0xBF
  }

  /** The length of the well-formed codepoint at the front of `s`, or 0 when there is none; the alternatives
      are UTF8-1 to UTF8-4 of the grammar in section 4. */
  function CodepointLength(s: Bytes): (n: nat)
    ensures n <= |s| && n <= 4
  {
    if s == [] then 0
    else if s[0] <= 0x7F then 1
    else if 0xC2 <= s[0] <= 0xDF && Tail(s, 1) then 2
    else if s[0] == 0xE0 && Tail(s, 1) && 0xA0 <= s[1] && Tail(s, 2) then 3
    else if (0xE1 <= s[0] <= 0xEC || 0xEE <= s[0] <= 0xEF) && Tail(s, 1) && Tail(s, 2) then 3
    else if s[0] == 0xED && Tail(s, 1) && s[1] <= 0x9F && Tail(s, 2) then 3
    else if s[0] == 0xF0 && Tail(s, 1) && 0x90 <= s[1] && Tail(s, 2) && Tail(s, 3) then 4
    else if 0xF1 <= s[0] <= 0xF3 && Tail(s, 1) && Tail(s, 2) && Tail(s, 3) then 4
    else if s[0] == 0xF4 && Tail(s, 1) && s[1] <= 0x8F && Tail(s, 2) && Tail(s, 3) then 4
    else 0
  }

  /** A sequence of well-formed codepoints. */
  predicate Valid(s: Bytes) {
    s == [] || (CodepointLength(s) > 0 && Valid(s[CodepointLength(s)..]))
  }

  /** A codepoint starts with a non-continuation byte and consists of continuation bytes after it. */
  lemma CodepointShape(s: Bytes)
    requires CodepointLength(s) > 0
    ensures !Continuation(s[0])
    ensures forall i :: 0 < i < CodepointLength(s) ==> Continuation(s[i])
  {
  }

  /** A codepoint's length is decided by its own bytes. */
  lemma CodepointLocal(s: Bytes, t: Bytes)
    requires CodepointLength(s) > 0 && CodepointLength(s) <= |t| && t[..CodepointLength(s)] == s[..CodepointLength(s)]
    ensures CodepointLength(t) == CodepointLength(s)
  {
    forall i | 0 <= i < CodepointLength(s) ensures t[i] == s[i] {
      assert t[i] == t[..CodepointLength(s)][i];
    }
  }

  lemma {:induction false} ValidConcat(s: Bytes, t: Bytes)
    requires Valid(s) && Valid(t)
    ensures Valid(s + t)
    decreases |s|
  {
    hide CodepointLength;
    if s == [] {
      assert s + t == t;
    } else {
      var n := CodepointLength(s);
      assert (s + t)[..n] == s[..n];
      CodepointLocal(s, s + t);
      assert (s + t)[n..] == s[n..] + t;
      ValidConcat(s[n..], t);
    }
  }

  /** The codepoint that `s` begins with, as a sequence of its own. */
  lemma OneCodepoint(s: Bytes)
    requires CodepointLength(s) > 0
    ensures Valid(s[..CodepointLength(s)])
  {
    hide CodepointLength;
    var n := CodepointLength(s);
    assert s[..n][..n] == s[..n];
    CodepointLocal(s, s[..n]);
    assert s[..n][n..] == [];
  }

  /** Both sides of the position are whole codepoints. */
  predicate Boundary(s: Bytes, i: nat) {
    i <= |s| && Valid(s[..i]) && Valid(s[i..])
  }

  /** In valid text the boundaries are exactly the positions not inside a codepoint. */
  lemma {:induction false} BoundaryIff(s: Bytes, i: nat)
    requires Valid(s) && i <= |s|
    ensures Boundary(s, i) <==> (i == |s| || !Continuation(s[i]))
    decreases |s|
  {
    hide CodepointLength;
    if i == 0 {
      assert s[..0] == [] && s[0..] == s;
      if s != [] { CodepointShape(s); }
    } else {
      var n := CodepointLength(s);
      CodepointShape(s);
      if i < n {
        assert Continuation(s[i]);
        if Boundary(s, i) {
          CodepointShape(s[i..]);
        }
      } else {
        var rest := s[n..];
        BoundaryIff(rest, i - n);
        assert rest[i - n..] == s[i..];
        assert s[..i] == s[..n] + rest[..i - n];
        PrefixSplits(s, i);
      }
    }
  }

  /** Taking the first codepoint off a prefix. */
  lemma PrefixSplits(s: Bytes, i: nat)
    requires CodepointLength(s) > 0 && CodepointLength(s) <= i <= |s|
    ensures Valid(s[..i]) <==> Valid(s[CodepointLength(s)..][..i - CodepointLength(s)])
  {
    hide CodepointLength;
    var n := CodepointLength(s);
    assert s[..i][..n] == s[..n];
    CodepointLocal(s, s[..i]);
    assert s[..i][n..] == s[n..][..i - n];
  }

  lemma FrontCodepoint(t: Bytes)
    requires Valid(t) && t != []
    ensures CodepointLength(t) > 0 && Valid(t[CodepointLength(t)..])
  {
  }

  /** From one boundary the next one is the end of the codepoint there. */
  lemma NextBoundary(s: Bytes, i: nat)
    requires Valid(s) && Boundary(s, i) && i < |s|
    ensures CodepointLength(s[i..]) > 0
    ensures Boundary(s, i + CodepointLength(s[i..]))
    ensures forall k :: i < k < i + CodepointLength(s[i..]) ==> Continuation(s[k])
  {
    hide CodepointLength, Valid;
    FrontCodepoint(s[i..]);
    var n := CodepointLength(s[i..]);
    CodepointShape(s[i..]);
    forall k | i < k < i + n ensures Continuation(s[k]) {
      assert s[k] == s[i..][k - i];
    }
    assert s[i + n..] == s[i..][n..];
    OneCodepoint(s[i..]);
    ValidConcat(s[..i], s[i..][..n]);
    assert s[..i + n] == s[..i] + s[i..][..n];
  }

  /** What remains of valid text after a valid prefix is valid. */
  lemma {:induction false} ValidSuffix(s: Bytes, t: Bytes)
    requires Valid(s) && Valid(s + t)
    ensures Valid(t)
    decreases |s|
  {
    hide CodepointLength;
    if s == [] {
      assert s + t == t;
    } else {
      var n := CodepointLength(s);
      assert (s + t)[..n] == s[..n];
      CodepointLocal(s, s + t);
      assert (s + t)[n..] == s[n..] + t;
      ValidSuffix(s[n..], t);
    }
  }

  predicate OccursAt(text: Bytes, i: nat, needle: Bytes) {
    i + |needle| <= |text| && text[i..i + |needle|] == needle
  }

  lemma FrontByte(s: Bytes)
    requires Valid(s) && s != []
    ensures !Continuation(s[0])
  {
    CodepointShape(s);
  }

  /** A valid, nonempty needle can only occur in valid text from one boundary to another. */
  lemma OccurrenceIsAligned(text: Bytes, i: nat, needle: Bytes)
    requires Valid(text) && Valid(needle) && needle != [] && OccursAt(text, i, needle)
    ensures Boundary(text, i) && Boundary(text, i + |needle|)
  {
    hide CodepointLength, Valid;
    var end := i + |needle|;
    FrontByte(needle);
    assert text[i] == text[i..end][0];
    BoundaryIff(text, i);
    assert text[i..] == needle + text[end..];
    ValidSuffix(needle, text[end..]);
    assert text[..end] == text[..i] + needle;
    ValidConcat(text[..i], needle);
  }
}
