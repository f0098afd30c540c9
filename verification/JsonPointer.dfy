/** JSON Pointers (RFC 6901): how conformance.py writes them, and how section 4 of the standard reads them back. */
module JsonPointer {
  import opened Wrappers
  import opened Text

  // ---------------------------------------------------------------- tokens

  /** Every occurrence of one character replaced. */
  function ReplaceChar(text: string, c: char, other: string): string {
    if text == "" then "" else (if text[0] == c then other else [text[0]]) + ReplaceChar(text[1..], c, other)
  }

  /** Every occurrence of a pair of characters replaced, from the left. */
  function ReplacePair(text: string, c: char, d: char, other: string): string {
    if text == "" then ""
    else if |text| > 1 && text[0] == c && text[1] == d then other + ReplacePair(text[2..], c, d, other)
    else [text[0]] + ReplacePair(text[1..], c, d, other)
  }

  /** `_json_pointer_token`. */
  function Escape(key: string): string {
    ReplaceChar(ReplaceChar(key, '~', "~0"), '/', "~1")
  }

  /** Section 4: first "~1" back to "/", then "~0" back to "~". */
  function Unescape(token: string): string {
    ReplacePair(ReplacePair(token, '~', '1', "/"), '~', '0', "~")
  }

  /** Every tilde is followed by a zero. */
  predicate Tilded(text: string) {
    forall i :: 0 <= i < |text| && text[i] == '~' ==> i + 1 < |text| && text[i + 1] == '0'
  }

  lemma {:induction false} TildesTilded(text: string)
    ensures Tilded(ReplaceChar(text, '~', "~0"))
  {
    if text != "" {
      TildesTilded(text[1..]);
      var rest := ReplaceChar(text[1..], '~', "~0");
      var head := if text[0] == '~' then "~0" else [text[0]];
      assert forall i :: 0 <= i < |rest| ==> (head + rest)[|head| + i] == rest[i];
    }
  }

  lemma {:induction false} TildesRestored(text: string)
    ensures ReplacePair(ReplaceChar(text, '~', "~0"), '~', '0', "~") == text
  {
    if text != "" {
      TildesRestored(text[1..]);
      var rest := ReplaceChar(text[1..], '~', "~0");
      if text[0] == '~' {
        assert ("~0" + rest)[2..] == rest;
      } else {
        assert ([text[0]] + rest)[1..] == rest;
      }
      assert [text[0]] + text[1..] == text;
    }
  }

  lemma {:induction false} SlashesRestored(text: string)
    requires Tilded(text)
    ensures ReplacePair(ReplaceChar(text, '/', "~1"), '~', '1', "/") == text
  {
    if text != "" {
      var rest := ReplaceChar(text[1..], '/', "~1");
      forall i | 0 <= i < |text[1..]| && text[1..][i] == '~' ensures i + 1 < |text[1..]| && text[1..][i + 1] == '0' {
        assert text[i + 1] == '~';
      }
      SlashesRestored(text[1..]);
      if text[0] == '/' {
        assert ("~1" + rest)[2..] == rest;
      } else {
        if text[0] == '~' {
          assert text[1] == '0' && rest[0] == '0';
        }
        assert ([text[0]] + rest)[1..] == rest;
      }
      assert [text[0]] + text[1..] == text;
    }
  }

  /** Escaping is undone exactly. */
  lemma EscapeRoundTrip(key: string)
    ensures Unescape(Escape(key)) == key
  {
    TildesTilded(key);
    SlashesRestored(ReplaceChar(key, '~', "~0"));
    TildesRestored(key);
  }

  lemma {:induction false} SlashFree(text: string)
    ensures Free(ReplaceChar(text, '/', "~1"), '/')
  {
    if text != "" {
      SlashFree(text[1..]);
    }
  }

  // ---------------------------------------------------------------- pointers

  /** A slash and an escaped token for every step. */
  function Render(tokens: seq<string>): string {
    if tokens == [] then "" else "/" + Escape(tokens[0]) + Render(tokens[1..])
  }

  /** Section 3: the empty text, or tokens each behind a slash. */
  function Parse(pointer: string): Option<seq<string>> {
    if pointer == "" then Some([])
    else if pointer[0] != '/' then None
    else Some(UnescapeAll(Split(pointer[1..], '/')))
  }

  function UnescapeAll(pieces: seq<string>): (tokens: seq<string>)
    ensures |tokens| == |pieces|
  {
    if pieces == [] then [] else [Unescape(pieces[0])] + UnescapeAll(pieces[1..])
  }

  function EscapeAll(tokens: seq<string>): (pieces: seq<string>)
    ensures |pieces| == |tokens|
  {
    if tokens == [] then [] else [Escape(tokens[0])] + EscapeAll(tokens[1..])
  }

  lemma {:induction false} EscapeAllRoundTrip(tokens: seq<string>)
    ensures UnescapeAll(EscapeAll(tokens)) == tokens
    ensures forall i :: 0 <= i < |tokens| ==> Free(EscapeAll(tokens)[i], '/')
  {
    if tokens != [] {
      EscapeRoundTrip(tokens[0]);
      SlashFree(ReplaceChar(tokens[0], '~', "~0"));
      EscapeAllRoundTrip(tokens[1..]);
    }
  }

  lemma {:induction false} RenderIsJoin(tokens: seq<string>)
    requires tokens != []
    ensures Render(tokens) == "/" + Join(EscapeAll(tokens), '/')
  {
    if |tokens| > 1 {
      RenderIsJoin(tokens[1..]);
      assert EscapeAll(tokens)[1..] == EscapeAll(tokens[1..]);
    } else {
      assert tokens[1..] == [];
    }
  }

  /** A rendered pointer reads back as its tokens. */
  lemma PointerRoundTrip(tokens: seq<string>)
    ensures Parse(Render(tokens)) == Some(tokens)
  {
    if tokens != [] {
      RenderIsJoin(tokens);
      EscapeAllRoundTrip(tokens);
      SplitOfJoin(EscapeAll(tokens), '/');
      assert Render(tokens)[1..] == Join(EscapeAll(tokens), '/');
    }
  }

  /** Different paths have different pointers. */
  lemma PointersDiffer(left: seq<string>, right: seq<string>)
    requires left != right
    ensures Render(left) != Render(right)
  {
    PointerRoundTrip(left);
    PointerRoundTrip(right);
  }

  // ---------------------------------------------------------------- array indices

  function Digit(d: nat): char
    requires d < 10
  {
    "0123456789"[d]
  }

  function DigitOf(c: char): int {
    if '0' <= c <= '9' then c as int - '0' as int else -1
  }

  /** A nonnegative integer in decimal. */
  function Decimal(n: nat): (text: string)
    ensures text != ""
  {
    if n < 10 then [Digit(n)] else Decimal(n / 10) + [Digit(n % 10)]
  }

  /** The value of a string of digits. */
  function DigitsValue(text: string): Option<nat> {
    if text == "" then Some(0)
    else
      var before, last := DigitsValue(text[..|text| - 1]), DigitOf(text[|text| - 1]);
      if before.None? || last < 0 then None else Some(10 * before.value + last)
  }

  /** Section 4: an array index is "0", or digits without a leading zero. */
  function IndexValue(token: string): Option<nat> {
    if token == "" || (|token| > 1 && token[0] == '0') then None else DigitsValue(token)
  }

  lemma {:induction false} DecimalDigits(n: nat)
    ensures DigitsValue(Decimal(n)) == Some(n)
    ensures n > 0 ==> Decimal(n)[0] != '0'
  {
    if n >= 10 {
      DecimalDigits(n / 10);
      assert Decimal(n)[..|Decimal(n)| - 1] == Decimal(n / 10);
    } else {
      assert [Digit(n)][..0] == "";
    }
  }

  lemma DecimalRoundTrip(n: nat)
    ensures IndexValue(Decimal(n)) == Some(n)
  {
    DecimalDigits(n);
  }
}
