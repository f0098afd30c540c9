/** Text cut at a separator and put together again. */
module Text {

  function Split(text: string, separator: char): (pieces: seq<string>)
    ensures pieces != []
  {
    if text == "" then [""]
    else
      var rest := Split(text[1..], separator);
      if text[0] == separator then [""] + rest else [[text[0]] + rest[0]] + rest[1..]
  }

  function Join(pieces: seq<string>, separator: char): string
    requires pieces != []
  {
    if |pieces| == 1 then pieces[0] else pieces[0] + [separator] + Join(pieces[1..], separator)
  }

  predicate Free(text: string, separator: char) {
    separator !in text
  }

  lemma {:induction false} JoinOfSplit(text: string, separator: char)
    ensures Join(Split(text, separator), separator) == text
    ensures forall i :: 0 <= i < |Split(text, separator)| ==> Free(Split(text, separator)[i], separator)
  {
    if text != "" {
      JoinOfSplit(text[1..], separator);
      var rest := Split(text[1..], separator);
      if text[0] == separator {
        assert ([""] + rest)[1..] == rest;
      } else if |rest| > 1 {
        var head := [text[0]] + rest[0];
        assert ([head] + rest[1..])[1..] == rest[1..];
      }
      assert text == [text[0]] + text[1..];
    }
  }

  lemma {:induction false} SplitOfJoin(pieces: seq<string>, separator: char)
    requires pieces != [] && forall i :: 0 <= i < |pieces| ==> Free(pieces[i], separator)
    ensures Split(Join(pieces, separator), separator) == pieces
  {
    assert Free(pieces[0], separator);
    if |pieces| > 1 {
      SplitOfJoin(pieces[1..], separator);
      SplitPrefix(pieces[0], Join(pieces[1..], separator), separator);
      assert Join(pieces, separator) == pieces[0] + [separator] + Join(pieces[1..], separator);
    } else {
      SplitAtom(pieces[0], separator);
    }
  }

  lemma {:induction false} SplitAtom(text: string, separator: char)
    requires Free(text, separator)
    ensures Split(text, separator) == [text]
  {
    if text != "" {
      SplitAtom(text[1..], separator);
      assert text[0] in text && [text[0]] + text[1..] == text;
    }
  }

  /** The first separator ends the first piece. */
  lemma {:induction false} SplitPrefix(piece: string, rest: string, separator: char)
    requires Free(piece, separator)
    ensures Split(piece + [separator] + rest, separator) == [piece] + Split(rest, separator)
  {
    var whole := piece + [separator] + rest;
    if piece == "" {
      assert whole[1..] == rest;
    } else {
      SplitPrefix(piece[1..], rest, separator);
      assert whole[1..] == piece[1..] + [separator] + rest;
      assert piece[0] in piece && [piece[0]] + piece[1..] == piece;
    }
  }
}
