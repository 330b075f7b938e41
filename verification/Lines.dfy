/** Splitting text at line breaks, as `String.prototype.split("\n")` does in
    runtimes/pi/packages/agent/src/proxy.ts. */
module Lines {

  function Split(text: string): (pieces: seq<string>)
    ensures |pieces| > 0
  {
    if text == "" then [""]
    else
      var rest := Split(text[1..]);
      if text[0] == '\n' then [""] + rest else [[text[0]] + rest[0]] + rest[1..]
  }

  function Join(pieces: seq<string>): string
    requires |pieces| > 0
  {
    if |pieces| == 1 then pieces[0] else pieces[0] + "\n" + Join(pieces[1..])
  }

  /** The pieces ended by a line break. */
  function Front(pieces: seq<string>): seq<string>
    requires |pieces| > 0
  {
    pieces[..|pieces| - 1]
  }

  function Last(pieces: seq<string>): string
    requires |pieces| > 0
  {
    pieces[|pieces| - 1]
  }

  function Concat(chunks: seq<string>): string {
    if chunks == [] then "" else Concat(chunks[..|chunks| - 1]) + chunks[|chunks| - 1]
  }

  ghost predicate Unbroken(pieces: seq<string>) {
    forall i :: 0 <= i < |pieces| ==> '\n' !in pieces[i]
  }

  /** The pieces put together again are the text, and none contains a line break. */
  lemma {:induction false} SplitThenJoin(text: string)
    ensures Join(Split(text)) == text && Unbroken(Split(text))
  {
    if text != "" {
      SplitThenJoin(text[1..]);
      var rest := Split(text[1..]);
      if text[0] == '\n' {
        assert Split(text)[1..] == rest;
      } else {
        assert Split(text)[1..] == rest[1..];
        assert '\n' !in rest[0];
      }
    }
  }

  /** There is no other way to take a text apart at its line breaks. */
  lemma {:induction false} JoinThenSplit(pieces: seq<string>)
    requires |pieces| > 0 && Unbroken(pieces)
    ensures Split(Join(pieces)) == pieces
    decreases |pieces|, |pieces[0]|
  {
    if pieces[0] != "" {
      var shorter := [pieces[0][1..]] + pieces[1..];
      assert shorter[1..] == pieces[1..];
      JoinThenSplit(shorter);
      assert Join(pieces)[0] == pieces[0][0] && Join(pieces)[1..] == Join(shorter);
      assert [pieces[0][0]] + pieces[0][1..] == pieces[0];
    } else if |pieces| > 1 {
      JoinThenSplit(pieces[1..]);
      assert Join(pieces)[1..] == Join(pieces[1..]);
    }
  }

  function Grow(c: char, pieces: seq<string>): seq<string>
    requires |pieces| > 0
  {
    if c == '\n' then [""] + pieces else [[c] + pieces[0]] + pieces[1..]
  }

  lemma SplitGrows(c: char, text: string)
    ensures Split([c] + text) == Grow(c, Split(text))
  {}

  lemma GrowAppend(c: char, front: seq<string>, more: seq<string>)
    requires |front| > 0
    ensures Grow(c, front + more) == Grow(c, front) + more
  {}

  lemma GrowPieces(c: char, rest: seq<string>, b: string)
    requires |rest| > 0
    ensures Grow(c, Front(rest) + Split(Last(rest) + b)) == Front(Grow(c, rest)) + Split(Last(Grow(c, rest)) + b)
  {
    var more := Split(Last(rest) + b);
    assert rest == Front(rest) + [Last(rest)];
    if |rest| > 1 {
      GrowAppend(c, Front(rest), [Last(rest)]);
      GrowAppend(c, Front(rest), more);
      hide Split, Grow;
    } else {
      assert Front(rest) + more == more;
      if c == '\n' {
        assert Grow(c, rest) == ["", rest[0]];
      } else {
        SplitGrows(c, Last(rest) + b);
        assert Grow(c, rest) == [[c] + rest[0]];
        assert [c] + rest[0] + b == [c] + (rest[0] + b);
      }
      hide Split;
    }
  }

  /** Text that arrives in two parts: the pieces ended within the first part stand, and the open last piece
      goes on with the second part. */
  lemma {:induction false} SplitAppend(a: string, b: string)
    ensures Split(a + b) == Front(Split(a)) + Split(Last(Split(a)) + b)
  {
    if a == "" {
      assert a + b == b && Last(Split(a)) + b == b;
    } else {
      var c, rest := a[0], Split(a[1..]);
      SplitAppend(a[1..], b);
      assert a + b == [c] + (a[1..] + b) && a == [c] + a[1..];
      SplitGrows(c, a[1..] + b);
      SplitGrows(c, a[1..]);
      GrowPieces(c, rest, b);
      hide Split, Grow;
    }
  }

  lemma {:induction false} NoBreakNoSplit(text: string)
    requires '\n' !in text
    ensures Split(text) == [text]
  {
    assert Join([text]) == text;
    JoinThenSplit([text]);
  }

  /** A last line without its line break changes nothing. */
  lemma UnterminatedLineIsDropped(text: string, tail: string)
    requires '\n' !in tail && '\n' !in Last(Split(text))
    ensures Front(Split(text + tail)) == Front(Split(text))
  {
    SplitAppend(text, tail);
    NoBreakNoSplit(Last(Split(text)) + tail);
  }
}
