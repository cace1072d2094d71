/** Cutting a character stream into lines while it arrives in arbitrary pieces. */
module Framing {

  /** `text.split("\n")`. */
  function Split(text: string): (pieces: seq<string>)
    ensures pieces != []
  {
    if text == "" then [""]
    else
      var before, c := Split(text[..|text| - 1]), text[|text| - 1];
      var last := |before| - 1;
      if c == '\n' then before + [""] else before[last := before[last] + [c]]
  }

  /** The newline-terminated lines of a text, without their terminators. */
  function Lines(text: string): seq<string> {
    Split(text)[..|Split(text)| - 1]
  }

  /** What follows the last newline. */
  function Tail(text: string): string {
    Split(text)[|Split(text)| - 1]
  }

  function Concat(chunks: seq<string>): string {
    if chunks == [] then "" else Concat(chunks[..|chunks| - 1]) + chunks[|chunks| - 1]
  }

  function Unlines(lines: seq<string>): string {
    if lines == [] then "" else lines[0] + "\n" + Unlines(lines[1..])
  }

  /** Splitting what was left over together with what comes next is splitting the whole. */
  lemma {:induction false} SplitAppend(a: string, b: string)
    ensures Split(a + b) == Lines(a) + Split(Tail(a) + b)
    decreases |b|
  {
    if b == "" {
      assert a + b == a && Tail(a) + b == Tail(a);
      NoNewlineInPieces(a);
      SplitPlain(Tail(a));
    } else {
      var init, c := b[..|b| - 1], b[|b| - 1];
      SplitAppend(a, init);
      SplitAppendNext(a, init, c);
      assert a + b == a + init + [c] && Tail(a) + b == Tail(a) + init + [c];
    }
  }

  lemma SplitAppendNext(a: string, init: string, c: char)
    requires Split(a + init) == Lines(a) + Split(Tail(a) + init)
    ensures Split(a + init + [c]) == Lines(a) + Split(Tail(a) + init + [c])
  {
    SplitNext(a + init, c);
    SplitNext(Tail(a) + init, c);
    hide Split;
    var front, pieces := Lines(a), Split(Tail(a) + init);
    assert (front + pieces)[..|front + pieces| - 1] == front + pieces[..|pieces| - 1];
  }

  lemma SplitNext(text: string, c: char)
    ensures Split(text + [c]) ==
      if c == '\n' then Split(text) + [""] else Lines(text) + [Tail(text) + [c]]
  {
    assert (text + [c])[..|text|] == text;
  }

  /** The lines and the tail of a longer text, from the tail of a shorter one. */
  lemma LinesAppend(a: string, b: string)
    ensures Lines(a + b) == Lines(a) + Lines(Tail(a) + b)
    ensures Tail(a + b) == Tail(Tail(a) + b)
  {
    SplitAppend(a, b);
  }

  lemma {:induction false} SplitPlain(line: string)
    requires '\n' !in line
    ensures Split(line) == [line]
  {
    if line != "" {
      SplitPlain(line[..|line| - 1]);
      assert line == line[..|line| - 1] + [line[|line| - 1]];
    }
  }

  lemma {:induction false} NoNewlineInPieces(text: string)
    ensures forall i | 0 <= i < |Split(text)| :: '\n' !in Split(text)[i]
  {
    if text != "" {
      NoNewlineInPieces(text[..|text| - 1]);
    }
  }

  lemma SplitLine(line: string, rest: string)
    requires '\n' !in line
    ensures Split(line + "\n" + rest) == [line] + Split(rest)
  {
    SplitPlain(line);
    var first := line + "\n";
    assert first[..|first| - 1] == line;
    assert Split(first) == [line, ""];
    SplitAppend(first, rest);
    assert Tail(first) + rest == rest;
  }

  lemma {:induction false} SplitUnlines(lines: seq<string>, tail: string)
    requires forall i | 0 <= i < |lines| :: '\n' !in lines[i]
    requires '\n' !in tail
    ensures Split(Unlines(lines) + tail) == lines + [tail]
  {
    if lines == [] {
      SplitPlain(tail);
      assert Unlines(lines) + tail == tail;
    } else {
      SplitUnlines(lines[1..], tail);
      SplitLine(lines[0], Unlines(lines[1..]) + tail);
      assert Unlines(lines) + tail == lines[0] + "\n" + (Unlines(lines[1..]) + tail);
      assert lines == [lines[0]] + lines[1..];
    }
  }

  lemma {:induction false} SplitJoins(text: string)
    ensures Unlines(Lines(text)) + Tail(text) == text
    decreases |text|
  {
    if text != "" {
      var init, c := text[..|text| - 1], text[|text| - 1];
      SplitJoins(init);
      assert text == init + [c];
      if c == '\n' {
        UnlinesSnoc(Lines(init), Tail(init));
        assert Lines(text) == Lines(init) + [Tail(init)];
      } else {
        assert Lines(text) == Lines(init);
      }
    }
  }

  lemma {:induction false} UnlinesSnoc(lines: seq<string>, line: string)
    ensures Unlines(lines + [line]) == Unlines(lines) + line + "\n"
  {
    if lines == [] {
      assert [line][1..] == [];
    } else {
      assert (lines + [line])[1..] == lines[1..] + [line];
      UnlinesSnoc(lines[1..], line);
    }
  }

  /** Lines and tail are the one way to cut a text at its newlines: nothing is lost or
      invented, and no piece contains a newline. */
  lemma LinesUnique(text: string, lines: seq<string>, tail: string)
    ensures (lines == Lines(text) && tail == Tail(text)) <==>
            (Unlines(lines) + tail == text && '\n' !in tail && forall i | 0 <= i < |lines| :: '\n' !in lines[i])
  {
    SplitJoins(text);
    NoNewlineInPieces(text);
    if Unlines(lines) + tail == text && '\n' !in tail && forall i | 0 <= i < |lines| :: '\n' !in lines[i] {
      SplitUnlines(lines, tail);
    }
  }
}
