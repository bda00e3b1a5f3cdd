/** Placement of the text on the 600x400 blue-screen canvas: the text is cut at
    every line feed and each piece becomes one horizontally centred `fillText`
    call, the pieces spaced one line height apart and centred as a block on
    the canvas midline. */
module TextLayout {

  const CanvasWidth: int := 600
  const CanvasHeight: int := 400
  /** Vertical distance between the baselines of consecutive lines. */
  const LineHeight: int := 40

  /** One `fillText(line, x, y)` call on the canvas. */
  datatype DrawText = DrawText(line: string, x: int, y: int)

  /** Number of line feeds in `s`. */
  function NewlineCount(s: string): nat
  {
    if s == [] then 0 else (if s[0] == '\n' then 1 else 0) + NewlineCount(s[1..])
  }

  /** `s.split("\n")`: the pieces of `s` between line feeds, in order; the
      empty text is one empty piece. */
  function Split(s: string): (lines: seq<string>)
    ensures |lines| == NewlineCount(s) + 1
    ensures forall l :: l in lines ==> '\n' !in l
  {
    if s == [] then [[]]
    else
      var rest := Split(s[1..]);
      if s[0] == '\n' then [[]] + rest
      else
        assert rest[0] in rest;
        [[s[0]] + rest[0]] + rest[1..]
  }

  /** `lines.join("\n")`: the reference against which `Split` is checked. */
  function Join(lines: seq<string>): string
  {
    if |lines| == 0 then []
    else if |lines| == 1 then lines[0]
    else lines[0] + "\n" + Join(lines[1..])
  }

  /** Joining the pieces again gives back the text: splitting loses nothing
      and keeps the order. */
  lemma {:induction false} JoinSplit(s: string)
    ensures Join(Split(s)) == s
  {
    if s != [] {
      var rest := Split(s[1..]);
      JoinSplit(s[1..]);
      if s[0] == '\n' {
        assert Split(s) == [[]] + rest;
        assert ([[]] + rest)[1..] == rest;
        assert Join(Split(s)) == [] + "\n" + Join(rest);
        assert s == [s[0]] + s[1..];
      } else {
        assert Split(s) == [[s[0]] + rest[0]] + rest[1..];
        if |rest| == 1 {
          assert Join(Split(s)) == [s[0]] + rest[0];
        } else {
          assert ([[s[0]] + rest[0]] + rest[1..])[1..] == rest[1..];
          assert Join(Split(s)) == [s[0]] + rest[0] + "\n" + Join(rest[1..]);
          assert Join(rest) == rest[0] + "\n" + Join(rest[1..]);
        }
        assert s == [s[0]] + s[1..];
      }
    }
  }

  /** Text free of line feeds in front of `rest` only lengthens the first
      piece of `rest`. */
  lemma {:induction false} SplitPrefix(l: string, rest: string)
    requires '\n' !in l
    ensures Split(l + rest) == [l + Split(rest)[0]] + Split(rest)[1..]
  {
    if l == [] {
      assert l + rest == rest;
      assert l + Split(rest)[0] == Split(rest)[0];
      assert Split(rest) == [Split(rest)[0]] + Split(rest)[1..];
    } else {
      assert l[0] in l;
      assert forall c :: c in l[1..] ==> c in l;
      SplitPrefix(l[1..], rest);
      assert (l + rest)[0] == l[0];
      assert (l + rest)[1..] == l[1..] + rest;
      assert [l[0]] + (l[1..] + Split(rest)[0]) == l + Split(rest)[0];
    }
  }

  /** Pieces free of line feeds, joined and split again, come back unchanged:
      together with `JoinSplit`, `Split` and `Join` are inverse to each other. */
  lemma {:induction false} SplitJoin(lines: seq<string>)
    requires |lines| >= 1
    requires forall l :: l in lines ==> '\n' !in l
    ensures Split(Join(lines)) == lines
  {
    assert lines[0] in lines;
    if |lines| == 1 {
      SplitPrefix(lines[0], []);
      assert lines[0] + [] == lines[0];
    } else {
      assert forall l :: l in lines[1..] ==> l in lines;
      SplitJoin(lines[1..]);
      var tail := "\n" + Join(lines[1..]);
      assert Join(lines) == lines[0] + tail;
      assert tail[0] == '\n' && tail[1..] == Join(lines[1..]);
      assert Split(tail) == [[]] + lines[1..];
      SplitPrefix(lines[0], tail);
      assert Split(tail)[0] == [] && Split(tail)[1..] == lines[1..];
      assert lines[0] + [] == lines[0];
      assert lines == [lines[0]] + lines[1..];
    }
  }

  /** Vertical position of line `i` of `n` (`canvas.height / 2 - (n - 1) * 20 + i * 40`). */
  function LineY(n: nat, i: nat): int
  {
    CanvasHeight / 2 - (n - 1) * 20 + i * 40
  }

  /** The draw calls `renderImage` makes for `text`, in order: one per piece,
      all at the horizontal centre, one line height apart, and placed
      symmetrically about the vertical centre. */
  function Layout(text: string): (draws: seq<DrawText>)
    ensures |draws| == NewlineCount(text) + 1
    ensures forall i :: 0 <= i < |draws| ==> draws[i].x == CanvasWidth / 2
    ensures forall i :: 0 <= i < |draws| - 1 ==> draws[i + 1].y == draws[i].y + LineHeight
    ensures forall i :: 0 <= i < |draws| ==> draws[i].y + draws[|draws| - 1 - i].y == CanvasHeight
  {
    var lines := Split(text);
    seq(|lines|, i requires 0 <= i < |lines| => DrawText(lines[i], CanvasWidth / 2, LineY(|lines|, i)))
  }

  /** The texts of a sequence of draw calls. */
  function DrawnLines(draws: seq<DrawText>): seq<string>
  {
    seq(|draws|, i requires 0 <= i < |draws| => draws[i].line)
  }

  /** The drawn lines, rejoined with line feeds, are exactly the text, and
      none of them holds a line feed. */
  lemma LayoutDrawsText(text: string)
    ensures Join(DrawnLines(Layout(text))) == text
    ensures forall l :: l in DrawnLines(Layout(text)) ==> '\n' !in l
  {
    assert DrawnLines(Layout(text)) == Split(text);
    JoinSplit(text);
  }

  /** Text made of the lines `lines` is drawn as exactly those lines, in order. */
  lemma LayoutOfLines(lines: seq<string>)
    requires |lines| >= 1
    requires forall l :: l in lines ==> '\n' !in l
    ensures DrawnLines(Layout(Join(lines))) == lines
  {
    SplitJoin(lines);
    assert DrawnLines(Layout(Join(lines))) == Split(Join(lines));
  }

  /** Text without a line feed is one draw call at the centre of the canvas. */
  lemma SingleLineAtCentre(text: string)
    requires '\n' !in text
    ensures Layout(text) == [DrawText(text, CanvasWidth / 2, CanvasHeight / 2)]
  {
    SplitPrefix(text, []);
    assert text + [] == text;
  }

  /** The empty text is one empty draw call at the centre of the canvas. */
  lemma EmptyTextLayout()
    ensures Layout("") == [DrawText("", 300, 200)]
  {
  }

  /** Three lines sit 40 above, on, and 40 below the midline. */
  lemma ThreeLinesLayout(a: string, b: string, c: string)
    requires '\n' !in a && '\n' !in b && '\n' !in c
    ensures Layout(a + "\n" + b + "\n" + c) ==
      [DrawText(a, 300, 160), DrawText(b, 300, 200), DrawText(c, 300, 240)]
  {
    var lines := [a, b, c];
    assert lines[2..] == [c] && lines[1..] == [b, c];
    assert Join(lines[2..]) == c;
    assert Join(lines[1..]) == b + "\n" + c;
    assert Join(lines) == a + "\n" + (b + "\n" + c);
    assert a + "\n" + b + "\n" + c == Join(lines);
    SplitJoin(lines);
  }
}
